/** What the three forms share: form state as a JSON object of strings, the
    spread-update that `handleChange` performs, the result of the validation
    table, and the `reduce` that turns that result into the field-to-message
    object the form renders. */
module Forms {

  /** A form's `formData` or `formErrors` object. */
  type Fields = map<string, string>

  /** One entry `{field, err}` of a validation result. */
  datatype FieldError = FieldError(field: string, err: string)

  /** `validateManyFields(kind, formData)`. Its rules are not part of this
      model: each form receives it as an uninterpreted function value. */
  type Validator = (string, Fields) -> seq<FieldError>

  /** `{...form, [name]: value}`: the named key now holds `value`, it is
      added if it was missing, and every other key keeps its value. */
  function Edit(form: Fields, name: string, value: string): (r: Fields)
    ensures r.Keys == form.Keys + {name}
    ensures r[name] == value
    ensures forall k :: k in form && k != name ==> r[k] == form[k]
  {
    form[name := value]
  }

  /** The fields that occur in a validation result. */
  function FieldsOf(errs: seq<FieldError>): set<string> {
    set e | e in errs :: e.field
  }

  /** `errs[i]` is the last entry of `errs` for its field. */
  predicate IsLastFor(errs: seq<FieldError>, i: int) {
    0 <= i < |errs| && forall j :: i < j < |errs| ==> errs[j].field != errs[i].field
  }

  /** `errs.reduce((total, ob) => ({...total, [ob.field]: ob.err}), {})`:
      a left fold, so a later entry for a field overwrites an earlier one.
      The object is empty exactly when the result is. */
  function FoldErrors(errs: seq<FieldError>): (m: Fields)
    ensures m == map[] <==> errs == []
    decreases |errs|
  {
    if errs == [] then map[]
    else
      var last := errs[|errs| - 1];
      var m := FoldErrors(errs[..|errs| - 1])[last.field := last.err];
      assert last.field in m;
      m
  }

  /** Every field with an error gets a key, and no other key appears. */
  lemma {:induction false} FoldErrorsKeys(errs: seq<FieldError>)
    ensures FoldErrors(errs).Keys == FieldsOf(errs)
    decreases |errs|
  {
    if errs != [] {
      var init, last := errs[..|errs| - 1], errs[|errs| - 1];
      FoldErrorsKeys(init);
      assert errs == init + [last];
      assert FieldsOf(errs) == FieldsOf(init) + {last.field};
    }
  }

  /** The last entry for a field is the message the form shows for it. */
  lemma {:induction false} FoldErrorsLastWins(errs: seq<FieldError>, i: int)
    requires IsLastFor(errs, i)
    ensures errs[i].field in FoldErrors(errs)
    ensures FoldErrors(errs)[errs[i].field] == errs[i].err
    decreases |errs|
  {
    var init := errs[..|errs| - 1];
    if i < |errs| - 1 {
      assert IsLastFor(init, i);
      FoldErrorsLastWins(init, i);
    }
  }

  /** Conversely, every message shown comes from the last entry for its
      field. */
  lemma {:induction false} FoldErrorsFromLast(errs: seq<FieldError>, f: string)
    requires f in FoldErrors(errs)
    ensures exists i :: IsLastFor(errs, i) && errs[i].field == f && FoldErrors(errs)[f] == errs[i].err
    decreases |errs|
  {
    var init, last := errs[..|errs| - 1], errs[|errs| - 1];
    if last.field == f {
      assert IsLastFor(errs, |errs| - 1);
    } else {
      FoldErrorsFromLast(init, f);
      var i :| IsLastFor(init, i) && init[i].field == f && FoldErrors(init)[f] == init[i].err;
      assert IsLastFor(errs, i);
    }
  }
}
