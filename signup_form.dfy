/** The signup form (src/components/SignupForm.jsx): name, email and
    password, sent as they are to `POST /auth/signup`; success leads to the
    login page. */
module SignupForm {
  import opened Http
  import opened Forms

  const SignupUrl: string := "/auth/signup"
  const LoginPath: string := "/login"

  /** The state the form starts in: three empty fields. */
  function InitialForm(): (f: Fields)
    ensures f.Keys == {"name", "email", "password"}
    ensures forall k :: k in f ==> f[k] == ""
  {
    map["name" := "", "email" := "", "password" := ""]
  }

  /** The config `handleSubmit` builds: an unauthenticated POST to the
      signup endpoint whose body is the whole form, every key and value of
      it and nothing more. */
  function SignupRequest(form: Fields): (r: Request)
    ensures r.url == SignupUrl && r.verb == Post
    ensures r.body.Json? && r.body.fields.Keys == form.Keys
    ensures forall k :: k in form ==> r.body.fields[k] == form[k]
    ensures r.authorization == None && r.successToast == None
  {
    Request(SignupUrl, Post, Json(form), None, None)
  }

  /** The only continuation: navigate to the login page. */
  datatype Pending = Pending(request: Request)

  class SignupFormView {
    const validate: Validator
    var formErrors: Fields
    var formData: Fields
    /** Signup requests issued and not yet settled, in issue order. */
    var pending: seq<Pending>
    /** Paths navigated to, in order. */
    var navigations: seq<string>

    constructor (validate: Validator)
      ensures this.validate == validate
      ensures formErrors == map[] && formData == InitialForm()
      ensures pending == [] && navigations == []
    {
      this.validate := validate;
      formErrors := map[];
      formData := InitialForm();
      pending := [];
      navigations := [];
    }

    /** `handleChange`: only the named field changes. */
    method HandleChange(name: string, value: string)
      modifies this
      ensures formData == Edit(old(formData), name, value)
      ensures formErrors == old(formErrors) && pending == old(pending) && navigations == old(navigations)
    {
      formData := Edit(formData, name, value);
    }

    /** `handleSubmit`: validate; with any error show the folded errors and
        issue nothing; otherwise clear the errors and issue exactly one
        signup request carrying the whole form. */
    method HandleSubmit()
      modifies this
      ensures formErrors == FoldErrors(validate("signup", formData))
      ensures pending == if validate("signup", formData) == [] then old(pending) + [Pending(SignupRequest(formData))]
                         else old(pending)
      ensures formData == old(formData) && navigations == old(navigations)
    {
      var errors := validate("signup", formData);
      formErrors := map[];
      if |errors| > 0 {
        formErrors := FoldErrors(errors);
        return;
      }
      pending := pending + [Pending(SignupRequest(formData))];
    }

    /** The signup succeeded: navigate to the login page. This is the only
        way the form navigates. */
    method ResolveSignup(i: nat)
      requires i < |pending|
      modifies this
      ensures navigations == old(navigations) + [LoginPath]
      ensures pending == RemoveAt(old(pending), i)
      ensures formData == old(formData) && formErrors == old(formErrors)
    {
      pending := RemoveAt(pending, i);
      navigations := navigations + [LoginPath];
    }

    /** The signup failed: no navigation. */
    method Reject(i: nat)
      requires i < |pending|
      modifies this
      ensures pending == RemoveAt(old(pending), i)
      ensures formData == old(formData) && formErrors == old(formErrors) && navigations == old(navigations)
    {
      pending := RemoveAt(pending, i);
    }
  }
}
