/** The login form (src/components/LoginForm.jsx) together with the one rule
    of the login page that feeds it (src/pages/Login.jsx): a valid submit
    dispatches the login action, and once the session reports a login the
    form navigates to the page that asked for it, or home. */
module LoginForm {
  import opened Http
  import opened Forms

  const HomePath: string := "/"

  /** The router's navigation state; `redirectUrl` is absent when the
      navigating page set none (undefined and null are both None). */
  datatype NavState = NavState(redirectUrl: Option<string>)

  /** JavaScript truthiness of a possibly missing string. */
  predicate Truthy(s: Option<string>) {
    s.Some? && s.value != ""
  }

  /** `state?.redirectUrl || null`: a non-empty redirect target, or None
      (no state, no target, or the empty string). */
  function RedirectUrlOf(state: Option<NavState>): (r: Option<string>)
    ensures r.Some? ==> r.value != ""
    ensures Truthy(r) <==> state.Some? && Truthy(state.value.redirectUrl)
    ensures Truthy(r) ==> r == state.value.redirectUrl
  {
    if state.Some? && Truthy(state.value.redirectUrl) then state.value.redirectUrl else None
  }

  /** `redirectUrl || "/"`: the target when it is truthy, otherwise home;
      never the empty path. */
  function RedirectTarget(redirectUrl: Option<string>): (p: string)
    ensures p != ""
    ensures Truthy(redirectUrl) ==> p == redirectUrl.value
    ensures !Truthy(redirectUrl) ==> p == HomePath
  {
    if Truthy(redirectUrl) then redirectUrl.value else HomePath
  }

  /** Where a successful login leads, from the navigation state the login
      page was entered with: the requested page when one was given, home
      otherwise. The page's `|| null` does not change the outcome: the form
      would navigate to the same place given `state?.redirectUrl` directly. */
  lemma LoginDestination(state: Option<NavState>)
    ensures RedirectTarget(RedirectUrlOf(state))
         == if state.Some? && Truthy(state.value.redirectUrl) then state.value.redirectUrl.value else HomePath
    ensures state.Some? ==> RedirectTarget(RedirectUrlOf(state)) == RedirectTarget(state.value.redirectUrl)
  {
  }

  /** The state the form starts in: empty email and password. */
  function InitialForm(): (f: Fields)
    ensures f.Keys == {"email", "password"}
    ensures f["email"] == "" && f["password"] == ""
  {
    map["email" := "", "password" := ""]
  }

  /** A form that still carries the two fields the login action needs. */
  predicate HasLoginFields(form: Fields) {
    "email" in form && "password" in form
  }

  /** The redux action `postLoginData(email, password)`; what the store
      does with it is not part of this model. */
  datatype Action = PostLoginData(email: string, password: string)

  class LoginFormView {
    const redirectUrl: Option<string>
    const validate: Validator
    var formErrors: Fields
    var formData: Fields
    /** Actions dispatched to the store, in order. */
    var dispatched: seq<Action>
    /** Paths navigated to, in order. */
    var navigations: seq<string>

    ghost predicate Valid()
      reads this
    {
      HasLoginFields(formData)
    }

    /** The login page renders the form with `redirectUrl` taken from its
        navigation state. */
    constructor (state: Option<NavState>, validate: Validator)
      ensures Valid()
      ensures redirectUrl == RedirectUrlOf(state) && this.validate == validate
      ensures formErrors == map[] && formData == InitialForm()
      ensures dispatched == [] && navigations == []
    {
      redirectUrl := RedirectUrlOf(state);
      this.validate := validate;
      formErrors := map[];
      formData := InitialForm();
      dispatched := [];
      navigations := [];
    }

    /** The effect on the session state: navigate when logged in, do
        nothing otherwise. */
    method RedirectEffect(isLoggedIn: bool)
      requires Valid()
      modifies this
      ensures Valid()
      ensures navigations == if isLoggedIn then old(navigations) + [RedirectTarget(redirectUrl)]
                             else old(navigations)
      ensures formData == old(formData) && formErrors == old(formErrors) && dispatched == old(dispatched)
    {
      if isLoggedIn {
        navigations := navigations + [RedirectTarget(redirectUrl)];
      }
    }

    /** `handleChange`: only the named field changes. */
    method HandleChange(name: string, value: string)
      requires Valid()
      modifies this
      ensures Valid()
      ensures formData == Edit(old(formData), name, value)
      ensures formErrors == old(formErrors) && dispatched == old(dispatched) && navigations == old(navigations)
    {
      formData := Edit(formData, name, value);
    }

    /** `handleSubmit`: validate; with any error show the folded errors and
        dispatch nothing; otherwise clear the errors and dispatch the login
        action once, with the current email and password. */
    method HandleSubmit()
      requires Valid()
      modifies this
      ensures Valid()
      ensures formErrors == FoldErrors(validate("login", formData))
      ensures dispatched == if validate("login", formData) == [] then old(dispatched) + [PostLoginData(formData["email"], formData["password"])]
                            else old(dispatched)
      ensures formData == old(formData) && navigations == old(navigations)
    {
      var errors := validate("login", formData);
      formErrors := map[];
      if |errors| > 0 {
        formErrors := FoldErrors(errors);
        return;
      }
      dispatched := dispatched + [PostLoginData(formData["email"], formData["password"])];
    }
  }
}
