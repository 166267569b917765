/** The login form: its three `useState` cells, the submit handler around the
    store's `signIn`, and the submit button's `disabled` rule. */
module Login {
  import opened Records
  import opened Store

  /** The inline message shown after a failed sign-in. */
  const InvalidCredentials := "Invalid email or password. Please try again."

  class LoginForm {
    var email: string
    var password: string
    var error: string
    const store: AppStore

    /** The value of `error` at each moment `signIn` was invoked, in order. */
    ghost var errorAtSignIn: seq<string>

    constructor (store: AppStore)
      ensures this.store == store
      ensures email == "" && password == "" && error == "" && errorAtSignIn == []
    {
      this.store := store;
      email, password, error := "", "", "";
      errorAtSignIn := [];
    }

    method SetEmail(s: string)
      modifies this`email
      ensures email == s
    {
      email := s;
    }

    method SetPassword(s: string)
      modifies this`password
      ensures password == s
    {
      password := s;
    }

    /** `disabled={loading}` on the submit button. */
    predicate SubmitDisabled(): (r: bool)
      reads this, store
      ensures r <==> store.State().loading
    {
      store.loading
    }

    /** `handleSubmit`. With an empty field nothing happens: no `signIn`, no
      change to `error` or the store. Otherwise `error` is cleared before
      `signIn` is invoked, ends as the fixed message exactly when `signIn`
      returned false, and the button is enabled again afterwards. */
    method HandleSubmit(auth: (string, string) -> AuthResponse, now: string)
      modifies this, store
      ensures email == old(email) && password == old(password)
      ensures old(email) == "" || old(password) == "" ==>
        error == old(error) && errorAtSignIn == old(errorAtSignIn)
        && store.State() == old(store.State()) && store.events == old(store.events)
      ensures old(email) != "" && old(password) != "" ==>
        var ok := auth(email, password).AuthOk?;
        && errorAtSignIn == old(errorAtSignIn) + [""]
        && store.events == old(store.events) + SignInEvents(email, password, ok)
        && error == (if ok then "" else InvalidCredentials)
        && !SubmitDisabled()
        && store.State() == old(store.State()).(user := store.user, loading := false)
        && (ok ==> store.user == Some(AdminProfile(auth(email, password).id, auth(email, password).email, now)))
        && (!ok ==> store.user == old(store.user))
    {
      if email == "" || password == "" {
        return;
      }
      error := "";
      errorAtSignIn := errorAtSignIn + [error];
      var success := store.SignIn(email, password, auth, now);
      if !success {
        error := InvalidCredentials;
      }
    }
  }
}
