/** The login/sign-up form of components/AuthModal.tsx: its state fields, the
    mode toggle and the submit handler that validates the fields and then calls
    the credential store (login alone, or signup followed by an automatic login). */
module AuthForm {
  import opened Store

  const RequiredMessage := "Email and password are required"
  const MismatchMessage := "Passwords do not match"

  /** How one submit ends: refused by validation before any store call,
      failed with the message the store threw, or succeeded with a token. */
  datatype Outcome = Rejected(message: string) | Failed(message: string) | Succeeded(token: string)

  /** The result of `api.login` on the stored list, as a submit outcome. */
  function LoginOutcome(users: seq<User>, email: string, password: string): Outcome
  {
    if Matches(users, email, password) then Succeeded(MockToken) else Failed(InvalidCredentialsMessage)
  }

  /** What a submit does with the fields as they are and the list the store
      reads (`stored`); `persists` says whether the store keeps what it writes. */
  function SubmitOutcome(isLogin: bool, email: string, password: string, confirm: string,
                         stored: seq<User>, persists: bool): (o: Outcome)
    ensures o.Rejected? <==> email == "" || password == "" || (!isLogin && password != confirm)
    ensures o.Succeeded? ==> o.token == MockToken
    ensures o.Succeeded? && isLogin ==> Matches(stored, email, password)
    ensures o.Succeeded? && !isLogin ==> password == confirm && !Registered(stored, email) && persists
  {
    if email == "" || password == "" then Rejected(RequiredMessage)
    else if !isLogin && password != confirm then Rejected(MismatchMessage)
    else if isLogin then LoginOutcome(stored, email, password)
    else if Registered(stored, email) then Failed(UserExistsMessage)
    else LoginOutcome(if persists then stored + [User(email, password)] else [], email, password)
  }

  /** The required-field check comes first, then the confirmation check,
      which applies to sign-up mode only. */
  lemma ValidationOrder(isLogin: bool, email: string, password: string, confirm: string,
                        other: string, stored: seq<User>, persists: bool)
    ensures email == "" || password == "" ==>
              SubmitOutcome(isLogin, email, password, confirm, stored, persists) == Rejected(RequiredMessage)
    ensures email != "" && password != "" && !isLogin && password != confirm ==>
              SubmitOutcome(isLogin, email, password, confirm, stored, persists) == Rejected(MismatchMessage)
    ensures isLogin ==>
              SubmitOutcome(isLogin, email, password, confirm, stored, persists) ==
              SubmitOutcome(isLogin, email, password, other, stored, persists)
  {
  }

  /** In login mode, once validation passes, the submit succeeds with the mock
      token exactly when the pair is stored, and otherwise fails with
      "Invalid credentials"; the confirmation field plays no part. */
  lemma LoginModeOutcome(email: string, password: string, confirm: string, stored: seq<User>, persists: bool)
    requires email != "" && password != ""
    ensures SubmitOutcome(true, email, password, confirm, stored, persists) ==
            if Matches(stored, email, password) then Succeeded(MockToken)
            else Failed(InvalidCredentialsMessage)
  {
  }

  /** In sign-up mode, once validation passes and `signup` succeeds, the
      automatic login that follows cannot fail while the store keeps what it
      writes: the token read from its result is always there. */
  lemma {:induction false} AutoLoginAfterSignup(email: string, password: string, stored: seq<User>, persists: bool)
    requires email != "" && password != ""
    ensures SubmitOutcome(false, email, password, password, stored, persists) ==
            if Registered(stored, email) then Failed(UserExistsMessage)
            else if persists then Succeeded(MockToken)
            else Failed(InvalidCredentialsMessage)
  {
    if !Registered(stored, email) && persists {
      MatchesAfterAppend(stored, User(email, password), email, password);
    }
  }

  /** The modal's React state, the token slot of local storage, a count of
      `onSuccess` calls, and the credential store the form talks to. */
  class AuthModal {
    var isLogin: bool
    var email: string
    var password: string
    var confirmPassword: string
    var loading: bool
    var error: string
    var token: Option<string>
    var successCalls: nat
    const store: CredentialStore

    constructor (store: CredentialStore, savedToken: Option<string>)
      ensures this.store == store
      ensures isLogin && email == "" && password == "" && confirmPassword == ""
      ensures !loading && error == "" && token == savedToken && successCalls == 0
    {
      this.store := store;
      isLogin := true;
      email, password, confirmPassword := "", "", "";
      loading, error := false, "";
      token := savedToken;
      successCalls := 0;
    }

    /** The "Sign Up" / "Login" link: flips the mode and nothing else. */
    method ToggleMode()
      modifies this`isLogin
      ensures isLogin == !old(isLogin)
    {
      isLogin := !isLogin;
    }

    /** The input handlers of the three fields. */
    method EditEmail(value: string)
      modifies this`email
      ensures email == value
    {
      email := value;
    }

    method EditPassword(value: string)
      modifies this`password
      ensures password == value
    {
      password := value;
    }

    method EditConfirmPassword(value: string)
      modifies this`confirmPassword
      ensures confirmPassword == value
    {
      confirmPassword := value;
    }

    /** `handleSubmit`: clears the error, validates, calls the store, and on
        success writes the token, calls `onSuccess` and clears the fields; on
        failure shows the message and keeps the fields. */
    method HandleSubmit() returns (ghost o: Outcome)
      modifies this, store
      ensures o == SubmitOutcome(old(isLogin), old(email), old(password), old(confirmPassword),
                                 old(store.Load()), store.hasWindow)
      ensures isLogin == old(isLogin)
      ensures store.users ==
                if !old(isLogin) && !o.Rejected? && !Registered(old(store.Load()), old(email)) && store.hasWindow
                then old(store.users) + [User(old(email), old(password))]
                else old(store.users)
      ensures UniqueEmails(old(store.users)) ==> UniqueEmails(store.users)
      ensures o.Rejected? ==> loading == old(loading)
      ensures !o.Rejected? ==> !loading
      ensures o.Succeeded? ==> error == "" && token == Some(o.token) && successCalls == old(successCalls) + 1 &&
                               email == "" && password == "" && confirmPassword == ""
      ensures !o.Succeeded? ==> error == o.message && token == old(token) && successCalls == old(successCalls) &&
                                email == old(email) && password == old(password) &&
                                confirmPassword == old(confirmPassword)
    {
      o := SubmitOutcome(isLogin, email, password, confirmPassword, store.Load(), store.hasWindow);
      error := "";
      if email == "" || password == "" {
        error := RequiredMessage;
        return;
      }
      if !isLogin && password != confirmPassword {
        error := MismatchMessage;
        return;
      }
      loading := true;
      var res: Result<string>;
      if isLogin {
        res := store.Login(email, password);
      } else {
        var created := store.Signup(email, password);
        if created.Err? {
          res := Err(created.message);
        } else {
          res := store.Login(email, password);
        }
      }
      if res.Ok? {
        token := Some(res.value);
        successCalls := successCalls + 1;
        email, password, confirmPassword := "", "", "";
      } else {
        error := res.message;
      }
      loading := false;
    }
  }

  /** A client of the contracts above: sign up, which logs in automatically,
      then fail a login with the wrong password. */
  method SignupThenWrongPassword() {
    var store := new CredentialStore(true, []);
    var form := new AuthModal(store, None);
    form.ToggleMode();
    form.EditEmail("ada@example.com");
    form.EditPassword("secret");
    form.EditConfirmPassword("secret");
    assert store.Load() == [];
    AutoLoginAfterSignup("ada@example.com", "secret", [], true);
    ghost var o := form.HandleSubmit();
    assert o == Succeeded(MockToken);
    assert form.token == Some(MockToken) && form.successCalls == 1;
    assert store.users == [User("ada@example.com", "secret")];

    form.ToggleMode();
    form.EditEmail("ada@example.com");
    form.EditPassword("guess");
    assert !Matches(store.Load(), "ada@example.com", "guess") by {
      OnlyOwnPasswordAfterSignup([], "ada@example.com", "secret", "guess");
    }
    LoginModeOutcome("ada@example.com", "guess", form.confirmPassword, store.Load(), true);
    o := form.HandleSubmit();
    assert o == Failed(InvalidCredentialsMessage);
    assert form.error == InvalidCredentialsMessage && form.successCalls == 1;
  }
}
