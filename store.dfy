/** The mock credential store of lib/api.ts: a list of email/password records
    kept under the "users" key of the browser's local storage, with the
    `signup` and `login` operations that read and extend it. */
module Store {

  datatype Option<T> = None | Some(value: T)

  /** A call that either returns a value or throws an Error with a message. */
  datatype Result<T> = Ok(value: T) | Err(message: string)

  /** One stored account. */
  datatype User = User(email: string, password: string)

  const UserExistsMessage := "User already exists"
  const InvalidCredentialsMessage := "Invalid credentials"
  /** The token every successful login hands out, whoever logs in. */
  const MockToken := "mock-token-12345"

  /** Some stored record carries `email`. */
  predicate Registered(users: seq<User>, email: string) {
    exists i :: 0 <= i < |users| && users[i].email == email
  }

  /** Some stored record carries both `email` and `password`. */
  predicate Matches(users: seq<User>, email: string, password: string) {
    exists i :: 0 <= i < |users| && users[i].email == email && users[i].password == password
  }

  /** No two stored records share an email. */
  predicate UniqueEmails(users: seq<User>) {
    forall i, j :: 0 <= i < j < |users| ==> users[i].email != users[j].email
  }

  /** `Array.prototype.find`: the first record that satisfies `matches`, if any. */
  method Find(users: seq<User>, matches: User -> bool) returns (r: Option<User>)
    ensures r.Some? <==> exists i :: 0 <= i < |users| && matches(users[i])
    ensures r.Some? ==> exists i :: 0 <= i < |users| && users[i] == r.value && matches(r.value) &&
                                    forall j :: 0 <= j < i ==> !matches(users[j])
  {
    var i := 0;
    while i < |users|
      invariant 0 <= i <= |users|
      invariant forall j :: 0 <= j < i ==> !matches(users[j])
    {
      if matches(users[i]) {
        return Some(users[i]);
      }
      i := i + 1;
    }
    return None;
  }

  /** A login check passes only for an account that exists, so an email that
      can log in can never be signed up again. */
  lemma MatchesImpliesRegistered(users: seq<User>, email: string, password: string)
    requires Matches(users, email, password)
    ensures Registered(users, email)
  {
  }

  /** Appending a record with a fresh email keeps emails unique. */
  lemma AppendPreservesUnique(users: seq<User>, u: User)
    requires UniqueEmails(users)
    requires !Registered(users, u.email)
    ensures UniqueEmails(users + [u])
  {
  }

  /** After appending `u`, a pair matches exactly when it matched before or is `u` itself. */
  lemma {:induction false} MatchesAfterAppend(users: seq<User>, u: User, email: string, password: string)
    ensures Matches(users + [u], email, password) <==>
            Matches(users, email, password) || (u.email == email && u.password == password)
  {
    var s := users + [u];
    if Matches(s, email, password) {
      var i :| 0 <= i < |s| && s[i].email == email && s[i].password == password;
      if i < |users| {
        assert users[i] == s[i];
      }
    }
    if Matches(users, email, password) {
      var i :| 0 <= i < |users| && users[i].email == email && users[i].password == password;
      assert s[i] == users[i];
    }
    if u.email == email && u.password == password {
      assert s[|users|] == u;
    }
  }

  /** The record a signup appends lets exactly its own password log in for
      that email, provided the email was fresh. */
  lemma {:induction false} OnlyOwnPasswordAfterSignup(users: seq<User>, email: string, password: string, attempt: string)
    requires !Registered(users, email)
    ensures Matches(users + [User(email, password)], email, attempt) <==> attempt == password
  {
    MatchesAfterAppend(users, User(email, password), email, attempt);
    if Matches(users, email, attempt) {
      MatchesImpliesRegistered(users, email, attempt);
    }
  }

  /** The list under the "users" key of local storage. Without a window
      (server-side rendering) the list reads as empty and writes are dropped. */
  class CredentialStore {
    const hasWindow: bool
    var users: seq<User>

    constructor (hasWindow: bool, saved: seq<User>)
      ensures this.hasWindow == hasWindow && users == saved
    {
      this.hasWindow := hasWindow;
      users := saved;
    }

    /** `getUsers`: the stored list, or nothing when there is no window. */
    function Load(): (r: seq<User>)
      reads this
    {
      if hasWindow then users else []
    }

    /** `saveUsers`: replaces the stored list, or does nothing without a window. */
    method Save(list: seq<User>)
      modifies this
      ensures users == (if hasWindow then list else old(users))
    {
      if hasWindow {
        users := list;
      }
    }

    /** `api.signup`: refuses an email already on file, otherwise appends one record. */
    method Signup(email: string, password: string) returns (r: Result<bool>)
      modifies this
      ensures r.Ok? <==> !Registered(old(Load()), email)
      ensures r.Err? ==> r.message == UserExistsMessage && users == old(users)
      ensures r.Ok? ==> r.value &&
                        users == (if hasWindow then old(users) + [User(email, password)] else old(users))
      ensures UniqueEmails(old(users)) ==> UniqueEmails(users)
      ensures !hasWindow ==> r.Ok? && users == old(users)
    {
      var list := Load();
      var existing := Find(list, (u: User) => u.email == email);
      if existing.Some? {
        return Err(UserExistsMessage);
      }
      if hasWindow && UniqueEmails(users) {
        AppendPreservesUnique(users, User(email, password));
      }
      list := list + [User(email, password)];
      Save(list);
      return Ok(true);
    }

    /** `api.login`: a read-only lookup of the exact email/password pair. */
    method Login(email: string, password: string) returns (r: Result<string>)
      ensures r.Ok? <==> Matches(Load(), email, password)
      ensures r.Ok? ==> r.value == MockToken
      ensures r.Err? ==> r.message == InvalidCredentialsMessage
      ensures !hasWindow ==> r.Err?
    {
      var list := Load();
      var user := Find(list, (u: User) => u.email == email && u.password == password);
      if user.None? {
        return Err(InvalidCredentialsMessage);
      }
      return Ok(MockToken);
    }
  }
}
