/** The session store (src/hooks/useAuth.tsx): who is signed in, whether a sign-in is
    in progress, and the copy of the signed-in user kept in the browser's storage under
    `emart-user`, from which a reloaded page restores the session. */
module Auth {
  import opened Types

  /** The storage key under which the signed-in user is kept. */
  const StorageKey := "emart-user"

  /** The one password every demo account accepts. */
  const DemoPassword := "password"

  const AdminUser := User("1", "admin", "admin@emart.com", Admin, "System Administrator",
    Some("https://images.pexels.com/photos/220453/pexels-photo-220453.jpeg?auto=compress&cs=tinysrgb&w=150"))
  const MakerUser := User("2", "maker", "maker@emart.com", Maker, "Inventory Maker",
    Some("https://images.pexels.com/photos/774909/pexels-photo-774909.jpeg?auto=compress&cs=tinysrgb&w=150"))
  const CheckerUser := User("3", "checker", "checker@emart.com", Checker, "Inventory Checker",
    Some("https://images.pexels.com/photos/432059/pexels-photo-432059.jpeg?auto=compress&cs=tinysrgb&w=150"))

  /** `demoUsers`: the accounts, keyed by user name. */
  const DemoUsers: map<string, User> := map["admin" := AdminUser, "maker" := MakerUser, "checker" := CheckerUser]

  /** The credential test of `login`, restricted to the record's own keys: the account
      for `username` when it is a demo account and the password is right. */
  function CheckCredentials(username: string, password: string): (r: Option<User>)
    ensures r.Some? <==> (username in {"admin", "maker", "checker"} && password == DemoPassword)
    ensures r.Some? ==> r.value.username == username && RoleName(r.value.role) == username
  {
    if username in DemoUsers && password == DemoPassword then Some(DemoUsers[username]) else None
  }

  /** Every role has exactly one demo account, named after the role. */
  lemma DemoAccountPerRole(role: Role)
    ensures var r := CheckCredentials(RoleName(role), DemoPassword);
      r.Some? && r.value.role == role && r.value.username == RoleName(role)
    ensures forall name :: name in DemoUsers && DemoUsers[name].role == role ==> name == RoleName(role)
  {
  }

  /** The members every JavaScript object inherits from `Object.prototype`; a lookup
      `demoUsers[name]` with one of these names yields a function, which is truthy. */
  const InheritedMembers: set<string> := {
    "constructor", "__proto__", "toString", "toLocaleString", "valueOf", "hasOwnProperty",
    "isPrototypeOf", "propertyIsEnumerable", "__defineGetter__", "__defineSetter__",
    "__lookupGetter__", "__lookupSetter__"
  }

  /** The test `demoUsers[username] && password === 'password'` as written: the lookup
      on a plain object also finds the inherited members. */
  predicate AcceptsAsWritten(username: string, password: string)
  {
    (username in DemoUsers || username in InheritedMembers) && password == DemoPassword
  }

  /** As written, the user name `constructor` with the demo password signs in, although
      it names no account; the intended test turns it away. */
  lemma ConstructorSignsIn()
    ensures AcceptsAsWritten("constructor", DemoPassword)
    ensures CheckCredentials("constructor", DemoPassword).None?
  {
  }

  /** For any name that is not an inherited member, the written test and the intended
      one agree. */
  lemma AcceptsAsWrittenOtherwiseIntended(username: string, password: string)
    requires username !in InheritedMembers
    ensures AcceptsAsWritten(username, password) <==> CheckCredentials(username, password).Some?
  {
  }

  /** `AuthProvider`: the session state. `stored` is the `emart-user` entry of the
      browser's storage, which outlives the provider. */
  class AuthProvider {
    var user: Option<User>
    var isLoading: bool
    var stored: Option<User>

    /** The provider as first rendered: nobody signed in, loading, over the given storage. */
    constructor(storage: Option<User>)
      ensures user == None && isLoading && stored == storage
    {
      user := None;
      isLoading := true;
      stored := storage;
    }

    /** The mount effect: a stored user becomes the signed-in user; loading ends. */
    method RestoreSession()
      modifies this`user, this`isLoading
      ensures user == (if stored.Some? then stored else old(user))
      ensures !isLoading
    {
      if stored.Some? {
        user := stored;
      }
      isLoading := false;
    }

    /** The part of `login` before the simulated network delay. */
    method BeginLogin()
      modifies this`isLoading
      ensures isLoading
    {
      isLoading := true;
    }

    /** The part of `login` after the delay: on good credentials the account becomes
        the signed-in user and is stored; otherwise user and storage stay as they were.
        Loading ends either way. */
    method CompleteLogin(username: string, password: string) returns (success: bool)
      modifies this`user, this`isLoading, this`stored
      ensures success <==> CheckCredentials(username, password).Some?
      ensures success ==> user == CheckCredentials(username, password) && stored == user
      ensures !success ==> user == old(user) && stored == old(stored)
      ensures !isLoading
    {
      var account := CheckCredentials(username, password);
      if account.Some? {
        user := account;
        stored := account;
        isLoading := false;
        return true;
      }
      isLoading := false;
      return false;
    }

    /** `login`, run to completion. */
    method Login(username: string, password: string) returns (success: bool)
      modifies this`user, this`isLoading, this`stored
      ensures success <==> CheckCredentials(username, password).Some?
      ensures success ==> user == CheckCredentials(username, password) && stored == user
      ensures !success ==> user == old(user) && stored == old(stored)
      ensures !isLoading
    {
      BeginLogin();
      success := CompleteLogin(username, password);
    }

    /** `logout`: nobody is signed in and the stored entry is removed; the result does
        not depend on the state before, so signing out twice is signing out once. */
    method Logout()
      modifies this`user, this`stored
      ensures user == None && stored == None
    {
      user := None;
      stored := None;
    }
  }

  /** A sign-in survives a page reload: a new provider over the storage the first one
      left restores the same user. A failed sign-in leaves the storage as it was. */
  method ReloadAfterLogin(storage: Option<User>, username: string, password: string)
    returns (signedIn: Option<User>, restored: Option<User>)
    ensures CheckCredentials(username, password).Some? ==>
      signedIn == CheckCredentials(username, password) && restored == signedIn
    ensures CheckCredentials(username, password).None? ==> restored == storage
  {
    var first := new AuthProvider(storage);
    first.RestoreSession();
    var _ := first.Login(username, password);
    signedIn := first.user;
    var second := new AuthProvider(first.stored);
    second.RestoreSession();
    restored := second.user;
  }

  /** A sign-out survives a page reload: the new provider restores nobody. */
  method ReloadAfterLogout(storage: Option<User>) returns (restored: Option<User>, loading: bool)
    ensures restored == None && !loading
  {
    var first := new AuthProvider(storage);
    first.RestoreSession();
    first.Logout();
    var second := new AuthProvider(first.stored);
    second.RestoreSession();
    restored := second.user;
    loading := second.isLoading;
  }
}
