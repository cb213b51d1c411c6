/**
 * The session store of the frontend (`AuthProvider`): the signed-in user
 * kept in memory and, under the keys `token` and `user`, in the browser's
 * local storage, so that a reload restores the session.
 */
module AuthContext {
  import opened Wrappers
  import opened Http
  import Accounts

  /** The signed-in user; `email` may be null, `name` and `role` absent. */
  datatype User = User(uid: string, email: Option<string>, name: Option<string>, role: Option<string>)

  const TokenKey := "token"
  const UserKey := "user"

  /**
   * The user the login page hands to `login` for a successful login reply:
   * the id, e-mail, name and role the backend sent, the role as it came.
   */
  function SessionUser(reply: Accounts.Session): (u: User)
    ensures u.uid == reply.userId && u.email == Some(reply.email) && u.name == Some(reply.name)
    ensures u.role == reply.role
  {
    User(reply.userId, Some(reply.email), Some(reply.name), reply.role)
  }

  /** Local storage: text values under text keys. */
  type Storage = map<string, string>

  // The stored user is text. The model writes it with a self-delimiting
  // encoding (every character of a field preceded by '+', the field closed
  // by '.', an absent field written '~', a present one opened by '!'),
  // which has what the provider relies on: reading back what was written
  // gives the same user, and other text may fail to read.

  function EncodeText(s: string): (r: string)
    ensures r != []
  {
    if s == [] then "." else ['+', s[0]] + EncodeText(s[1..])
  }

  /** Reads one encoded field from the front of `t`, returning it and the rest. */
  function DecodeText(t: string): (r: Option<(string, string)>)
    ensures r.Some? ==> |r.value.1| < |t|
  {
    if t == [] then None
    else if t[0] == '.' then Some(([], t[1..]))
    else if t[0] == '+' && |t| >= 2 then
      match DecodeText(t[2..])
      case None => None
      case Some((s, rest)) => Some(([t[1]] + s, rest))
    else None
  }

  lemma {:induction false} DecodeEncodeText(s: string, rest: string)
    ensures DecodeText(EncodeText(s) + rest) == Some((s, rest))
  {
    if s != [] {
      var t := EncodeText(s) + rest;
      assert t[2..] == EncodeText(s[1..]) + rest;
      DecodeEncodeText(s[1..], rest);
      assert [s[0]] + s[1..] == s;
    }
  }

  function EncodeOption(o: Option<string>): string {
    match o
    case None => "~"
    case Some(s) => "!" + EncodeText(s)
  }

  function DecodeOption(t: string): Option<(Option<string>, string)> {
    if t == [] then None
    else if t[0] == '~' then Some((None, t[1..]))
    else if t[0] == '!' then
      match DecodeText(t[1..])
      case None => None
      case Some((s, rest)) => Some((Some(s), rest))
    else None
  }

  lemma DecodeEncodeOption(o: Option<string>, rest: string)
    ensures DecodeOption(EncodeOption(o) + rest) == Some((o, rest))
  {
    if o.Some? {
      assert (EncodeOption(o) + rest)[1..] == EncodeText(o.value) + rest;
      DecodeEncodeText(o.value, rest);
    } else {
      assert (EncodeOption(o) + rest)[1..] == rest;
    }
  }

  /** `JSON.stringify(user)`. */
  function Serialize(u: User): (r: string)
    ensures r != ""
  {
    EncodeText(u.uid) + EncodeOption(u.email) + EncodeOption(u.name) + EncodeOption(u.role)
  }

  /** `JSON.parse(text)`: a user, or nothing when the text does not read as one. */
  function Parse(t: string): Option<User> {
    match DecodeText(t)
    case None => None
    case Some((uid, r1)) =>
      match DecodeOption(r1)
      case None => None
      case Some((email, r2)) =>
        match DecodeOption(r2)
        case None => None
        case Some((name, r3)) =>
          match DecodeOption(r3)
          case None => None
          case Some((role, r4)) => if r4 == [] then Some(User(uid, email, name, role)) else None
  }

  /** Reading back a stored user gives the same user. */
  lemma ParseSerialize(u: User)
    ensures Parse(Serialize(u)) == Some(u)
  {
    var a, b, c, d := EncodeText(u.uid), EncodeOption(u.email), EncodeOption(u.name), EncodeOption(u.role);
    assert Serialize(u) == a + (b + (c + d));
    DecodeEncodeText(u.uid, b + (c + d));
    DecodeEncodeOption(u.email, c + d);
    DecodeEncodeOption(u.name, d);
    assert d == d + [];
    DecodeEncodeOption(u.role, []);
  }

  /** A stored value counts when it is there and not empty. */
  predicate Stored(s: Storage, key: string) {
    key in s && s[key] != ""
  }

  /** The storage after `login(token, user)`. */
  function StoreLogin(s: Storage, token: string, u: User): Storage {
    s[TokenKey := token][UserKey := Serialize(u)]
  }

  /** The storage after `logout()`. */
  function StoreLogout(s: Storage): Storage {
    s - {TokenKey, UserKey}
  }

  /**
   * What initialisation makes of the storage: the restored user (if any)
   * and the storage afterwards. Both keys must hold text; text that does not
   * read as a user removes both keys.
   */
  function Restore(s: Storage): (r: (Option<User>, Storage))
    ensures r.0.Some? ==> Stored(s, TokenKey) && Stored(s, UserKey) && r.1 == s
    ensures !(Stored(s, TokenKey) && Stored(s, UserKey)) ==> r == (None, s)
    ensures Stored(s, TokenKey) && Stored(s, UserKey) && Parse(s[UserKey]).None? ==> r == (None, StoreLogout(s))
    ensures Stored(s, TokenKey) && Stored(s, UserKey) && Parse(s[UserKey]).Some? ==> r == (Parse(s[UserKey]), s)
  {
    if Stored(s, TokenKey) && Stored(s, UserKey) then
      match Parse(s[UserKey])
      case Some(u) => (Some(u), s)
      case None => (None, StoreLogout(s))
    else (None, s)
  }

  /** A session saved by `login` with a token survives a reload. */
  lemma RestoreAfterLogin(s: Storage, token: string, u: User)
    requires token != ""
    ensures Restore(StoreLogin(s, token, u)) == (Some(u), StoreLogin(s, token, u))
  {
    ParseSerialize(u);
  }

  /** After `logout` a reload finds no session and leaves the storage alone. */
  lemma RestoreAfterLogout(s: Storage)
    ensures Restore(StoreLogout(s)) == (None, StoreLogout(s))
  {
  }

  /** Logging out touches only the two session keys. */
  lemma LogoutKeepsOtherKeys(s: Storage, key: string)
    requires key != TokenKey && key != UserKey
    ensures key in StoreLogout(s) <==> key in s
    ensures key in s ==> StoreLogout(s)[key] == s[key]
  {
  }

  /** The provider: the user in memory, the loading flag and the storage it owns. */
  class AuthProvider {
    var currentUser: Option<User>
    var loading: bool
    var storage: Storage

    /** Mounting: no user yet, loading, the storage as the browser has it. */
    constructor (storage: Storage)
      ensures currentUser == None && loading && this.storage == storage
    {
      currentUser := None;
      loading := true;
      this.storage := storage;
    }

    /** The effect that runs once after mounting, before anyone has signed in. */
    method Initialise()
      requires currentUser == None
      modifies this
      ensures (currentUser, storage) == Restore(old(storage))
      ensures !loading
    {
      if Stored(storage, TokenKey) && Stored(storage, UserKey) {
        var parsed := Parse(storage[UserKey]);
        if parsed.Some? {
          currentUser := parsed;
        } else {
          storage := storage - {TokenKey};
          storage := storage - {UserKey};
          assert storage == StoreLogout(old(storage));
        }
      }
      loading := false;
    }

    method Login(token: string, user: User)
      modifies this
      ensures storage == StoreLogin(old(storage), token, user)
      ensures currentUser == Some(user) && loading == old(loading)
    {
      storage := storage[TokenKey := token];
      storage := storage[UserKey := Serialize(user)];
      currentUser := Some(user);
    }

    method Logout()
      modifies this
      ensures storage == StoreLogout(old(storage))
      ensures currentUser == None && loading == old(loading)
    {
      storage := storage - {TokenKey};
      storage := storage - {UserKey};
      assert storage == StoreLogout(old(storage));
      currentUser := None;
    }
  }

  /** What `useAuth` hands to a component. */
  datatype AuthValue = AuthValue(currentUser: Option<User>, loading: bool)

  /** `useAuth`: the provider's value, or an error outside a provider. */
  function UseAuth(context: Option<AuthValue>): (r: Ext<AuthValue>)
    ensures context.None? <==> r == Fail("useAuth must be used within an AuthProvider")
    ensures context.Some? ==> r == Ok(context.value)
  {
    match context
    case None => Fail("useAuth must be used within an AuthProvider")
    case Some(v) => Ok(v)
  }
}
