/**
 * The account handlers of the backend: registration, login and the public
 * list of doctors. The `users` collection is a sequence of documents keyed
 * by the Firebase Auth uid, in the order the store returns them. Firebase
 * Auth (account creation, password sign-in) and the store's reads and
 * writes are inputs of the model.
 */
module Accounts {
  import opened Wrappers
  import opened Http
  import opened Text
  import opened Seqs

  /**
   * A profile document of the `users` collection. `role`, `specialty` and
   * `experience` are missing from a profile the register page writes to
   * the store itself, without this backend.
   */
  datatype Profile = Profile(
    name: string,
    age: Option<string>,
    gender: Option<string>,
    email: string,
    password: string,
    role: Option<string>,
    specialty: Option<string>,
    experience: Option<string>)

  datatype UserDoc = UserDoc(id: string, profile: Profile)

  /** The body of a registration request; every field may be missing. */
  datatype RegisterRequest = RegisterRequest(
    name: Option<string>,
    age: Option<string>,
    gender: Option<string>,
    email: Option<string>,
    password: Option<string>,
    role: Option<string>,
    specialty: Option<string>,
    experience: Option<string>)

  /** What Firebase's password sign-in returns. */
  datatype Tokens = Tokens(idToken: string, refreshToken: string, localId: string)

  /** The body of a successful registration or login; `role` is missing when the profile has none. */
  datatype Session = Session(
    token: string,
    refreshToken: string,
    userId: string,
    email: string,
    name: string,
    role: Option<string>)

  /** The profile stored under `id`, if there is one: that of the last document with that id. */
  function Get(users: seq<UserDoc>, id: string): (r: Option<Profile>)
    ensures r.Some? <==> exists i :: 0 <= i < |users| && users[i].id == id
    ensures r.Some? ==> UserDoc(id, r.value) in users
    ensures r.Some? ==> exists i :: (0 <= i < |users| && users[i] == UserDoc(id, r.value)
                                     && forall j :: i < j < |users| ==> users[j].id != id)
    decreases |users|
  {
    if users == [] then None
    else if users[|users| - 1].id == id then Some(users[|users| - 1].profile)
    else Get(users[..|users| - 1], id)
  }

  /** Every document with id `id` rewritten to hold `p`. */
  function Replace(users: seq<UserDoc>, id: string, p: Profile): (r: seq<UserDoc>)
    ensures |r| == |users|
    ensures forall i :: 0 <= i < |users| ==> r[i] == if users[i].id == id then UserDoc(id, p) else users[i]
    decreases |users|
  {
    if users == [] then []
    else
      var last := users[|users| - 1];
      Replace(users[..|users| - 1], id, p) + [if last.id == id then UserDoc(id, p) else last]
  }

  /** `doc(id).set(p)`: replaces the document `id`, or adds it at the end. */
  function Put(users: seq<UserDoc>, id: string, p: Profile): (r: seq<UserDoc>)
    ensures UserDoc(id, p) in r
    ensures forall d :: d in r ==> d == UserDoc(id, p) || (d in users && d.id != id)
    ensures forall d :: d in users && d.id != id ==> d in r
  {
    if exists i :: 0 <= i < |users| && users[i].id == id
    then Replace(users, id, p)
    else users + [UserDoc(id, p)]
  }

  lemma {:induction false} GetReplace(users: seq<UserDoc>, id: string, p: Profile, other: string)
    ensures (exists i :: 0 <= i < |users| && users[i].id == id) ==> Get(Replace(users, id, p), id) == Some(p)
    ensures other != id ==> Get(Replace(users, id, p), other) == Get(users, other)
    decreases |users|
  {
    if users != [] {
      var init := users[..|users| - 1];
      var r := Replace(users, id, p);
      assert r[..|r| - 1] == Replace(init, id, p);
      GetReplace(init, id, p, other);
      if users[|users| - 1].id != id && exists i :: 0 <= i < |users| && users[i].id == id {
        var i :| 0 <= i < |users| && users[i].id == id;
        assert init[i].id == id;
      }
    }
  }

  /** After a write, reading the same id gives what was written and every other id reads as before. */
  lemma GetPut(users: seq<UserDoc>, id: string, p: Profile, other: string)
    ensures Get(Put(users, id, p), id) == Some(p)
    ensures other != id ==> Get(Put(users, id, p), other) == Get(users, other)
  {
    if exists i :: 0 <= i < |users| && users[i].id == id {
      GetReplace(users, id, p, other);
    } else {
      var r := users + [UserDoc(id, p)];
      assert r[..|r| - 1] == users;
    }
  }

  /** The fields registration cannot do without. */
  predicate CanRegister(req: RegisterRequest) {
    Present(req.email) && Present(req.password) && Present(req.name)
  }

  /** The role a registration stores and reports: the requested one, or `patient`. */
  function RoleOf(req: RegisterRequest): string {
    OrElse(req.role, "patient")
  }

  /** The profile a valid registration stores. */
  function NewProfile(req: RegisterRequest): Profile
    requires CanRegister(req)
  {
    Profile(req.name.value, req.age, req.gender, req.email.value, req.password.value,
            Some(RoleOf(req)), Some(OrElse(req.specialty, "")), Some(OrElse(req.experience, "")))
  }

  /**
   * `registerUser`. `created` is Firebase Auth's answer to creating the
   * account (its uid), `written` the store's answer to the profile write and
   * `signedIn` the password sign-in that follows.
   */
  function Register(users: seq<UserDoc>, req: RegisterRequest,
                    created: Ext<string>, written: Ext<()>, signedIn: Ext<Tokens>)
    : (r: (seq<UserDoc>, Reply<Session>))
    ensures r.1 == Rejected(400, "Missing required fields") <==> !CanRegister(req)
    ensures !CanRegister(req) || created.Fail? || written.Fail? ==> r.0 == users
    ensures r.1.Sent? <==> CanRegister(req) && created.Ok? && written.Ok? && signedIn.Ok?
    ensures CanRegister(req) && created.Ok? && written.Ok? ==> r.0 == Put(users, created.value, NewProfile(req))
    ensures r.1.Sent? ==>
      && r.1.status == 201
      && r.1.body.userId == created.value && r.1.body.token == signedIn.value.idToken
      && r.1.body.refreshToken == signedIn.value.refreshToken
      && r.1.body.name == req.name.value && r.1.body.email == req.email.value
      && r.1.body.role == Some(RoleOf(req))
    ensures r.1.Rejected? && CanRegister(req) ==> r.1.status == 500
    ensures CanRegister(req) && created.Fail? ==> r.1 == Rejected(500, created.message)
    ensures CanRegister(req) && created.Ok? && written.Fail? ==> r.1 == Rejected(500, written.message)
    ensures CanRegister(req) && created.Ok? && written.Ok? && signedIn.Fail? ==> r.1 == Rejected(500, signedIn.message)
  {
    if !CanRegister(req) then (users, Rejected(400, "Missing required fields"))
    else match created
      case Fail(m) => (users, Rejected(500, m))
      case Ok(uid) =>
        match written
        case Fail(m) => (users, Rejected(500, m))
        case Ok(_) =>
          var stored := Put(users, uid, NewProfile(req));
          match signedIn
          case Fail(m) => (stored, Rejected(500, m))
          case Ok(t) =>
            (stored, Sent(201, Session(t.idToken, t.refreshToken, uid, req.email.value, req.name.value, Some(RoleOf(req)))))
  }

  /**
   * The role a registration reports is the role it stored, `patient` when
   * none was asked for, and the stored specialty and experience default to
   * the empty text.
   */
  lemma RegisteredRoleIsStored(users: seq<UserDoc>, req: RegisterRequest,
                               created: Ext<string>, written: Ext<()>, signedIn: Ext<Tokens>)
    requires Register(users, req, created, written, signedIn).1.Sent?
    ensures var r := Register(users, req, created, written, signedIn);
      var stored := Get(r.0, r.1.body.userId);
      && stored.Some?
      && stored.value.role == r.1.body.role
      && (!Present(req.role) ==> stored.value.role == Some("patient"))
      && (!Present(req.specialty) ==> stored.value.specialty == Some(""))
      && (!Present(req.experience) ==> stored.value.experience == Some(""))
  {
    GetPut(users, created.value, NewProfile(req), created.value);
  }

  /** The body of a login request. */
  datatype LoginRequest = LoginRequest(email: Option<string>, password: Option<string>)

  /**
   * `loginUser`. `signedIn` is the password sign-in; `readOk` is whether
   * reading the profile succeeds. Any failure after validation is reported
   * as invalid credentials. A profile without a role gives a reply without
   * one; only a missing profile gives `patient`.
   */
  function Login(users: seq<UserDoc>, req: LoginRequest, signedIn: Ext<Tokens>, readOk: bool): (r: Reply<Session>)
    ensures r == Rejected(400, "Missing email or password") <==> !Present(req.email) || !Present(req.password)
    ensures r.Sent? <==> Present(req.email) && Present(req.password) && signedIn.Ok? && readOk
    ensures r.Rejected? && Present(req.email) && Present(req.password) ==> r == Rejected(401, "Invalid credentials")
    ensures r.Sent? ==>
      var p := Get(users, signedIn.value.localId);
      && r.status == 200
      && r.body.userId == signedIn.value.localId
      && r.body.token == signedIn.value.idToken
      && r.body.refreshToken == signedIn.value.refreshToken
      && r.body.email == req.email.value
      && r.body.role == (if p.Some? then p.value.role else Some("patient"))
      && r.body.name == (if p.Some? then p.value.name else "")
  {
    if !Present(req.email) || !Present(req.password) then Rejected(400, "Missing email or password")
    else match signedIn
      case Fail(_) => Rejected(401, "Invalid credentials")
      case Ok(t) =>
        if !readOk then Rejected(401, "Invalid credentials")
        else
          var p := Get(users, t.localId);
          var role := if p.Some? then p.value.role else Some("patient");
          var name := if p.Some? then p.value.name else "";
          Sent(200, Session(t.idToken, t.refreshToken, t.localId, req.email.value, name, role))
  }

  /** A registered account logs in with the role and name it registered with. */
  lemma LoginAfterRegister(users: seq<UserDoc>, req: RegisterRequest, created: Ext<string>,
                           written: Ext<()>, signedIn: Ext<Tokens>, login: LoginRequest, again: Ext<Tokens>)
    requires Register(users, req, created, written, signedIn).1.Sent?
    requires Present(login.email) && Present(login.password)
    requires again.Ok? && again.value.localId == created.value
    ensures var reg := Register(users, req, created, written, signedIn);
      var r := Login(reg.0, login, again, true);
      r.Sent? && r.body.role == reg.1.body.role && r.body.name == reg.1.body.name
  {
    GetPut(users, created.value, NewProfile(req), created.value);
  }

  /** An entry of the doctor list: no e-mail, no password, no age. */
  datatype DoctorCard = DoctorCard(id: string, name: string, specialty: string, experience: string, gender: Option<string>)

  predicate IsDoctor(u: UserDoc) {
    u.profile.role == Some("doctor")
  }

  /** The projection of a doctor's profile, with its display defaults. */
  function Card(u: UserDoc): DoctorCard {
    DoctorCard(u.id, u.profile.name,
               OrElse(u.profile.specialty, "General Physician"),
               OrElse(u.profile.experience, "N/A"),
               u.profile.gender)
  }

  /** The doctor list: every user whose role is `doctor`, projected, in store order. */
  function DoctorCards(users: seq<UserDoc>): seq<DoctorCard> {
    Map(Filter(users, IsDoctor), Card)
  }

  /**
   * `getDoctors`: queries the users whose role is `doctor` and pushes the
   * projection of each. `readOk` is whether the query succeeds.
   */
  method GetDoctors(users: seq<UserDoc>, readOk: bool) returns (r: Reply<Listing<DoctorCard>>)
    ensures !readOk ==> r == Rejected(500, "Failed to fetch doctors")
    ensures readOk ==> r.Sent? && r.status == 200 && Counted(r.body) && r.body.data == DoctorCards(users)
  {
    if !readOk {
      return Rejected(500, "Failed to fetch doctors");
    }
    var doctors: seq<DoctorCard> := [];
    var i := 0;
    while i < |users|
      invariant 0 <= i <= |users|
      invariant doctors == DoctorCards(users[..i])
    {
      assert users[..i + 1][..i] == users[..i];
      assert Filter(users[..i + 1], IsDoctor)
        == Filter(users[..i], IsDoctor) + (if IsDoctor(users[i]) then [users[i]] else []);
      if users[i].profile.role == Some("doctor") {
        doctors := doctors + [Card(users[i])];
      }
      i := i + 1;
    }
    assert users[..|users|] == users;
    return Sent(200, Listing(|doctors|, doctors));
  }

  /**
   * Every card in the doctor list comes from a user whose role is `doctor`,
   * every such user has a card, and the defaults fill empty specialty and
   * experience.
   */
  lemma DoctorCardsExact(users: seq<UserDoc>)
    ensures forall c :: c in DoctorCards(users) <==> exists u :: u in users && IsDoctor(u) && c == Card(u)
    ensures forall c :: c in DoctorCards(users) ==> c.specialty != "" && c.experience != ""
  {
    FilterMembers(users, IsDoctor);
    MapMembers(Filter(users, IsDoctor), Card);
  }
}
