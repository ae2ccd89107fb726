/** The user-administration endpoints under src/pages/api/auth/: deactivating
    users, listing users and changing their role, signing up and updating a
    profile. Each handler is a method on the database proved equal to a
    function of the old table; the functions carry the properties. */
module AuthApi {
  import opened Common
  import opened Store

  type Users = map<int, User>

  /** A reply whose message text is part of the behaviour. */
  datatype Reply = Reply(status: nat, message: string)

  /** The ids of a request array, each read by `parse`; `None` when one of
      them does not read as an id. */
  function Ids(items: seq<Json>, parse: Json -> Option<int>): (r: Option<set<int>>)
    ensures r.None? <==> exists i :: 0 <= i < |items| && parse(items[i]).None?
    ensures r.Some? ==> forall id :: id in r.value <==> exists i :: 0 <= i < |items| && parse(items[i]) == Some(id)
  {
    if exists i :: 0 <= i < |items| && parse(items[i]).None? then None
    else Some(set i | 0 <= i < |items| :: parse(items[i]).value)
  }

  /** `updateMany` over the listed ids: each listed user that exists is
      rewritten by `f`; no user is added or removed. */
  function UpdateMany(users: Users, ids: set<int>, f: User -> User): (r: Users)
    ensures r.Keys == users.Keys
    ensures forall id :: id in users && id !in ids ==> r[id] == users[id]
    ensures forall id :: id in users && id in ids ==> r[id] == f(users[id])
  {
    map id | id in users :: if id in ids then f(users[id]) else users[id]
  }

  // ------------------------------------------------------------------ deactivate.ts

  /** The reply status and the table after a deactivation request: 405 for a
      method other than POST, 400 for a missing, non-array or empty id list,
      500 when an id does not parse, 404 when no listed user exists, else 200
      with every listed user's status set to `INACTIVE`. */
  function Deactivate(users: Users, httpMethod: string, userIds: Json): (nat, Users) {
    if httpMethod != "POST" then (405, users)
    else if !userIds.Arr? || userIds.items == [] then (400, users)
    else match Ids(userIds.items, ParseInt)
      case None => (500, users)
      case Some(ids) =>
        if ids * users.Keys == {} then (404, users)
        else (200, UpdateMany(users, ids, (u: User) => u.(status := Inactive)))
  }

  method DeactivateUsers(db: Database, httpMethod: string, userIds: Json) returns (status: nat)
    modifies db`users
    ensures (status, db.users) == Deactivate(old(db.users), httpMethod, userIds)
  {
    if httpMethod != "POST" {
      return 405;
    }
    if !userIds.Arr? || userIds.items == [] {
      return 400;
    }
    var ids := Ids(userIds.items, ParseInt);
    if ids.None? {
      return 500;
    }
    if ids.value * db.users.Keys == {} {
      return 404;
    }
    db.users := UpdateMany(db.users, ids.value, (u: User) => u.(status := Inactive));
    status := 200;
  }

  /** A successful deactivation leaves exactly the listed users inactive and
      every other column as it was; 404 means none of the listed ids exists. */
  lemma DeactivateOutcome(users: Users, userIds: Json, id: int)
    requires userIds.Arr? && userIds.items != [] && Ids(userIds.items, ParseInt).Some?
    ensures var (s, after) := Deactivate(users, "POST", userIds);
      && (s == 404 <==> forall i :: 0 <= i < |userIds.items| ==> ParseInt(userIds.items[i]).value !in users)
      && after.Keys == users.Keys
      && (id in users ==>
            && after[id].status == (if id in Ids(userIds.items, ParseInt).value && s == 200 then Inactive else users[id].status)
            && after[id] == users[id].(status := after[id].status))
  {
    var ids := Ids(userIds.items, ParseInt).value;
    if ids * users.Keys == {} {
      forall i | 0 <= i < |userIds.items|
        ensures ParseInt(userIds.items[i]).value !in users
      {
        var k := ParseInt(userIds.items[i]).value;
        assert k in ids;
        assert k !in ids * users.Keys;
      }
    } else {
      var k :| k in ids * users.Keys;
      var i :| 0 <= i < |userIds.items| && ParseInt(userIds.items[i]) == Some(k);
      assert ParseInt(userIds.items[i]).value in users;
    }
  }

  /** Deactivating the same users twice gives the reply and table of doing it once. */
  lemma DeactivateIdempotent(users: Users, httpMethod: string, userIds: Json)
    ensures var (s, once) := Deactivate(users, httpMethod, userIds);
      Deactivate(once, httpMethod, userIds) == (s, once)
  {
    var (s, once) := Deactivate(users, httpMethod, userIds);
    if s == 200 {
      var ids := Ids(userIds.items, ParseInt).value;
      assert ids * once.Keys == ids * users.Keys;
      var twice := UpdateMany(once, ids, (u: User) => u.(status := Inactive));
      assert twice == once;
    }
  }

  // ------------------------------------------------------------------ users.ts

  /** One row of the user list. */
  datatype UserSummary = UserSummary(email: string, firstName: Json, lastName: Json, organisation: Json, userRole: string)

  /** `GET`: every user with the selected columns. */
  function Summaries(users: Users): (r: map<int, UserSummary>)
    ensures r.Keys == users.Keys
    ensures forall id :: id in r ==>
      && r[id].email == users[id].email && r[id].userRole == users[id].userRole
      && r[id].firstName == Column(users[id], "firstName") && r[id].lastName == Column(users[id], "lastName")
      && r[id].organisation == Column(users[id], "organisation")
  {
    map id | id in users :: UserSummary(users[id].email, Column(users[id], "firstName"), Column(users[id], "lastName"),
                                        Column(users[id], "organisation"), users[id].userRole)
  }

  const MissingIdsOrRole := "Missing user IDs or role"
  const InvalidRole := "Invalid role"
  const RolesFailed := "Failed to update roles"
  const MethodNotAllowed := "Method not allowed"

  function UpdatedMessage(n: nat): string {
    "Updated " + NatToString(n) + " users successfully"
  }

  /** `POST`: 400 for a missing, non-array or empty id list or a missing
      role, 400 for a role outside the four roles, 500 when an id is not an
      integer the database accepts, else 200 with every listed user given the
      role. The message counts the ids sent, not the users changed. */
  function UpdateRoles(users: Users, userIds: Json, role: Json): (Reply, Users) {
    if !userIds.Arr? || !Truthy(role) || userIds.items == [] then (Reply(400, MissingIdsOrRole), users)
    else if !(role.Str? && role.s in Roles) then (Reply(400, InvalidRole), users)
    else match Ids(userIds.items, JsonInt)
      case None => (Reply(500, RolesFailed), users)
      case Some(ids) => (Reply(200, UpdatedMessage(|userIds.items|)), UpdateMany(users, ids, (u: User) => u.(userRole := role.s)))
  }

  /** The handler: `listed` is the `GET` reply body. */
  method HandleUsers(db: Database, httpMethod: string, userIds: Json, role: Json) returns (r: Reply, listed: map<int, UserSummary>)
    modifies db`users
    ensures httpMethod == "GET" ==> r.status == 200 && listed == Summaries(db.users) && db.users == old(db.users)
    ensures httpMethod == "POST" ==> (r, db.users) == UpdateRoles(old(db.users), userIds, role) && listed == map[]
    ensures httpMethod != "GET" && httpMethod != "POST" ==>
      r == Reply(405, MethodNotAllowed) && listed == map[] && db.users == old(db.users)
  {
    listed := map[];
    if httpMethod == "GET" {
      return Reply(200, ""), Summaries(db.users);
    } else if httpMethod == "POST" {
      if !userIds.Arr? || !Truthy(role) || userIds.items == [] {
        return Reply(400, MissingIdsOrRole), listed;
      }
      if !(role.Str? && role.s in Roles) {
        return Reply(400, InvalidRole), listed;
      }
      var ids := Ids(userIds.items, JsonInt);
      if ids.None? {
        return Reply(500, RolesFailed), listed;
      }
      db.users := UpdateMany(db.users, ids.value, (u: User) => u.(userRole := role.s));
      r := Reply(200, UpdatedMessage(|userIds.items|));
    } else {
      r := Reply(405, MethodNotAllowed);
    }
  }

  /** A role update gives each listed user the role and changes nothing else;
      every role in the table stays one of the four roles. */
  lemma UpdateRolesOutcome(users: Users, userIds: Json, role: Json)
    requires RolesValid(users)
    ensures var (r, after) := UpdateRoles(users, userIds, role);
      && RolesValid(after) && after.Keys == users.Keys
      && (r.status == 200 ==>
            && role.Str? && role.s in Roles
            && forall i :: 0 <= i < |userIds.items| && JsonInt(userIds.items[i]).Some? && JsonInt(userIds.items[i]).value in users ==>
                 after[JsonInt(userIds.items[i]).value] == users[JsonInt(userIds.items[i]).value].(userRole := role.s))
      && (r.status != 200 ==> after == users)
  {
    var (r, after) := UpdateRoles(users, userIds, role);
    if r.status == 200 {
      var ids := Ids(userIds.items, JsonInt).value;
      forall i | 0 <= i < |userIds.items| && JsonInt(userIds.items[i]).Some? && JsonInt(userIds.items[i]).value in users
        ensures after[JsonInt(userIds.items[i]).value] == users[JsonInt(userIds.items[i]).value].(userRole := role.s)
      {
        assert JsonInt(userIds.items[i]).value in ids;
      }
    }
  }

  /** Neither deactivation nor a role update touches an email, so the unique
      constraint is never violated by them. */
  lemma UpdateManyKeepsEmails(users: Users, ids: set<int>, f: User -> User)
    requires EmailsUnique(users)
    requires forall u :: f(u).email == u.email
    ensures EmailsUnique(UpdateMany(users, ids, f))
  {
    var after := UpdateMany(users, ids, f);
    forall a, b | a in after && b in after && after[a].email == after[b].email
      ensures a == b
    {
      assert after[a].email == users[a].email && after[b].email == users[b].email;
    }
  }

  // ------------------------------------------------------------------ signup.ts

  datatype SignUpRequest = SignUpRequest(email: Json, password: Json, firstName: Json, lastName: Json,
                                         organisation: Json, avatar: Json)

  const DefaultAvatar := "https://example.com/default-avatar.png"
  const MethodNotAllowedCaps := "Method Not Allowed"
  const MissingRequiredFields := "Missing required fields"
  const UserExists := "User already exists"
  const InternalServerError := "Internal Server Error"
  const UserCreated := "User created successfully"

  /** The created row; an absent last name is stored as null. */
  function NewUser(req: SignUpRequest): User
    requires req.email.Str?
  {
    User(req.email.s, req.password, "STANDARD_USER", Active,
         map["firstName" := req.firstName, "lastName" := Coalesce(req.lastName, Null),
             "organisation" := req.organisation, "avatar" := OrElse(req.avatar, Str(DefaultAvatar))])
  }

  /** The reply and the table after a sign-up request; `newId` is the id the
      database assigns. */
  function SignUp(users: Users, httpMethod: string, req: SignUpRequest, newId: int): (Reply, Users)
    requires newId !in users
  {
    if httpMethod == "OPTIONS" then (Reply(200, ""), users)
    else if httpMethod != "POST" then (Reply(405, MethodNotAllowedCaps), users)
    else if !Truthy(req.email) || !Truthy(req.password) || !Truthy(req.firstName) || !Truthy(req.organisation) then
      (Reply(400, MissingRequiredFields), users)
    else if !req.email.Str? then (Reply(500, InternalServerError), users)
    else if EmailTaken(users, req.email.s) then (Reply(400, UserExists), users)
    else (Reply(201, UserCreated), users[newId := NewUser(req)])
  }

  method HandleSignUp(db: Database, httpMethod: string, req: SignUpRequest, newId: int) returns (r: Reply)
    requires newId !in db.users
    modifies db`users
    ensures (r, db.users) == SignUp(old(db.users), httpMethod, req, newId)
  {
    if httpMethod == "OPTIONS" {
      return Reply(200, "");
    }
    if httpMethod != "POST" {
      return Reply(405, MethodNotAllowedCaps);
    }
    if !Truthy(req.email) || !Truthy(req.password) || !Truthy(req.firstName) || !Truthy(req.organisation) {
      return Reply(400, MissingRequiredFields);
    }
    if !req.email.Str? {
      return Reply(500, InternalServerError);
    }
    if EmailTaken(db.users, req.email.s) {
      return Reply(400, UserExists);
    }
    db.users := db.users[newId := NewUser(req)];
    r := Reply(201, UserCreated);
  }

  /** A created account is an active standard user holding the submitted
      email and password, with the default avatar when none was given; the
      table keeps unique emails and valid roles. */
  lemma SignUpOutcome(users: Users, httpMethod: string, req: SignUpRequest, newId: int)
    requires newId !in users && EmailsUnique(users) && RolesValid(users)
    ensures var (r, after) := SignUp(users, httpMethod, req, newId);
      && EmailsUnique(after) && RolesValid(after)
      && (r.status == 201 <==>
            && httpMethod == "POST" && Truthy(req.email) && Truthy(req.password) && Truthy(req.firstName)
            && Truthy(req.organisation) && req.email.Str? && !EmailTaken(users, req.email.s))
      && (r.status == 201 ==>
            && after.Keys == users.Keys + {newId}
            && after[newId].email == req.email.s && after[newId].password == req.password
            && after[newId].userRole == "STANDARD_USER" && after[newId].status == Active
            && (!Truthy(req.avatar) ==> Column(after[newId], "avatar") == Str(DefaultAvatar)))
      && (r.status != 201 ==> after == users)
  {
  }

  /** Signing up twice with one email: the second attempt is refused. */
  lemma SignUpTwiceRefused(users: Users, req: SignUpRequest, id1: int, id2: int)
    requires id1 !in users && id2 !in users && id1 != id2
    requires SignUp(users, "POST", req, id1).0.status == 201
    ensures var after := SignUp(users, "POST", req, id1).1;
      SignUp(after, "POST", req, id2) == (Reply(400, UserExists), after)
  {
    var after := SignUp(users, "POST", req, id1).1;
    assert after[id1].email == req.email.s;
  }

  // ------------------------------------------------------------------ updateProfile.ts

  /** The optional profile columns the request may set, besides `email`. */
  const ProfileColumns: set<string> := {"firstName", "lastName", "phoneNumber", "addressLine1", "addressLine2",
                                        "city", "county", "postcode", "specialisation", "description"}

  /** `updateData` without `email`: each profile column present in the body. */
  function Updates(body: map<string, Json>): (r: map<string, Json>)
    ensures forall k :: k in r <==> k in ProfileColumns && Member(body, k) != Undefined
    ensures forall k :: k in r ==> k in body && r[k] == body[k]
  {
    map k | k in body && k in ProfileColumns && body[k] != Undefined :: body[k]
  }

  /** The status and the table after a profile update: 405 for a method
      other than POST, 400 when `userId` does not parse, 500 for an unknown
      user or an email the database refuses (not a string, or another
      user's), else 200 with the present columns overwritten. */
  function UpdateProfile(users: Users, httpMethod: string, body: map<string, Json>): (nat, Users) {
    if httpMethod != "POST" then (405, users)
    else match ParseInt(Member(body, "userId"))
      case None => (400, users)
      case Some(id) =>
        if id !in users then (500, users)
        else
          var email := Member(body, "email");
          if email != Undefined && (!email.Str? || exists other :: other in users && other != id && users[other].email == email.s)
          then (500, users)
          else
            var u := users[id];
            (200, users[id := u.(email := if email.Str? then email.s else u.email, columns := u.columns + Updates(body))])
  }

  method HandleUpdateProfile(db: Database, httpMethod: string, body: map<string, Json>) returns (status: nat)
    modifies db`users
    ensures (status, db.users) == UpdateProfile(old(db.users), httpMethod, body)
  {
    if httpMethod != "POST" {
      return 405;
    }
    var userId := ParseInt(Member(body, "userId"));
    if userId.None? {
      return 400;
    }
    var id := userId.value;
    if id !in db.users {
      return 500;
    }
    var email := Member(body, "email");
    if email != Undefined && (!email.Str? || exists other :: other in db.users && other != id && db.users[other].email == email.s) {
      return 500;
    }
    var u := db.users[id];
    db.users := db.users[id := u.(email := if email.Str? then email.s else u.email, columns := u.columns + Updates(body))];
    status := 200;
  }

  /** A profile update changes only the addressed user, only the columns
      present in the body (each to the value sent), never a role, status or
      password, and keeps emails unique. */
  lemma UpdateProfileOutcome(users: Users, httpMethod: string, body: map<string, Json>, id: int, column: string)
    requires EmailsUnique(users)
    ensures var (s, after) := UpdateProfile(users, httpMethod, body);
      && EmailsUnique(after) && after.Keys == users.Keys
      && (s != 200 ==> after == users)
      && (id in users && (s != 200 || ParseInt(Member(body, "userId")) != Some(id)) ==> after[id] == users[id])
      && (id in users ==>
            && after[id].userRole == users[id].userRole && after[id].status == users[id].status
            && after[id].password == users[id].password)
      && (s == 200 && ParseInt(Member(body, "userId")) == Some(id) ==>
            && after[id].email == (if Member(body, "email").Str? then Member(body, "email").s else users[id].email)
            && Column(after[id], column) ==
                 (if column in ProfileColumns && Member(body, column) != Undefined then Member(body, column)
                  else Column(users[id], column)))
  {
    var (s, after) := UpdateProfile(users, httpMethod, body);
    if s == 200 {
      var target := ParseInt(Member(body, "userId")).value;
      forall a, b | a in after && b in after && after[a].email == after[b].email
        ensures a == b
      {
        if a != target && b != target {
          assert after[a] == users[a] && after[b] == users[b];
        }
      }
    }
  }
}
