/** The credentials sign-in of src/lib/authOptions.ts: `authorize` checks an
    email and password against the user table and logs the sign-in; the
    `jwt` callback copies the signed-in user into the token and the
    `session` callback copies the token into the session's user. */
module AuthOptions {
  import opened Common
  import opened Store
  import AuthApi

  type Users = map<int, User>

  /** The user object `authorize` returns. */
  datatype AuthUser = AuthUser(id: string, email: string, firstName: Json, lastName: Json, organisation: Json,
                               avatar: Json, userRole: string, status: string)

  const LoggedIn := "Logged in"

  /** `findUnique({ where: { email } })`. */
  function FindByEmail(users: Users, email: string): (r: Option<int>)
    requires EmailsUnique(users)
    ensures r.None? <==> !EmailTaken(users, email)
    ensures r.Some? ==> r.value in users && users[r.value].email == email
  {
    if EmailTaken(users, email) then
      var id :| id in users && users[id].email == email;
      Some(id)
    else None
  }

  /** The returned object: the id as a string, missing profile columns as "". */
  function SignedIn(id: int, u: User): AuthUser {
    AuthUser(IntToString(id), u.email, OrElse(Column(u, "firstName"), Str("")), OrElse(Column(u, "lastName"), Str("")),
             OrElse(Column(u, "organisation"), Str("")), OrElse(Column(u, "avatar"), Str("")), u.userRole, u.status)
  }

  /** The result and the usage history after `authorize`. An empty email or
      password stands for a missing one. */
  function Authorize(users: Users, usage: seq<Usage>, email: string, password: string): (Option<AuthUser>, seq<Usage>)
    requires EmailsUnique(users)
  {
    if email == "" || password == "" then (None, usage)
    else match FindByEmail(users, email)
      case None => (None, usage)
      case Some(id) =>
        var u := users[id];
        if u.password != Str(password) then (None, usage)
        else if u.status != Active then (None, usage)
        else (Some(SignedIn(id, u)), usage + [Usage(u.email, LoggedIn, map[])])
  }

  method HandleAuthorize(db: Database, email: string, password: string) returns (r: Option<AuthUser>)
    requires EmailsUnique(db.users)
    modifies db`usage
    ensures (r, db.usage) == Authorize(db.users, old(db.usage), email, password)
  {
    if email == "" || password == "" {
      return None;
    }
    var found := FindByEmail(db.users, email);
    if found.None? {
      return None;
    }
    var u := db.users[found.value];
    if u.password != Str(password) {
      return None;
    }
    if u.status != Active {
      return None;
    }
    db.usage := db.usage + [Usage(u.email, LoggedIn, map[])];
    r := Some(SignedIn(found.value, u));
  }

  /** Sign-in succeeds exactly for an active user whose stored password is
      the one given; a success appends one "Logged in" row for that email and
      returns that user's id and role, a failure logs nothing. */
  lemma AuthorizeOutcome(users: Users, usage: seq<Usage>, email: string, password: string, id: int)
    requires EmailsUnique(users) && id in users && users[id].email == email
    ensures var (r, after) := Authorize(users, usage, email, password);
      && (r.Some? <==> password != "" && email != "" && users[id].password == Str(password) && users[id].status == Active)
      && (r.Some? ==>
            && after == usage + [Usage(email, LoggedIn, map[])]
            && r.value.id == IntToString(id) && r.value.email == email && r.value.userRole == users[id].userRole
            && r.value.status == Active)
      && (r.None? ==> after == usage)
  {
  }

  /** An email that no user holds never signs in. */
  lemma UnknownEmailRefused(users: Users, usage: seq<Usage>, email: string, password: string)
    requires EmailsUnique(users) && !EmailTaken(users, email)
    ensures Authorize(users, usage, email, password) == (None, usage)
  {
  }

  /** After a successful deactivation, no listed user can sign in, whatever
      the password. */
  lemma DeactivatedUserRefused(users: Users, usage: seq<Usage>, userIds: Json, id: int, password: string)
    requires EmailsUnique(users) && id in users
    requires AuthApi.Deactivate(users, "POST", userIds).0 == 200
    requires exists i :: 0 <= i < |userIds.items| && ParseInt(userIds.items[i]) == Some(id)
    ensures var after := AuthApi.Deactivate(users, "POST", userIds).1;
      EmailsUnique(after) && Authorize(after, usage, users[id].email, password) == (None, usage)
  {
    var ids := AuthApi.Ids(userIds.items, ParseInt).value;
    AuthApi.UpdateManyKeepsEmails(users, ids, (u: User) => u.(status := Inactive));
    var after := AuthApi.Deactivate(users, "POST", userIds).1;
    assert id in ids;
    assert after[id].status == Inactive && after[id].email == users[id].email;
    AuthorizeOutcome(after, usage, users[id].email, password, id);
  }

  // ------------------------------------------------------------------ callbacks

  /** A token, a user object and a session's user, as objects keyed by member name. */
  type Object = map<string, Json>

  /** The user object `authorize` hands to the `jwt` callback. */
  function AsObject(u: AuthUser): Object {
    map["id" := Str(u.id), "email" := Str(u.email), "firstName" := u.firstName, "lastName" := u.lastName,
        "organisation" := u.organisation, "avatar" := u.avatar, "userRole" := Str(u.userRole), "status" := Str(u.status)]
  }

  /** A member of the user object, or null when the key is absent (`"k" in user ? user.k : null`). */
  function OrNull(user: Object, key: string): Json {
    if key in user then user[key] else Null
  }

  /** The `jwt` callback: without a user the token is returned unchanged. */
  function Jwt(token: Object, user: Option<Object>): (r: Object)
  {
    if user.None? then token
    else
      var u := user.value;
      var t := token["id" := Member(u, "id")]["email" := Member(u, "email")]["firstName" := Member(u, "firstName")]
                    ["lastName" := OrNull(u, "lastName")]["organisation" := OrNull(u, "organisation")]
                    ["avatar" := OrNull(u, "avatar")];
      var t' := if "userRole" in u then t["userRole" := u["userRole"]] else t;
      if "status" in u then t'["status" := u["status"]] else t'
  }

  /** The members the `session` callback copies. */
  const SessionKeys: set<string> := {"id", "email", "firstName", "lastName", "organisation", "avatar", "userRole", "status"}

  /** The `session` callback: the session's user takes these members from the token. */
  function SessionUser(token: Object): (r: Object)
    ensures r.Keys == SessionKeys
    ensures forall k :: k in r ==> r[k] == Member(token, k)
  {
    map k | k in SessionKeys :: Member(token, k)
  }

  /** The token keeps the previous role and status when the user object has
      none, and takes null for a missing last name, organisation or avatar. */
  lemma JwtFields(token: Object, user: Object)
    ensures var r := Jwt(token, Some(user));
      && r["id"] == Member(user, "id") && r["email"] == Member(user, "email")
      && r["firstName"] == Member(user, "firstName")
      && r["lastName"] == OrNull(user, "lastName") && r["organisation"] == OrNull(user, "organisation")
      && r["avatar"] == OrNull(user, "avatar")
      && Member(r, "userRole") == (if "userRole" in user then user["userRole"] else Member(token, "userRole"))
      && Member(r, "status") == (if "status" in user then user["status"] else Member(token, "status"))
      && (forall k :: k in token && k !in SessionKeys ==> k in r && r[k] == token[k])
  {
  }

  /** The session built after a sign-in holds exactly the user `authorize`
      returned, whatever the token held before. */
  lemma SessionOfSignIn(token: Object, u: AuthUser)
    ensures SessionUser(Jwt(token, Some(AsObject(u)))) == AsObject(u)
  {
    var r := SessionUser(Jwt(token, Some(AsObject(u))));
    assert r.Keys == AsObject(u).Keys;
  }

  /** A signed-in user's session role is a role the table holds, so one of
      the four roles. */
  lemma SessionRoleValid(users: Users, usage: seq<Usage>, email: string, password: string, token: Object)
    requires EmailsUnique(users) && RolesValid(users)
    requires Authorize(users, usage, email, password).0.Some?
    ensures var u := Authorize(users, usage, email, password).0.value;
      var session := SessionUser(Jwt(token, Some(AsObject(u))));
      session["userRole"].Str? && session["userRole"].s in Roles
  {
    var u := Authorize(users, usage, email, password).0.value;
    SessionOfSignIn(token, u);
  }
}
