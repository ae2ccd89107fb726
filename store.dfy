/** The database tables the API routes read and write, as one object whose
    fields are the tables. Rows keep only the columns the routes touch;
    timestamps are left out. A column that the routes only copy from the
    request is kept as the JSON value received. */
module Store {
  import opened Common

  /** A user row. `email` is unique and is the key the sign-in and sign-up
      lookups use; `columns` holds the profile columns by name
      (`firstName`, `lastName`, `organisation`, `avatar`, `phoneNumber`, ...). */
  datatype User = User(email: string, password: Json, userRole: string, status: string, columns: map<string, Json>)

  /** The roles a user can hold: the role update accepts exactly these and sign-up assigns `STANDARD_USER`. */
  const Roles: set<string> := {"ADMIN", "STANDARD_USER", "SUPER_USER", "TEMPORARY_USER"}

  const Active := "ACTIVE"
  const Inactive := "INACTIVE"

  /** The unique constraint on `email`. */
  predicate EmailsUnique(users: map<int, User>) {
    forall a, b :: a in users && b in users && users[a].email == users[b].email ==> a == b
  }

  predicate EmailTaken(users: map<int, User>, email: string) {
    exists id :: id in users && users[id].email == email
  }

  predicate RolesValid(users: map<int, User>) {
    forall id :: id in users ==> users[id].userRole in Roles
  }

  /** A profile column as the database returns it: null when never set. */
  function Column(u: User, name: string): Json {
    if name in u.columns then u.columns[name] else Null
  }

  datatype Channel = Channel(name: Json, latitude: Json, longitude: Json, lastEntryId: int, fields: seq<Json>)

  /** A feed row; the table is keyed by `entryId`, which is unique. */
  datatype Feed = Feed(channelId: int, fields: seq<Json>)

  datatype Alert = Alert(entryId: int, description: Json, priority: Json, status: Json)

  /** An API key row; the table is keyed by the key text, which is unique. */
  datatype ApiKey = ApiKey(channelId: int, labId: Option<int>)

  /** A threshold row; the table is keyed by `(channelId, fieldName)`. */
  datatype Threshold = Threshold(minValue: real, maxValue: real, unit: Option<string>)

  /** An access grant; the table is keyed by `(userId, channelId)` and maps to `grantedBy`. */
  type AccessKey = (int, Option<int>)

  /** A usage-history row. */
  datatype Usage = Usage(userEmail: string, action: string, metadata: map<string, Json>)

  class Database {
    var users: map<int, User>
    var channels: map<int, Channel>
    var feeds: map<int, Feed>
    var alerts: seq<Alert>
    var apiKeys: map<string, ApiKey>
    var labs: set<int>
    var thresholds: map<(int, string), Threshold>
    var access: map<AccessKey, Option<int>>
    var usage: seq<Usage>

    constructor ()
      ensures users == map[] && channels == map[] && feeds == map[] && alerts == []
      ensures apiKeys == map[] && labs == {} && thresholds == map[] && access == map[] && usage == []
    {
      users := map[];
      channels := map[];
      feeds := map[];
      alerts := [];
      apiKeys := map[];
      labs := {};
      thresholds := map[];
      access := map[];
      usage := [];
    }
  }
}
