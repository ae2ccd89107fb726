/** The handler of src/app/api/controls/add_channels/route.ts: a signed-in
    user registers a channel together with its API key, optionally attached
    to a lab. */
module ChannelsApi {
  import opened Common
  import opened Store

  /** What `createdAt ? new Date(createdAt) : new Date()` makes of a request
      timestamp: a falsy value gives the current time, any other value a date
      that is either valid or `Invalid Date`. */
  datatype DateInput = Falsy | ValidDate | InvalidDate

  /** The request body. `fields[i]` is `field<i+1>`; positions past its end
      are absent. */
  datatype ChannelRequest = ChannelRequest(id: Json, name: Json, latitude: Json, longitude: Json, lastEntryId: Json,
                                           createdAt: DateInput, updatedAt: DateInput,
                                           fields: seq<Json>, apiKey: Json, labId: Json)

  const FieldCount := 8

  type Channels = map<int, Channel>
  type ApiKeys = map<string, ApiKey>

  predicate MissingRequired(req: ChannelRequest) {
    || !Truthy(req.id) || !Truthy(req.name) || IsNullish(req.latitude) || IsNullish(req.longitude)
    || IsNullish(req.lastEntryId) || !Truthy(req.apiKey)
  }

  /** `typeof id !== 'number' || isNaN(latitude) || isNaN(longitude) || typeof lastEntryId !== 'number'` */
  predicate BadTypes(req: ChannelRequest) {
    !req.id.Num? || NumberOf(req.latitude).None? || NumberOf(req.longitude).None? || !req.lastEntryId.Num?
  }

  /** A timestamp the database refuses to store. */
  predicate BadDates(req: ChannelRequest) {
    req.createdAt == InvalidDate || req.updatedAt == InvalidDate
  }

  predicate BadLabId(req: ChannelRequest) {
    Truthy(req.labId) && (!req.labId.Num? || req.labId.x <= 0.0)
  }

  /** `field<i+1> || null` */
  function FieldValue(req: ChannelRequest, i: nat): (v: Json)
    ensures Truthy(v) || v == Null
    ensures i < |req.fields| && Truthy(req.fields[i]) ==> v == req.fields[i]
  {
    if i < |req.fields| then OrElse(req.fields[i], Null) else Null
  }

  function FieldValues(req: ChannelRequest): (r: seq<Json>)
    ensures |r| == FieldCount
    ensures forall i :: 0 <= i < FieldCount ==> r[i] == FieldValue(req, i)
  {
    seq(FieldCount, i requires 0 <= i < FieldCount => FieldValue(req, i))
  }

  /** The reply status of a request against the current tables; 201 means the
      channel and its key are created. A channel id or lab id that is not an
      integer, an API key that is not a string, a `lastEntryId` that is
      not an integer or a timestamp that is `Invalid Date` is refused by the
      database with 500. */
  function Status(channels: Channels, apiKeys: ApiKeys, labs: set<int>, httpMethod: string, signedIn: bool,
                  req: ChannelRequest): (s: nat)
    ensures s == 201 ==>
      && httpMethod == "POST" && signedIn && !MissingRequired(req) && !BadTypes(req) && !BadLabId(req)
      && IsIntegral(req.id.x) && req.id.x.Floor !in channels
      && req.apiKey.Str? && req.apiKey.s !in apiKeys
      && (Truthy(req.labId) ==> IsIntegral(req.labId.x) && req.labId.x.Floor in labs)
      && IsIntegral(req.lastEntryId.x) && !BadDates(req)
    ensures BadDates(req) ==> s != 201
  {
    if httpMethod != "POST" then 405
    else if !signedIn then 401
    else if MissingRequired(req) then 400
    else if BadTypes(req) then 400
    else if BadLabId(req) then 400
    else if !IsIntegral(req.id.x) then 500
    else if req.id.x.Floor in channels then 409
    else if !req.apiKey.Str? then 500
    else if req.apiKey.s in apiKeys then 409
    else if Truthy(req.labId) && !IsIntegral(req.labId.x) then 500
    else if Truthy(req.labId) && req.labId.x.Floor !in labs then 400
    else if !IsIntegral(req.lastEntryId.x) || BadDates(req) then 500
    else 201
  }

  /** The tables after the request. */
  function Add(channels: Channels, apiKeys: ApiKeys, labs: set<int>, httpMethod: string, signedIn: bool,
               req: ChannelRequest): (nat, Channels, ApiKeys)
  {
    var s := Status(channels, apiKeys, labs, httpMethod, signedIn, req);
    if s != 201 then (s, channels, apiKeys)
    else
      var id := req.id.x.Floor;
      var labId := if Truthy(req.labId) then Some(req.labId.x.Floor) else None;
      (s, channels[id := Channel(req.name, req.latitude, req.longitude, req.lastEntryId.x.Floor, FieldValues(req))],
       apiKeys[req.apiKey.s := ApiKey(id, labId)])
  }

  /** The handler. `signedIn` says that the session has a user id. */
  method AddChannel(db: Database, httpMethod: string, signedIn: bool, req: ChannelRequest) returns (status: nat)
    modifies db`channels, db`apiKeys
    ensures (status, db.channels, db.apiKeys) == Add(old(db.channels), old(db.apiKeys), db.labs, httpMethod, signedIn, req)
  {
    if httpMethod != "POST" {
      return 405;
    }
    if !signedIn {
      return 401;
    }
    if MissingRequired(req) || BadTypes(req) || BadLabId(req) {
      return 400;
    }
    if !IsIntegral(req.id.x) {
      return 500;
    }
    var id := req.id.x.Floor;
    if id in db.channels {
      return 409;
    }
    if !req.apiKey.Str? {
      return 500;
    }
    if req.apiKey.s in db.apiKeys {
      return 409;
    }
    var labId: Option<int> := None;
    if Truthy(req.labId) {
      if !IsIntegral(req.labId.x) {
        return 500;
      }
      if req.labId.x.Floor !in db.labs {
        return 400;
      }
      labId := Some(req.labId.x.Floor);
    }
    if !IsIntegral(req.lastEntryId.x) || BadDates(req) {
      return 500;
    }
    db.channels := db.channels[id := Channel(req.name, req.latitude, req.longitude, req.lastEntryId.x.Floor, FieldValues(req))];
    db.apiKeys := db.apiKeys[req.apiKey.s := ApiKey(id, labId)];
    status := 201;
  }

  // ------------------------------------------------------------------ properties

  /** Every API key names a registered channel, and a key with a lab names a known lab. */
  predicate KeysResolve(channels: Channels, apiKeys: ApiKeys, labs: set<int>) {
    forall k :: k in apiKeys ==>
      apiKeys[k].channelId in channels && (apiKeys[k].labId.Some? ==> apiKeys[k].labId.value in labs)
  }

  /** A refused request changes nothing; an accepted one adds exactly the new
      channel and the new key, overwriting neither an existing channel nor an
      existing key. */
  lemma AddOnlyAdds(channels: Channels, apiKeys: ApiKeys, labs: set<int>, httpMethod: string, signedIn: bool,
                    req: ChannelRequest)
    ensures var (s, c, k) := Add(channels, apiKeys, labs, httpMethod, signedIn, req);
      && (s != 201 ==> c == channels && k == apiKeys)
      && (s == 201 ==>
            && |c.Keys| == |channels.Keys| + 1 && |k.Keys| == |apiKeys.Keys| + 1
            && (forall i :: i in channels ==> i in c && c[i] == channels[i])
            && (forall a :: a in apiKeys ==> a in k && k[a] == apiKeys[a]))
  {
    var (s, c, k) := Add(channels, apiKeys, labs, httpMethod, signedIn, req);
    if s == 201 {
      var id := req.id.x.Floor;
      var labId := if Truthy(req.labId) then Some(req.labId.x.Floor) else None;
      InsertFresh(channels, id, Channel(req.name, req.latitude, req.longitude, req.lastEntryId.x.Floor, FieldValues(req)));
      InsertFresh(apiKeys, req.apiKey.s, ApiKey(id, labId));
    }
  }

  /** Adding an absent key grows a map by one entry and keeps every other entry. */
  lemma InsertFresh<K, V>(m: map<K, V>, key: K, v: V)
    requires key !in m
    ensures |m[key := v].Keys| == |m.Keys| + 1
    ensures forall x :: x in m ==> x in m[key := v] && m[key := v][x] == m[x]
  {
    assert m[key := v].Keys == m.Keys + {key};
  }

  /** The created channel holds the submitted values, and its key points at it. */
  lemma AddStoresRequest(channels: Channels, apiKeys: ApiKeys, labs: set<int>, httpMethod: string, signedIn: bool,
                         req: ChannelRequest)
    requires Status(channels, apiKeys, labs, httpMethod, signedIn, req) == 201
    ensures var (_, c, k) := Add(channels, apiKeys, labs, httpMethod, signedIn, req);
      && req.id.x.Floor in c && req.apiKey.s in k
      && var row := c[req.id.x.Floor];
      && row.name == req.name && row.latitude == req.latitude && row.longitude == req.longitude
      && row.lastEntryId as real == req.lastEntryId.x
      && (forall i :: 0 <= i < |req.fields| && i < FieldCount && Truthy(req.fields[i]) ==> row.fields[i] == req.fields[i])
      && k[req.apiKey.s].channelId as real == req.id.x
      && (k[req.apiKey.s].labId.Some? <==> Truthy(req.labId))
  {
  }

  /** Adding a channel keeps every API key resolving to a channel and lab. */
  lemma AddKeepsKeysResolving(channels: Channels, apiKeys: ApiKeys, labs: set<int>, httpMethod: string, signedIn: bool,
                              req: ChannelRequest)
    requires KeysResolve(channels, apiKeys, labs)
    ensures var (_, c, k) := Add(channels, apiKeys, labs, httpMethod, signedIn, req);
      KeysResolve(c, k, labs)
  {
  }

  /** A request that would be accepted, but for a timestamp that is `Invalid
      Date`, fails with 500 and creates nothing. */
  lemma InvalidDateFails(channels: Channels, apiKeys: ApiKeys, labs: set<int>, httpMethod: string, signedIn: bool,
                         req: ChannelRequest)
    requires Status(channels, apiKeys, labs, httpMethod, signedIn, req.(createdAt := Falsy, updatedAt := Falsy)) == 201
    requires BadDates(req)
    ensures Add(channels, apiKeys, labs, httpMethod, signedIn, req) == (500, channels, apiKeys)
  {
  }

  /** Repeating an accepted request is refused with 409: the channel id is taken. */
  lemma AddTwiceConflicts(channels: Channels, apiKeys: ApiKeys, labs: set<int>, httpMethod: string, signedIn: bool,
                          req: ChannelRequest)
    requires Status(channels, apiKeys, labs, httpMethod, signedIn, req) == 201
    ensures var (_, c, k) := Add(channels, apiKeys, labs, httpMethod, signedIn, req);
      Add(c, k, labs, httpMethod, signedIn, req) == (409, c, k)
  {
  }
}
