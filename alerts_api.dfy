/** The live `POST` of src/app/api/controls/alerts/route.ts: it allocates the
    channel's next entry id and, in one transaction, creates a feed row with
    that id, advances the channel's `lastEntryId` and creates an alert linked
    to the feed. */
module AlertsApi {
  import opened Common
  import opened Store

  /** The request body. When `feedData` is an object, `feedFields[i]` is its
      member `field<i+1>` and positions past its end are absent; any other
      value of `feedData` has no such members, and `feedFields` is then not
      read. `fieldName` is checked but never stored. */
  datatype AlertRequest = AlertRequest(channelId: Json, fieldName: Json, alertDescription: Json,
                                       priority: Json, alertStatus: Json, feedData: Json, feedFields: seq<Json>)

  const FieldCount := 8

  /** `feedData.field<i+1> ?? null` */
  function FeedValue(req: AlertRequest, i: nat): (v: Json)
    ensures v != Undefined
    ensures req.feedData.Obj? && i < |req.feedFields| && !IsNullish(req.feedFields[i]) ==> v == req.feedFields[i]
    ensures !req.feedData.Obj? ==> v == Null
  {
    if req.feedData.Obj? && i < |req.feedFields| then Coalesce(req.feedFields[i], Null) else Null
  }

  function FeedValues(req: AlertRequest): (r: seq<Json>)
    ensures |r| == FieldCount
    ensures forall i :: 0 <= i < FieldCount ==> r[i] == FeedValue(req, i)
  {
    seq(FieldCount, i requires 0 <= i < FieldCount => FeedValue(req, i))
  }

  predicate MissingRequired(req: AlertRequest) {
    !Truthy(req.channelId) || !Truthy(req.fieldName) || !Truthy(req.alertDescription) || !Truthy(req.feedData)
  }

  datatype AlertReply = AlertReply(status: nat, entryId: Option<int>)

  type Channels = map<int, Channel>
  type Feeds = map<int, Feed>

  /** `POST` as a reply and the new channel, feed and alert tables. */
  function Create(channels: Channels, feeds: Feeds, alerts: seq<Alert>, req: AlertRequest): (AlertReply, Channels, Feeds, seq<Alert>)
  {
    if MissingRequired(req) then (AlertReply(400, None), channels, feeds, alerts)
    else if JsonInt(req.channelId).None? then (AlertReply(500, None), channels, feeds, alerts)
    else
      var c := JsonInt(req.channelId).value;
      if c !in channels then (AlertReply(404, None), channels, feeds, alerts)
      else
        var e := channels[c].lastEntryId + 1;
        if e in feeds then (AlertReply(500, None), channels, feeds, alerts)
        else
          (AlertReply(201, Some(e)), channels[c := channels[c].(lastEntryId := e)], feeds[e := Feed(c, FeedValues(req))],
           alerts + [Alert(e, req.alertDescription, OrElse(req.priority, Str("HIGH")), OrElse(req.alertStatus, Str("UNRESOLVED")))])
  }

  /** `POST`: 400 when a required member is missing; 500 when the channel id
      is not an integer the database accepts, or when a feed with the new
      entry id already exists (the transaction is rolled back); 404 for an
      unknown channel; otherwise 201 with entry id `lastEntryId + 1`, the feed
      holding the request's field values, the channel's counter advanced and
      the alert appended with the default priority and status. */
  lemma CreateOutcome(channels: Channels, feeds: Feeds, alerts: seq<Alert>, req: AlertRequest)
    ensures var (r, channels', feeds', alerts') := Create(channels, feeds, alerts, req);
      && (r.status != 201 ==>
            r.entryId.None? && r.status in {400, 404, 500} && channels' == channels && feeds' == feeds && alerts' == alerts)
      && (MissingRequired(req) ==> r.status == 400)
      && (!MissingRequired(req) && JsonInt(req.channelId).None? ==> r.status == 500)
      && (!MissingRequired(req) && JsonInt(req.channelId).Some? && JsonInt(req.channelId).value !in channels ==>
            r.status == 404)
      && (r.status == 201 <==>
            && !MissingRequired(req) && JsonInt(req.channelId).Some? && JsonInt(req.channelId).value in channels
            && channels[JsonInt(req.channelId).value].lastEntryId + 1 !in feeds)
      && (r.status == 201 ==>
            var c := JsonInt(req.channelId).value;
            var e := channels[c].lastEntryId + 1;
            && r.entryId == Some(e)
            && feeds'.Keys == feeds.Keys + {e} && feeds'[e].channelId == c
            && (forall i :: 0 <= i < FieldCount ==> feeds'[e].fields[i] == FeedValue(req, i))
            && (forall k :: k in feeds ==> feeds'[k] == feeds[k])
            && channels'.Keys == channels.Keys && channels'[c].lastEntryId == e
            && (forall k :: k in channels && k != c ==> channels'[k] == channels[k])
            && |alerts'| == |alerts| + 1 && alerts'[..|alerts|] == alerts
            && alerts'[|alerts|].entryId == e && alerts'[|alerts|].description == req.alertDescription
            && (Truthy(req.priority) ==> alerts'[|alerts|].priority == req.priority)
            && (!Truthy(req.priority) ==> alerts'[|alerts|].priority == Str("HIGH"))
            && (Truthy(req.alertStatus) ==> alerts'[|alerts|].status == req.alertStatus)
            && (!Truthy(req.alertStatus) ==> alerts'[|alerts|].status == Str("UNRESOLVED")))
      && (forall k :: k in channels ==> k in channels' && channels'[k].lastEntryId >= channels[k].lastEntryId)
  {
    var (r, channels', feeds', alerts') := Create(channels, feeds, alerts, req);
    if r.status == 201 {
      var e := channels[JsonInt(req.channelId).value].lastEntryId + 1;
      assert alerts'[..|alerts|] == alerts;
      assert feeds'.Keys == feeds.Keys + {e};
    }
  }

  /** Every alert points at an existing feed (the `feed: { connect }` relation). */
  predicate AlertsLinked(feeds: Feeds, alerts: seq<Alert>) {
    forall i :: 0 <= i < |alerts| ==> alerts[i].entryId in feeds
  }

  /** A POST keeps every alert linked to its feed, and the new alert's feed
      belongs to the requested channel. */
  lemma CreateKeepsAlertsLinked(channels: Channels, feeds: Feeds, alerts: seq<Alert>, req: AlertRequest)
    requires AlertsLinked(feeds, alerts)
    ensures var (r, _, feeds', alerts') := Create(channels, feeds, alerts, req);
      && AlertsLinked(feeds', alerts')
      && (r.status == 201 ==> feeds'[alerts'[|alerts'| - 1].entryId].channelId == JsonInt(req.channelId).value)
  {
  }

  /** Two successful alerts on the same channel get consecutive entry ids. */
  lemma SuccessiveAlertsConsecutive(channels: Channels, feeds: Feeds, alerts: seq<Alert>, req1: AlertRequest, req2: AlertRequest)
    requires Create(channels, feeds, alerts, req1).0.status == 201
    requires JsonInt(req2.channelId) == JsonInt(req1.channelId)
    ensures var (r1, c1, f1, a1) := Create(channels, feeds, alerts, req1);
      var r2 := Create(c1, f1, a1, req2).0;
      r2.status == 201 ==> r2.entryId.value == r1.entryId.value + 1
  {
  }

  /** A repeated POST whose next entry id is already taken by a feed is
      refused with 500 and writes nothing. */
  lemma TakenEntryIdRefused(channels: Channels, feeds: Feeds, alerts: seq<Alert>, req: AlertRequest)
    requires !MissingRequired(req) && JsonInt(req.channelId).Some? && JsonInt(req.channelId).value in channels
    requires channels[JsonInt(req.channelId).value].lastEntryId + 1 in feeds
    ensures Create(channels, feeds, alerts, req) == (AlertReply(500, None), channels, feeds, alerts)
  {
  }

  /** `POST` on the database. */
  method Post(db: Database, req: AlertRequest) returns (r: AlertReply)
    modifies db`feeds, db`channels, db`alerts
    ensures (r, db.channels, db.feeds, db.alerts) == Create(old(db.channels), old(db.feeds), old(db.alerts), req)
  {
    if MissingRequired(req) {
      return AlertReply(400, None);
    }
    var channelId := JsonInt(req.channelId);
    if channelId.None? {
      return AlertReply(500, None);
    }
    var c := channelId.value;
    if c !in db.channels {
      return AlertReply(404, None);
    }
    var newEntryId := db.channels[c].lastEntryId + 1;
    if newEntryId in db.feeds {
      return AlertReply(500, None);
    }
    db.feeds := db.feeds[newEntryId := Feed(c, FeedValues(req))];
    db.channels := db.channels[c := db.channels[c].(lastEntryId := newEntryId)];
    db.alerts := db.alerts + [Alert(newEntryId, req.alertDescription, OrElse(req.priority, Str("HIGH")),
                                    OrElse(req.alertStatus, Str("UNRESOLVED")))];
    r := AlertReply(201, Some(newEntryId));
  }
}
