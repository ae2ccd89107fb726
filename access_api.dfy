/** Channel access management: src/app/api/access/remove_access/route.ts
    revokes grants and logs one usage-history row; src/app/api/access/user_access/route.ts
    grants access to the users not yet holding it, in one transaction. */
module AccessApi {
  import opened Common
  import opened Store

  type Grants = map<AccessKey, Option<int>>

  // ------------------------------------------------------------------ remove_access

  /** The loop over `userIds`: ids that parse and name a user go to `valid`
      with their lower-cased email; every other entry goes to `invalid` as sent. */
  datatype Partition = Partition(valid: seq<int>, invalid: seq<Json>, emails: seq<string>)

  function Classify(users: map<int, User>, items: seq<Json>): (p: Partition)
    ensures |p.valid| + |p.invalid| == |items|
    ensures |p.emails| == |p.valid|
    ensures forall j :: 0 <= j < |p.valid| ==> p.valid[j] in users && p.emails[j] == Lower(users[p.valid[j]].email)
    decreases |items|
  {
    if items == [] then Partition([], [], [])
    else Place(users, Classify(users, items[..|items| - 1]), items[|items| - 1])
  }

  /** One iteration of the loop: a parsing id of a known user goes to the
      valid list with its lower-cased email, any other entry to the invalid list. */
  function Place(users: map<int, User>, p: Partition, item: Json): Partition {
    var id := ParseInt(item);
    if id.Some? && id.value in users then
      Partition(p.valid + [id.value], p.invalid, p.emails + [Lower(users[id.value].email)])
    else Partition(p.valid, p.invalid + [item], p.emails)
  }

  /** The lists of `p` followed by those of `q`. */
  function Combine(p: Partition, q: Partition): Partition {
    Partition(p.valid + q.valid, p.invalid + q.invalid, p.emails + q.emails)
  }

  lemma PlaceAfter(users: map<int, User>, p: Partition, q: Partition, item: Json)
    ensures Place(users, Combine(p, q), item) == Combine(p, Place(users, q, item))
  {
    var id := ParseInt(item);
    if id.Some? && id.value in users {
      assert (p.valid + q.valid) + [id.value] == p.valid + (q.valid + [id.value]);
      assert (p.emails + q.emails) + [Lower(users[id.value].email)] == p.emails + (q.emails + [Lower(users[id.value].email)]);
    } else {
      assert (p.invalid + q.invalid) + [item] == p.invalid + (q.invalid + [item]);
    }
  }

  /** Each requested entry lands in exactly one of the two lists. */
  lemma {:induction false} ClassifyMembers(users: map<int, User>, items: seq<Json>, i: nat)
    requires i < |items|
    ensures var p, id := Classify(users, items), ParseInt(items[i]);
      if id.Some? && id.value in users then id.value in p.valid else items[i] in p.invalid
    decreases |items|
  {
    if i < |items| - 1 {
      var init := items[..|items| - 1];
      assert init[i] == items[i];
      ClassifyMembers(users, init, i);
    }
  }

  /** Classification keeps the request's order. */
  lemma {:induction false} ClassifyAppend(users: map<int, User>, a: seq<Json>, b: seq<Json>)
    ensures Classify(users, a + b) == Combine(Classify(users, a), Classify(users, b))
    decreases |b|
  {
    var p := Classify(users, a);
    if b == [] {
      assert a + b == a;
      assert p.valid + [] == p.valid && p.invalid + [] == p.invalid && p.emails + [] == p.emails;
    } else {
      var init, last := b[..|b| - 1], b[|b| - 1];
      assert (a + b)[..|a + b| - 1] == a + init;
      assert (a + b)[|a + b| - 1] == last;
      ClassifyAppend(users, a, init);
      PlaceAfter(users, p, Classify(users, init), last);
    }
  }

  /** `accessUserIds`: the valid users holding a grant on the channel. */
  function Holders(grants: Grants, valid: seq<int>, c: int): (h: set<int>)
    ensures forall u :: u in h <==> u in valid && (u, Some(c)) in grants
  {
    set u | u in valid && (u, Some(c)) in grants
  }

  /** `noAccessUserIds`, in request order. */
  function NoAccess(valid: seq<int>, holders: set<int>): (r: seq<int>)
    ensures forall u :: u in r <==> u in valid && u !in holders
  {
    if valid == [] then []
    else (if valid[0] in holders then [] else [valid[0]]) + NoAccess(valid[1..], holders)
  }

  /** The `deleteMany`: the holders' grants on the channel go, every other row stays. */
  function Revoke(grants: Grants, holders: set<int>, c: int): (r: Grants)
    ensures forall k :: k in r <==> k in grants && !(k.0 in holders && k.1 == Some(c))
    ensures forall k :: k in r ==> r[k] == grants[k]
  {
    map k | k in grants && !(k.0 in holders && k.1 == Some(c)) :: grants[k]
  }

  function IdStrings(ids: seq<int>): (r: seq<Json>)
    ensures |r| == |ids|
  {
    seq(|ids|, i requires 0 <= i < |ids| => Str(IntToString(ids[i])))
  }

  /** The log action. The second form is unreachable: a removal happens only
      when some user was valid, and every valid user contributed an email. */
  function RemovalAction(emails: seq<string>, removed: nat, c: int): string {
    if |emails| > 0 then "Removed access for " + Join(emails, ", ") + " from channel " + IntToString(c)
    else "Removed access for " + NatToString(removed) + " user(s) from channel " + IntToString(c) + " (no emails available)"
  }

  /** The usage-history row written with a removal. */
  function RemovalLog(granterEmail: string, p: Partition, c: int, g: int, removed: nat): Usage {
    Usage(granterEmail, RemovalAction(p.emails, removed, c),
          map["userIds" := Arr(IdStrings(p.valid)), "channelId" := Str(IntToString(c)), "grantedBy" := Str(IntToString(g))])
  }

  datatype RemoveReply = RemoveReply(status: nat, removed: nat, noAccess: seq<int>, invalid: seq<Json>)

  function Refused(status: nat): RemoveReply {
    RemoveReply(status, 0, [], [])
  }

  /** The granter when `grantedBy` parses to a known user id. */
  function Granter(users: map<int, User>, grantedBy: Json): (r: Option<int>)
    ensures r.Some? ==> r.value in users
  {
    if Truthy(grantedBy) && ParseInt(grantedBy).Some? && ParseInt(grantedBy).value in users
    then Some(ParseInt(grantedBy).value) else None
  }

  /** The channel when `channelId` parses to a known channel id. */
  function KnownChannel(channels: map<int, Channel>, channelId: Json): Option<int> {
    if Truthy(channelId) && ParseInt(channelId).Some? && ParseInt(channelId).value in channels
    then Some(ParseInt(channelId).value) else None
  }

  predicate NonEmptyArray(v: Json) {
    v.Arr? && |v.items| > 0
  }

  /** `POST` of remove_access, as a reply, the new grants and the new usage history. */
  function Remove(users: map<int, User>, channels: map<int, Channel>, grants: Grants, usage: seq<Usage>,
                  userIds: Json, channelId: Json, grantedBy: Json): (RemoveReply, Grants, seq<Usage>)
  {
    var g := Granter(users, grantedBy);
    if g.None? then (Refused(401), grants, usage)
    else if !NonEmptyArray(userIds) then (Refused(400), grants, usage)
    else
      var c := KnownChannel(channels, channelId);
      if c.None? then (Refused(400), grants, usage)
      else
        var p := Classify(users, userIds.items);
        if p.valid == [] then (Refused(400), grants, usage)
        else
          var holders := Holders(grants, p.valid, c.value);
          if holders == {} then (Refused(404), grants, usage)
          else
            (RemoveReply(200, |holders|, NoAccess(p.valid, holders), p.invalid),
             Revoke(grants, holders, c.value),
             usage + [RemovalLog(Lower(users[g.value].email), p, c.value, g.value, |holders|)])
  }

  /** A refused request changes no grant and writes no log row. */
  lemma RemoveRefusedChangesNothing(users: map<int, User>, channels: map<int, Channel>, grants: Grants, usage: seq<Usage>,
                                    userIds: Json, channelId: Json, grantedBy: Json)
    ensures var out := Remove(users, channels, grants, usage, userIds, channelId, grantedBy);
      out.0.status != 200 ==> out.0.status in {400, 401, 404} && out.1 == grants && out.2 == usage
  {
  }

  /** A successful request removes at least one grant, all of them on the
      requested channel, and leaves every grant on another channel as it was. */
  lemma RemoveSuccessGrants(users: map<int, User>, channels: map<int, Channel>, grants: Grants, usage: seq<Usage>,
                            userIds: Json, channelId: Json, grantedBy: Json)
    requires Remove(users, channels, grants, usage, userIds, channelId, grantedBy).0.status == 200
    ensures var c, grants' := KnownChannel(channels, channelId).value, Remove(users, channels, grants, usage, userIds, channelId, grantedBy).1;
      && (exists k :: k in grants && k.1 == Some(c) && k !in grants')
      && (forall k :: k in grants' ==> k in grants && grants'[k] == grants[k])
      && (forall k :: k in grants && k.1 != Some(c) ==> k in grants')
  {
    var c, p := KnownChannel(channels, channelId).value, Classify(users, userIds.items);
    var holders := Holders(grants, p.valid, c);
    var u :| u in holders;
    assert (u, Some(c)) in grants;
  }

  /** A successful request appends exactly one log row, and its text names
      every valid user, including those who held no grant. */
  lemma RemoveSuccessLog(users: map<int, User>, channels: map<int, Channel>, grants: Grants, usage: seq<Usage>,
                         userIds: Json, channelId: Json, grantedBy: Json)
    requires Remove(users, channels, grants, usage, userIds, channelId, grantedBy).0.status == 200
    ensures var c, p, usage' := KnownChannel(channels, channelId).value, Classify(users, userIds.items),
                                Remove(users, channels, grants, usage, userIds, channelId, grantedBy).2;
      && |usage'| == |usage| + 1 && usage'[..|usage|] == usage
      && usage'[|usage|].action == "Removed access for " + Join(p.emails, ", ") + " from channel " + IntToString(c)
      && |p.emails| == |p.valid| > 0
  {
  }

  /** `POST` of remove_access. */
  method RemoveAccess(db: Database, userIds: Json, channelId: Json, grantedBy: Json) returns (r: RemoveReply)
    modifies db`access, db`usage
    ensures (r, db.access, db.usage) == Remove(db.users, db.channels, old(db.access), old(db.usage), userIds, channelId, grantedBy)
  {
    ghost var expected := Remove(db.users, db.channels, db.access, db.usage, userIds, channelId, grantedBy);
    var g := Granter(db.users, grantedBy);
    if g.None? {
      assert expected == (Refused(401), db.access, db.usage);
      return Refused(401);
    }
    var userEmail := Lower(db.users[g.value].email);
    if !userIds.Arr? || |userIds.items| == 0 {
      assert expected == (Refused(400), db.access, db.usage);
      return Refused(400);
    }
    var c := KnownChannel(db.channels, channelId);
    if c.None? {
      assert expected == (Refused(400), db.access, db.usage);
      return Refused(400);
    }
    var p := ClassifyUsers(db.users, userIds.items);
    if |p.valid| == 0 {
      assert expected == (Refused(400), db.access, db.usage);
      return Refused(400);
    }
    var holders := Holders(db.access, p.valid, c.value);
    if holders == {} {
      assert expected == (Refused(404), db.access, db.usage);
      return Refused(404);
    }
    r := RemoveReply(200, |holders|, NoAccess(p.valid, holders), p.invalid);
    assert expected == (r, Revoke(db.access, holders, c.value), db.usage + [RemovalLog(userEmail, p, c.value, g.value, |holders|)]);
    db.access := Revoke(db.access, holders, c.value);
    db.usage := db.usage + [RemovalLog(userEmail, p, c.value, g.value, |holders|)];
  }

  /** The `for` loop of remove_access. */
  method ClassifyUsers(users: map<int, User>, items: seq<Json>) returns (p: Partition)
    ensures p == Classify(users, items)
  {
    var valid, invalid, emails := [], [], [];
    var i := 0;
    while i < |items|
      invariant 0 <= i <= |items|
      invariant Partition(valid, invalid, emails) == Classify(users, items[..i])
    {
      assert items[..i + 1][..i] == items[..i];
      var id := ParseInt(items[i]);
      if id.None? {
        invalid := invalid + [items[i]];
      } else if id.value in users {
        valid := valid + [id.value];
        emails := emails + [Lower(users[id.value].email)];
      } else {
        invalid := invalid + [items[i]];
      }
      i := i + 1;
    }
    assert items[..i] == items;
    p := Partition(valid, invalid, emails);
  }

  // ------------------------------------------------------------------ user_access

  /** The outcome of the loop over `userIds`: the first entry that does not
      parse (the route answers 400 naming it before creating anything), or the
      entries whose user already holds the grant and the ids to create, both
      in request order. */
  datatype Scheduled = BadEntry(entry: Json) | Split(already: seq<Json>, create: seq<int>)

  function Schedule(grants: Grants, ch: Option<int>, items: seq<Json>): (r: Scheduled)
    ensures r.Split? ==> |r.already| + |r.create| == |items|
    decreases |items|
  {
    if items == [] then Split([], [])
    else ScheduleStep(grants, ch, Schedule(grants, ch, items[..|items| - 1]), items[|items| - 1])
  }

  /** One iteration of the loop: an id that does not parse ends the request,
      a user holding the grant joins `alreadyGranted`, any other is to create. */
  function ScheduleStep(grants: Grants, ch: Option<int>, p: Scheduled, item: Json): Scheduled {
    var id := ParseInt(item);
    if p.BadEntry? then p
    else if id.None? then BadEntry(item)
    else if (id.value, ch) in grants then Split(p.already + [item], p.create)
    else Split(p.already, p.create + [id.value])
  }

  /** The request fails exactly when some id does not parse, and then names
      the first such entry; otherwise the already-granted entries hold the
      grant and the users to create do not. */
  lemma {:induction false} ScheduleMeaning(grants: Grants, ch: Option<int>, items: seq<Json>)
    ensures var r := Schedule(grants, ch, items);
      && (r.BadEntry? <==> exists i :: 0 <= i < |items| && ParseInt(items[i]).None?)
      && (r.BadEntry? ==> exists i :: 0 <= i < |items| && items[i] == r.entry && ParseInt(items[i]).None?
                                      && forall j :: 0 <= j < i ==> ParseInt(items[j]).Some?)
      && (r.Split? ==> forall u :: u in r.create ==> (u, ch) !in grants)
      && (r.Split? ==> forall v :: v in r.already ==> ParseInt(v).Some? && (ParseInt(v).value, ch) in grants)
    decreases |items|
  {
    if items != [] {
      var init, last := items[..|items| - 1], items[|items| - 1];
      ScheduleMeaning(grants, ch, init);
      assert forall i :: 0 <= i < |init| ==> init[i] == items[i];
      if Schedule(grants, ch, init).BadEntry? {
        var i :| 0 <= i < |init| && init[i] == Schedule(grants, ch, init).entry && ParseInt(init[i]).None?
                 && forall j :: 0 <= j < i ==> ParseInt(init[j]).Some?;
        assert items[i] == Schedule(grants, ch, items).entry;
      } else if ParseInt(last).None? {
        assert items[|items| - 1] == Schedule(grants, ch, items).entry;
      }
    }
  }

  /** The users to create hold no grant on the channel. */
  lemma {:induction false} ScheduleFresh(grants: Grants, ch: Option<int>, items: seq<Json>)
    requires Schedule(grants, ch, items).Split?
    ensures var c := Schedule(grants, ch, items).create; forall j :: 0 <= j < |c| ==> (c[j], ch) !in grants
    decreases |items|
  {
    if items != [] {
      ScheduleFresh(grants, ch, items[..|items| - 1]);
    }
  }

  /** Every requested user either already holds the grant or is scheduled. */
  lemma {:induction false} ScheduleCovers(grants: Grants, ch: Option<int>, items: seq<Json>, i: nat)
    requires i < |items| && Schedule(grants, ch, items).Split?
    ensures ParseInt(items[i]).Some?
    ensures (ParseInt(items[i]).value, ch) in grants || ParseInt(items[i]).value in Schedule(grants, ch, items).create
    decreases |items|
  {
    if i < |items| - 1 {
      var init := items[..|items| - 1];
      assert init[i] == items[i];
      ScheduleCovers(grants, ch, init, i);
    }
  }

  predicate HasDuplicates(ids: seq<int>) {
    exists i, j :: 0 <= i < j < |ids| && ids[i] == ids[j]
  }

  /** The created rows: every scheduled user gets a row on the channel
      recording the granter; every other row keeps its value. */
  function Create(grants: Grants, ids: seq<int>, ch: Option<int>, g: Option<int>): (r: Grants)
    ensures forall k :: k in r <==> k in grants || (k.0 in ids && k.1 == ch)
    ensures forall k :: k in r ==> r[k] == (if k.0 in ids && k.1 == ch then g else grants[k])
  {
    if ids == [] then grants else Create(grants, ids[1..], ch, g)[(ids[0], ch) := g]
  }

  /** An optional numeric member: absent (falsy) is `null`, present must parse. */
  function OptionalId(v: Json): Option<Option<int>> {
    if !Truthy(v) then Some(None)
    else if ParseInt(v).None? then None
    else Some(Some(ParseInt(v).value))
  }

  datatype GrantReply = GrantReply(status: nat, message: string)

  function GrantedMessage(created: nat, already: nat): string {
    "Access granted successfully for " + NatToString(created) + " user(s)"
      + (if already > 0 then ". Note: Access already granted for " + NatToString(already) + " user(s)" else "")
  }

  const BadUserIds := "Invalid or empty userIds"
  const BadChannelId := "Invalid channelId"
  const BadGrantedBy := "Invalid grantedBy"
  const Conflict := "Access already exists for one or more users"

  /** The 400 reply for an entry of `userIds` that does not parse names it. */
  function BadUserId(entry: Json): string {
    "Invalid userId: " + JsString(entry)
  }

  function AllGrantedMessage(already: nat): string {
    "Access already granted for " + NatToString(already) + " user(s)"
  }

  /** `POST` of user_access, as a reply and the new grants table. */
  function Grant(grants: Grants, userIds: Json, channelId: Json, grantedBy: Json): (GrantReply, Grants) {
    if !NonEmptyArray(userIds) then (GrantReply(400, BadUserIds), grants)
    else if OptionalId(channelId).None? then (GrantReply(400, BadChannelId), grants)
    else if OptionalId(grantedBy).None? then (GrantReply(400, BadGrantedBy), grants)
    else
      var ch, g := OptionalId(channelId).value, OptionalId(grantedBy).value;
      var s := Schedule(grants, ch, userIds.items);
      if s.BadEntry? then (GrantReply(400, BadUserId(s.entry)), grants)
      else
        var already, create := s.already, s.create;
        if create == [] then (GrantReply(409, AllGrantedMessage(|already|)), grants)
        else if HasDuplicates(create) then (GrantReply(409, Conflict), grants)
        else (GrantReply(201, GrantedMessage(|create|, |already|)), Create(grants, create, ch, g))
  }

  /** A 201 creates, for every user scheduled by the loop, a row recording the granter. */
  lemma GrantCreates(grants: Grants, userIds: Json, channelId: Json, grantedBy: Json)
    requires Grant(grants, userIds, channelId, grantedBy).0.status == 201
    ensures var sched := Schedule(grants, OptionalId(channelId).value, userIds.items);
      sched.Split? && Grant(grants, userIds, channelId, grantedBy).1 ==
        Create(grants, sched.create, OptionalId(channelId).value, OptionalId(grantedBy).value)
  {
  }

  /** After a 201 every requested user holds the grant on the channel: the
      row it held before, or a new row recording the granter. */
  lemma GrantCovers(grants: Grants, userIds: Json, channelId: Json, grantedBy: Json, i: nat)
    requires Grant(grants, userIds, channelId, grantedBy).0.status == 201
    requires i < |userIds.items|
    ensures ParseInt(userIds.items[i]).Some?
    ensures var ch, u := OptionalId(channelId).value, ParseInt(userIds.items[i]).value;
      var after := Grant(grants, userIds, channelId, grantedBy).1;
      (u, ch) in after && after[(u, ch)] == (if (u, ch) in grants then grants[(u, ch)] else OptionalId(grantedBy).value)
  {
    var ch, g := OptionalId(channelId).value, OptionalId(grantedBy).value;
    GrantCreates(grants, userIds, channelId, grantedBy);
    ScheduleCovers(grants, ch, userIds.items, i);
    ScheduleMeaning(grants, ch, userIds.items);
  }

  /** After a 201 every grant that existed before is unchanged. */
  lemma GrantKeepsGrants(grants: Grants, userIds: Json, channelId: Json, grantedBy: Json)
    requires Grant(grants, userIds, channelId, grantedBy).0.status == 201
    ensures var after := Grant(grants, userIds, channelId, grantedBy).1;
      forall k :: k in grants ==> k in after && after[k] == grants[k]
  {
    var ch, g := OptionalId(channelId).value, OptionalId(grantedBy).value;
    GrantCreates(grants, userIds, channelId, grantedBy);
    ScheduleFresh(grants, ch, userIds.items);
    CreateKeeps(grants, Schedule(grants, ch, userIds.items).create, ch, g);
  }

  /** Creating rows only for users without a grant keeps every existing row. */
  lemma CreateKeeps(grants: Grants, ids: seq<int>, ch: Option<int>, g: Option<int>)
    requires forall j :: 0 <= j < |ids| ==> (ids[j], ch) !in grants
    ensures forall k :: k in grants ==> k in Create(grants, ids, ch, g) && Create(grants, ids, ch, g)[k] == grants[k]
  {
  }

  /** An entry that does not parse, after entries that all do, is named in a
      400 reply and nothing is created. */
  lemma GrantNamesBadEntry(grants: Grants, userIds: Json, channelId: Json, grantedBy: Json, i: nat)
    requires NonEmptyArray(userIds) && OptionalId(channelId).Some? && OptionalId(grantedBy).Some?
    requires i < |userIds.items| && ParseInt(userIds.items[i]).None?
    requires forall j :: 0 <= j < i ==> ParseInt(userIds.items[j]).Some?
    ensures Grant(grants, userIds, channelId, grantedBy) == (GrantReply(400, "Invalid userId: " + JsString(userIds.items[i])), grants)
  {
    var items := userIds.items;
    ScheduleMeaning(grants, OptionalId(channelId).value, items);
    var k :| 0 <= k < |items| && items[k] == Schedule(grants, OptionalId(channelId).value, items).entry
             && ParseInt(items[k]).None? && forall j :: 0 <= j < k ==> ParseInt(items[j]).Some?;
    assert k == i;
  }

  /** A request repeating a user who holds no grant schedules the user twice,
      and the unique key turns the batch into a 409 with nothing created. */
  lemma RepeatedUserConflicts(grants: Grants, v: Json, channelId: Json, grantedBy: Json)
    requires OptionalId(channelId).Some? && OptionalId(grantedBy).Some?
    requires ParseInt(v).Some? && (ParseInt(v).value, OptionalId(channelId).value) !in grants
    ensures Grant(grants, Arr([v, v]), channelId, grantedBy) == (GrantReply(409, Conflict), grants)
  {
    var ch, u := OptionalId(channelId).value, ParseInt(v).value;
    var one, items := [v], [v, v];
    assert one[..|one| - 1] == [];
    var s0 := Schedule(grants, ch, []);
    assert s0 == Split([], []);
    var s1 := Schedule(grants, ch, one);
    assert s1 == ScheduleStep(grants, ch, s0, v);
    assert s1 == Split([], [u]);
    assert items[..|items| - 1] == one;
    var s2 := Schedule(grants, ch, items);
    assert s2 == ScheduleStep(grants, ch, s1, v);
    assert s2 == Split([], [u, u]);
    assert HasDuplicates(s2.create) by {
      assert s2.create[0] == s2.create[1];
    }
  }

  /** `POST` of user_access. */
  method GrantAccess(db: Database, userIds: Json, channelId: Json, grantedBy: Json) returns (r: GrantReply)
    modifies db`access
    ensures (r, db.access) == Grant(old(db.access), userIds, channelId, grantedBy)
  {
    ghost var expected := Grant(db.access, userIds, channelId, grantedBy);
    if !userIds.Arr? || |userIds.items| == 0 {
      return GrantReply(400, BadUserIds);
    }
    var ch := OptionalId(channelId);
    if ch.None? {
      return GrantReply(400, BadChannelId);
    }
    var g := OptionalId(grantedBy);
    if g.None? {
      return GrantReply(400, BadGrantedBy);
    }
    var s := ScheduleLoop(db.access, ch.value, userIds.items);
    if s.BadEntry? {
      assert expected == (GrantReply(400, BadUserId(s.entry)), db.access);
      return GrantReply(400, BadUserId(s.entry));
    }
    var already, create := s.already, s.create;
    if |create| == 0 {
      assert expected == (GrantReply(409, AllGrantedMessage(|already|)), db.access);
      return GrantReply(409, AllGrantedMessage(|already|));
    }
    var dup := HasRepeat(create);
    if dup {
      assert expected == (GrantReply(409, Conflict), db.access);
      return GrantReply(409, Conflict);
    }
    r := GrantReply(201, GrantedMessage(|create|, |already|));
    assert expected == (r, Create(db.access, create, ch.value, g.value));
    db.access := Create(db.access, create, ch.value, g.value);
  }

  /** The `for` loop of user_access, returning early on an id that does not parse. */
  method ScheduleLoop(grants: Grants, ch: Option<int>, items: seq<Json>) returns (s: Scheduled)
    ensures s == Schedule(grants, ch, items)
  {
    var already, create := [], [];
    var i := 0;
    while i < |items|
      invariant 0 <= i <= |items|
      invariant Schedule(grants, ch, items[..i]) == Split(already, create)
    {
      assert items[..i + 1][..i] == items[..i] && items[..i + 1][i] == items[i];
      assert Schedule(grants, ch, items[..i + 1]) == ScheduleStep(grants, ch, Split(already, create), items[i]);
      var id := ParseInt(items[i]);
      if id.None? {
        ScheduleFailurePersists(grants, ch, items, i + 1);
        return BadEntry(items[i]);
      }
      if (id.value, ch) in grants {
        already := already + [items[i]];
      } else {
        create := create + [id.value];
      }
      i := i + 1;
    }
    assert items[..i] == items;
    return Split(already, create);
  }

  /** Once a prefix has failed, the whole request fails on the same entry. */
  lemma {:induction false} ScheduleFailurePersists(grants: Grants, ch: Option<int>, items: seq<Json>, n: nat)
    requires n <= |items| && Schedule(grants, ch, items[..n]).BadEntry?
    ensures Schedule(grants, ch, items) == Schedule(grants, ch, items[..n])
    decreases |items|
  {
    if n < |items| {
      var init := items[..|items| - 1];
      assert init[..n] == items[..n];
      ScheduleFailurePersists(grants, ch, init, n);
    } else {
      assert items[..n] == items;
    }
  }

  /** Whether a batch would violate the `(userId, channelId)` unique key. */
  method HasRepeat(ids: seq<int>) returns (found: bool)
    ensures found <==> HasDuplicates(ids)
  {
    var seen: set<int> := {};
    var i := 0;
    while i < |ids|
      invariant 0 <= i <= |ids|
      invariant seen == set j | 0 <= j < i :: ids[j]
      invariant !exists a, b :: 0 <= a < b < i && ids[a] == ids[b]
    {
      if ids[i] in seen {
        return true;
      }
      seen := seen + {ids[i]};
      i := i + 1;
    }
    return false;
  }
}
