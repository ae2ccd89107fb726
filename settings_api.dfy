/** The per-channel thresholds API of src/app/api/controls/settings/route.ts.
    GET lists one channel's thresholds; POST validates the submitted list,
    deletes the channel's thresholds whose field name was not submitted and
    upserts the submitted ones. */
module SettingsApi {
  import opened Common
  import opened Store

  /** One element of the posted `thresholds` array. */
  datatype ThresholdInput = ThresholdInput(fieldName: Json, minValue: Json, maxValue: Json, unit: Json)

  /** The posted `thresholds` member: an array of objects, or any other value. */
  datatype ThresholdsArg = Items(items: seq<ThresholdInput>) | Other(value: Json)

  type Table = map<(int, string), Threshold>

  // ------------------------------------------------------------------ GET

  /** The `channelId` query parameter as `Number()` reads it, or `None` when
      it is missing, empty or NaN. */
  function QueryChannel(channelId: Option<string>): Option<real> {
    if channelId.None? || channelId.value == "" then None else StringToNumber(channelId.value)
  }

  /** One channel's thresholds by field name. */
  function ChannelThresholds(t: Table, c: int): (r: map<string, Threshold>)
    ensures forall n :: n in r <==> (c, n) in t
    ensures forall n :: n in r ==> r[n] == t[(c, n)]
  {
    map n | n in (set k | k in t && k.0 == c :: k.1) && (c, n) in t :: t[(c, n)]
  }

  datatype GetReply = GetReply(status: nat, thresholds: map<string, Threshold>)

  /** `GET`: 400 for a missing or non-numeric channel id, 500 when the number
      is not an integer the database accepts, else that channel's thresholds. */
  method Get(db: Database, channelId: Option<string>) returns (r: GetReply)
    ensures QueryChannel(channelId).None? ==> r == GetReply(400, map[])
    ensures QueryChannel(channelId).Some? && !IsIntegral(QueryChannel(channelId).value) ==> r == GetReply(500, map[])
    ensures QueryChannel(channelId).Some? && IsIntegral(QueryChannel(channelId).value) ==>
      r == GetReply(200, ChannelThresholds(db.thresholds, QueryChannel(channelId).value.Floor))
  {
    var c := QueryChannel(channelId);
    if c.None? {
      return GetReply(400, map[]);
    }
    if !IsIntegral(c.value) {
      return GetReply(500, map[]);
    }
    return GetReply(200, ChannelThresholds(db.thresholds, c.value.Floor));
  }

  // ------------------------------------------------------------------ POST

  /** The filter that rejects a threshold: no field name, a bound `Number()`
      cannot read, or min not below max. */
  predicate Invalid(t: ThresholdInput) {
    var min, max := NumberOf(t.minValue), NumberOf(t.maxValue);
    !Truthy(t.fieldName) || min.None? || max.None? || min.value >= max.value
  }

  /** Whether the request is refused with 400 before the table is read. */
  predicate Rejected(channelId: Json, thresholds: ThresholdsArg) {
    || !Truthy(channelId) || NumberOf(channelId).None?
    || thresholds.Other?
    || exists i :: 0 <= i < |thresholds.items| && Invalid(thresholds.items[i])
  }

  /** A threshold the database accepts: a string name and a string or falsy unit. */
  predicate WellTyped(t: ThresholdInput) {
    t.fieldName.Str? && (!Truthy(t.unit) || t.unit.Str?)
  }

  predicate AllWellTyped(items: seq<ThresholdInput>) {
    forall i :: 0 <= i < |items| ==> WellTyped(items[i])
  }

  /** `submittedFieldNames`, as the string names `includes` can match. */
  function Names(items: seq<ThresholdInput>): (r: set<string>)
    ensures forall n :: n in r <==> exists i :: 0 <= i < |items| && items[i].fieldName == Str(n)
    decreases |items|
  {
    if items == [] then {}
    else
      var init, last := items[..|items| - 1], items[|items| - 1];
      assert forall i :: 0 <= i < |init| ==> init[i] == items[i];
      Names(init) + (if last.fieldName.Str? then {last.fieldName.s} else {})
  }

  /** The stored row for a validated threshold; unit is null when falsy. */
  function RowOf(t: ThresholdInput): Threshold {
    Threshold(NumberOf(t.minValue).GetOr(0.0), NumberOf(t.maxValue).GetOr(0.0),
              if t.unit.Str? && t.unit.s != "" then Some(t.unit.s) else None)
  }

  /** `deleteMany` of the channel's rows whose name was not submitted. */
  function DeleteMissing(t: Table, c: int, names: set<string>): (r: Table)
    ensures forall k :: k in r <==> k in t && (k.0 != c || k.1 in names)
    ensures forall k :: k in r ==> r[k] == t[k]
  {
    map k | k in t && (k.0 != c || k.1 in names) :: t[k]
  }

  /** One `upsert`; a threshold the database rejects writes nothing. */
  function UpsertOne(t: Table, c: int, item: ThresholdInput): Table {
    if WellTyped(item) then t[(c, item.fieldName.s) := RowOf(item)] else t
  }

  /** The upserts, applied in array order. */
  function Upserts(t: Table, c: int, items: seq<ThresholdInput>): Table
    decreases |items|
  {
    if items == [] then t
    else UpsertOne(Upserts(t, c, items[..|items| - 1]), c, items[|items| - 1])
  }

  /** The table after a POST that passed validation. */
  function Reconciled(t: Table, c: int, items: seq<ThresholdInput>): Table {
    Upserts(DeleteMissing(t, c, Names(items)), c, items)
  }

  /** `POST`: 400 and no change for a bad channel id, a non-array list or an
      invalid threshold; 500 and no change for a non-integer channel id;
      otherwise the table is reconciled, and the reply is 200 unless the
      database rejected one of the upserts. */
  method Post(db: Database, channelId: Json, thresholds: ThresholdsArg) returns (status: nat)
    modifies db`thresholds
    ensures Rejected(channelId, thresholds) ==> status == 400 && db.thresholds == old(db.thresholds)
    ensures !Rejected(channelId, thresholds) && !IsIntegral(NumberOf(channelId).value) ==>
      status == 500 && db.thresholds == old(db.thresholds)
    ensures !Rejected(channelId, thresholds) && IsIntegral(NumberOf(channelId).value) ==>
      && db.thresholds == Reconciled(old(db.thresholds), NumberOf(channelId).value.Floor, thresholds.items)
      && (status == 200 <==> AllWellTyped(thresholds.items))
      && (status != 200 ==> status == 500)
  {
    if !Truthy(channelId) || NumberOf(channelId).None? {
      return 400;
    }
    if thresholds.Other? {
      return 400;
    }
    var items := thresholds.items;
    var invalid := AnyInvalid(items);
    if invalid {
      return 400;
    }
    var x := NumberOf(channelId).value;
    if !IsIntegral(x) {
      return 500;
    }
    var c := x.Floor;
    db.thresholds := DeleteMissing(db.thresholds, c, Names(items));
    var ok := UpsertAll(db, c, items);
    status := if ok then 200 else 500;
  }

  /** The validation filter, stopping at the first invalid threshold. */
  method AnyInvalid(items: seq<ThresholdInput>) returns (found: bool)
    ensures found <==> exists i :: 0 <= i < |items| && Invalid(items[i])
  {
    var i := 0;
    while i < |items|
      invariant 0 <= i <= |items|
      invariant forall j :: 0 <= j < i ==> !Invalid(items[j])
    {
      if Invalid(items[i]) {
        return true;
      }
      i := i + 1;
    }
    return false;
  }

  /** The upserts of `Promise.all`, run one after another; `ok` is false when
      the database rejected one of them. */
  method UpsertAll(db: Database, c: int, items: seq<ThresholdInput>) returns (ok: bool)
    modifies db`thresholds
    ensures db.thresholds == Upserts(old(db.thresholds), c, items)
    ensures ok <==> AllWellTyped(items)
  {
    ok := true;
    var i := 0;
    while i < |items|
      invariant 0 <= i <= |items|
      invariant db.thresholds == Upserts(old(db.thresholds), c, items[..i])
      invariant ok <==> AllWellTyped(items[..i])
    {
      assert items[..i + 1][..i] == items[..i];
      assert items[..i + 1][i] == items[i];
      if WellTyped(items[i]) {
        db.thresholds := db.thresholds[(c, items[i].fieldName.s) := RowOf(items[i])];
      } else {
        ok := false;
      }
      i := i + 1;
    }
    assert items[..i] == items;
  }

  // ------------------------------------------------------------------ properties

  lemma {:induction false} UpsertsKeys(t: Table, c: int, items: seq<ThresholdInput>, k: (int, string))
    requires AllWellTyped(items)
    ensures k in Upserts(t, c, items) <==> k in t || (k.0 == c && k.1 in Names(items))
    decreases |items|
  {
    if items != [] {
      var init := items[..|items| - 1];
      assert forall i :: 0 <= i < |init| ==> init[i] == items[i];
      UpsertsKeys(t, c, init, k);
    }
  }

  lemma {:induction false} UpsertsOthers(t: Table, c: int, items: seq<ThresholdInput>, k: (int, string))
    requires k.0 != c
    ensures k in Upserts(t, c, items) <==> k in t
    ensures k in t ==> Upserts(t, c, items)[k] == t[k]
    decreases |items|
  {
    if items != [] {
      UpsertsOthers(t, c, items[..|items| - 1], k);
    }
  }

  lemma {:induction false} UpsertsLast(t: Table, c: int, items: seq<ThresholdInput>, i: nat)
    requires i < |items| && WellTyped(items[i])
    requires forall j :: i < j < |items| ==> items[j].fieldName != items[i].fieldName
    ensures (c, items[i].fieldName.s) in Upserts(t, c, items)
    ensures Upserts(t, c, items)[(c, items[i].fieldName.s)] == RowOf(items[i])
    decreases |items|
  {
    if i < |items| - 1 {
      var init := items[..|items| - 1];
      assert init[i] == items[i];
      UpsertsLast(t, c, init, i);
    }
  }

  /** After a successful POST the channel's stored field names are exactly the
      submitted names. */
  lemma ReconciledNames(t: Table, c: int, items: seq<ThresholdInput>, n: string)
    requires AllWellTyped(items)
    ensures (c, n) in Reconciled(t, c, items) <==> n in Names(items)
  {
    UpsertsKeys(DeleteMissing(t, c, Names(items)), c, items, (c, n));
  }

  /** Each submitted field stores the bounds of its last occurrence, and a
      null unit when the submitted one was falsy. */
  lemma ReconciledValues(t: Table, c: int, items: seq<ThresholdInput>, i: nat)
    requires AllWellTyped(items) && i < |items| && !Invalid(items[i])
    requires forall j :: i < j < |items| ==> items[j].fieldName != items[i].fieldName
    ensures (c, items[i].fieldName.s) in Reconciled(t, c, items)
    ensures var row := Reconciled(t, c, items)[(c, items[i].fieldName.s)];
      && Some(row.minValue) == NumberOf(items[i].minValue)
      && Some(row.maxValue) == NumberOf(items[i].maxValue)
      && row.minValue < row.maxValue
      && (row.unit.None? <==> !Truthy(items[i].unit))
  {
    UpsertsLast(DeleteMissing(t, c, Names(items)), c, items, i);
  }

  /** Thresholds of every other channel are left as they were. */
  lemma ReconciledOthers(t: Table, c: int, items: seq<ThresholdInput>, k: (int, string))
    requires k.0 != c
    ensures k in Reconciled(t, c, items) <==> k in t
    ensures k in t ==> Reconciled(t, c, items)[k] == t[k]
  {
    UpsertsOthers(DeleteMissing(t, c, Names(items)), c, items, k);
  }

  /** Posting an empty list deletes all of the channel's thresholds. */
  lemma EmptyDeletesAll(t: Table, c: int, n: string)
    ensures (c, n) !in Reconciled(t, c, [])
  {
  }
}
