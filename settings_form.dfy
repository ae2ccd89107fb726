/** The default-threshold form of settingsform.tsx: editable field rows,
    validation that reports the first failing row, the normalised submission
    shown in the confirmation dialog, and the change log written after a save.
    The fetched thresholds, the outcome of the save request and the presence
    of a session user are inputs; the requests themselves are recorded. */
module SettingsForm {
  import opened Common

  /** One editable row. A fetched row carries the bounds the route sent
      (numbers); a bound the user typed is text. `unit` is `None` when the
      fetched threshold had a null unit. */
  datatype FormField = FormField(fieldName: string, minValue: Json, maxValue: Json, unit: Option<string>)

  /** The keys `handleFieldChange` can set. */
  datatype Key = FieldName | MinValue | MaxValue | Unit

  /** A threshold as the change log sees it, with its values as JSON values. */
  datatype Entry = Entry(fieldName: string, minValue: Json, maxValue: Json, unit: Json)

  const EmptyField: FormField := FormField("", Str(""), Str(""), Some(""))

  /** `{ ...field, [key]: value }` */
  function SetKey(f: FormField, key: Key, value: string): (r: FormField)
    ensures key == FieldName ==> r == f.(fieldName := value)
    ensures key == MinValue ==> r == f.(minValue := Str(value))
    ensures key == MaxValue ==> r == f.(maxValue := Str(value))
    ensures key == Unit ==> r == f.(unit := Some(value))
  {
    match key
    case FieldName => f.(fieldName := value)
    case MinValue => f.(minValue := Str(value))
    case MaxValue => f.(maxValue := Str(value))
    case Unit => f.(unit := Some(value))
  }

  /** `fields.filter((_, i) => i !== index)` */
  function RemoveAt(fields: seq<FormField>, index: int): (r: seq<FormField>)
    ensures 0 <= index < |fields| ==>
      (&& |r| == |fields| - 1
       && (forall j :: 0 <= j < index ==> r[j] == fields[j])
       && (forall j :: index <= j < |r| ==> r[j] == fields[j + 1]))
    ensures !(0 <= index < |fields|) ==> r == fields
  {
    if 0 <= index < |fields| then fields[..index] + fields[index + 1..] else fields
  }

  // ------------------------------------------------------------------ validation

  /** `Field ${i + 1}: <what>` */
  function Message(i: nat, what: string): string {
    "Field " + NatToString(i + 1) + ": " + what
  }

  /** The check `validateFields` makes on row `i`, in its order: name, min,
      max, range. A bound fails when it is the empty text or `Number` of it
      is not a number. */
  function FieldError(f: FormField, i: nat): (r: Option<string>)
    ensures r.None? <==>
      (&& Trim(f.fieldName) != "" && f.minValue != Str("") && f.maxValue != Str("")
       && NumberOf(f.minValue).Some? && NumberOf(f.maxValue).Some?
       && NumberOf(f.minValue).value < NumberOf(f.maxValue).value)
    ensures Trim(f.fieldName) == "" ==> r == Some(Message(i, "Name required"))
    ensures Trim(f.fieldName) != "" && (f.minValue == Str("") || NumberOf(f.minValue).None?) ==>
      r == Some(Message(i, "Invalid min"))
    ensures Trim(f.fieldName) != "" && f.minValue != Str("") && NumberOf(f.minValue).Some?
            && (f.maxValue == Str("") || NumberOf(f.maxValue).None?) ==>
      r == Some(Message(i, "Invalid max"))
    ensures Trim(f.fieldName) != "" && f.minValue != Str("") && f.maxValue != Str("")
            && NumberOf(f.minValue).Some? && NumberOf(f.maxValue).Some?
            && NumberOf(f.minValue).value >= NumberOf(f.maxValue).value ==>
      r == Some(Message(i, "Min >= Max"))
  {
    var min := NumberOf(f.minValue);
    var max := NumberOf(f.maxValue);
    if Trim(f.fieldName) == "" then Some(Message(i, "Name required"))
    else if f.minValue == Str("") || min.None? then Some(Message(i, "Invalid min"))
    else if f.maxValue == Str("") || max.None? then Some(Message(i, "Invalid max"))
    else if min.value >= max.value then Some(Message(i, "Min >= Max"))
    else None
  }

  predicate AllValid(fields: seq<FormField>) {
    forall i :: 0 <= i < |fields| ==> FieldError(fields[i], i).None?
  }

  /** The message number is the 1-based row number. */
  lemma MessageNumbersFromOne(i: nat, what: string)
    ensures Message(i, what) == "Field " + NatToString(i + 1) + ": " + what
    ensures DigitsValue(NatToString(i + 1)) == i + 1
  {
  }

  /** The error of each row, in row order. */
  function RowErrors(fields: seq<FormField>): (r: seq<Option<string>>)
    ensures |r| == |fields|
    ensures forall i :: 0 <= i < |fields| ==> r[i] == FieldError(fields[i], i)
  {
    seq(|fields|, i requires 0 <= i < |fields| => FieldError(fields[i], i))
  }

  /** The first error from position `i` on, if any. */
  function FirstError(errs: seq<Option<string>>, i: nat): Option<string>
    decreases |errs| - i
  {
    if i >= |errs| then None
    else if errs[i].Some? then errs[i]
    else FirstError(errs, i + 1)
  }

  /** No first error exactly when there is no error from `i` on. */
  lemma {:induction false} FirstErrorNone(errs: seq<Option<string>>, i: nat)
    ensures FirstError(errs, i).None? <==> forall j :: i <= j < |errs| ==> errs[j].None?
    decreases |errs| - i
  {
    if i < |errs| && errs[i].None? {
      FirstErrorNone(errs, i + 1);
    }
  }

  /** The first error sits at an index before which there is none. */
  lemma {:induction false} FirstErrorIndex(errs: seq<Option<string>>, i: nat) returns (j: nat)
    requires FirstError(errs, i).Some?
    ensures i <= j < |errs| && FirstError(errs, i) == errs[j]
    ensures forall k :: i <= k < j ==> errs[k].None?
    decreases |errs| - i
  {
    if errs[i].Some? {
      j := i;
    } else {
      j := FirstErrorIndex(errs, i + 1);
    }
  }

  /** `validateFields`: the error of the first failing row, or none when
      every row passes. */
  method ValidateFields(fields: seq<FormField>) returns (err: Option<string>)
    ensures err == FirstError(RowErrors(fields), 0)
    ensures err.None? <==> AllValid(fields)
    ensures err.Some? ==> exists i :: 0 <= i < |fields| && err == FieldError(fields[i], i)
                                      && forall j :: 0 <= j < i ==> FieldError(fields[j], j).None?
  {
    ghost var errs := RowErrors(fields);
    FirstErrorNone(errs, 0);
    var i := 0;
    while i < |fields|
      invariant 0 <= i <= |fields|
      invariant FirstError(errs, i) == FirstError(errs, 0)
    {
      err := FieldError(fields[i], i);
      if err.Some? {
        var first := FirstErrorIndex(errs, 0);
        return;
      }
      i := i + 1;
    }
    return None;
  }

  // ------------------------------------------------------------------ submission

  /** `(field.unit ?? "").trim() || null` */
  function NormalUnit(unit: Option<string>): (r: Json)
    ensures r == Null || (r.Str? && r.s != [] && r.s == Trim(unit.GetOr("")))
  {
    var t := Trim(unit.GetOr(""));
    if t == "" then Null else Str(t)
  }

  /** One row of `submissionFields`. */
  function Submit(f: FormField): Entry
    requires NumberOf(f.minValue).Some? && NumberOf(f.maxValue).Some?
  {
    Entry(Trim(f.fieldName), Num(NumberOf(f.minValue).value), Num(NumberOf(f.maxValue).value),
          NormalUnit(f.unit))
  }

  /** `submissionFields`, computed once validation has passed. */
  function Submission(fields: seq<FormField>): (r: seq<Entry>)
    requires AllValid(fields)
    ensures |r| == |fields|
    ensures forall i :: 0 <= i < |r| ==>
      r[i].fieldName == Trim(fields[i].fieldName) && r[i].fieldName != ""
      && r[i].minValue.Num? && r[i].maxValue.Num? && r[i].minValue.x < r[i].maxValue.x
      && Some(r[i].minValue.x) == NumberOf(fields[i].minValue)
      && Some(r[i].maxValue.x) == NumberOf(fields[i].maxValue)
      && r[i].unit == NormalUnit(fields[i].unit)
  {
    seq(|fields|, i requires 0 <= i < |fields| && AllValid(fields) => Submit(fields[i]))
  }

  // ------------------------------------------------------------------ change log

  /** An association list in the order `Object.entries` lists an object's keys. */
  type Assoc = seq<(string, Entry)>

  function Keys(m: Assoc): set<string> {
    if m == [] then {} else {m[0].0} + Keys(m[1..])
  }

  function Lookup(m: Assoc, k: string): (r: Option<Entry>)
    ensures r.None? <==> k !in Keys(m)
    ensures r.Some? ==> (k, r.value) in m
  {
    if m == [] then None
    else if m[0].0 == k then Some(m[0].1)
    else Lookup(m[1..], k)
  }

  predicate UniqueKeys(m: Assoc) {
    m == [] || (m[0].0 !in Keys(m[1..]) && UniqueKeys(m[1..]))
  }

  /** Assignment of a key: an existing key keeps its position and takes the new
      value, a new key goes last. */
  function Put(m: Assoc, k: string, v: Entry): (r: Assoc)
    ensures Keys(r) == Keys(m) + {k}
    ensures |r| == if k in Keys(m) then |m| else |m| + 1
    ensures Lookup(r, k) == Some(v)
    ensures forall k' :: k' != k ==> Lookup(r, k') == Lookup(m, k')
    ensures UniqueKeys(m) ==> UniqueKeys(r)
  {
    if m == [] then [(k, v)]
    else if m[0].0 == k then
      var r := [(k, v)] + m[1..];
      assert r[1..] == m[1..];
      r
    else
      var rest := Put(m[1..], k, v);
      var r := [m[0]] + rest;
      assert r[1..] == rest;
      r
  }

  /** `list.map(f => [f.fieldName.toLowerCase(), f])` */
  function Keyed(list: seq<Entry>): (r: Assoc)
    ensures |r| == |list|
    ensures forall i :: 0 <= i < |r| ==> r[i] == (Lower(list[i].fieldName), list[i])
  {
    seq(|list|, i requires 0 <= i < |list| => (Lower(list[i].fieldName), list[i]))
  }

  /** `Object.fromEntries(pairs)`: later pairs overwrite earlier ones. */
  function FromPairs(pairs: Assoc): (r: Assoc)
    ensures UniqueKeys(r)
    decreases |pairs|
  {
    if pairs == [] then []
    else
      var last := pairs[|pairs| - 1];
      Put(FromPairs(pairs[..|pairs| - 1]), last.0, last.1)
  }

  function FromEntries(list: seq<Entry>): Assoc {
    FromPairs(Keyed(list))
  }

  /** A key is absent exactly when no pair has it. */
  lemma {:induction false} FromPairsAbsent(pairs: Assoc, k: string)
    ensures Lookup(FromPairs(pairs), k).None? <==> forall i :: 0 <= i < |pairs| ==> pairs[i].0 != k
    decreases |pairs|
  {
    if pairs != [] {
      var n := |pairs| - 1;
      var prefix := FromPairs(pairs[..n]);
      assert FromPairs(pairs) == Put(prefix, pairs[n].0, pairs[n].1);
      NoKey(pairs, pairs[..n], k);
      if pairs[n].0 == k {
        assert Lookup(FromPairs(pairs), k) == Some(pairs[n].1);
      } else {
        assert Lookup(FromPairs(pairs), k) == Lookup(prefix, k);
        FromPairsAbsent(pairs[..n], k);
      }
    }
  }

  /** No pair after `i` has key `k` when no pair of the front after `i`
      does and the last pair does not either. */
  lemma NoLaterKey(pairs: Assoc, front: Assoc, i: nat, k: string)
    requires 0 < |pairs| && front == pairs[..|pairs| - 1] && i < |front| && pairs[|pairs| - 1].0 != k
    requires forall j :: i < j < |front| ==> front[j].0 != k
    ensures pairs[i] == front[i]
    ensures forall j :: i < j < |pairs| ==> pairs[j].0 != k
  {
    forall j | i < j < |pairs|
      ensures pairs[j].0 != k
    {
      if j < |front| {
        assert front[j] == pairs[j];
      }
    }
  }

  /** No pair has key `k` exactly when no pair of the front has it and the last pair does not. */
  lemma NoKey(pairs: Assoc, front: Assoc, k: string)
    requires 0 < |pairs| && front == pairs[..|pairs| - 1]
    ensures (forall i :: 0 <= i < |pairs| ==> pairs[i].0 != k) <==>
            (forall i :: 0 <= i < |front| ==> front[i].0 != k) && pairs[|pairs| - 1].0 != k
  {
    assert forall i :: 0 <= i < |front| ==> front[i] == pairs[i];
  }

  /** A present key maps to the value of the last pair that has it. */
  lemma {:induction false} FromPairsLast(pairs: Assoc, k: string) returns (i: nat)
    requires Lookup(FromPairs(pairs), k).Some?
    ensures i < |pairs| && pairs[i].0 == k && Lookup(FromPairs(pairs), k) == Some(pairs[i].1)
    ensures forall j :: i < j < |pairs| ==> pairs[j].0 != k
    decreases |pairs|
  {
    var n := |pairs| - 1;
    var prefix := FromPairs(pairs[..n]);
    assert FromPairs(pairs) == Put(prefix, pairs[n].0, pairs[n].1);
    if pairs[n].0 == k {
      i := n;
    } else {
      assert Lookup(FromPairs(pairs), k) == Lookup(prefix, k);
      var front := pairs[..n];
      i := FromPairsLast(front, k);
      NoLaterKey(pairs, front, i, k);
    }
  }

  /** In `FromEntries`, a lower-cased name maps to the last row carrying it,
      and is absent when no row does. */
  lemma FromEntriesLookup(list: seq<Entry>, k: string) returns (i: nat)
    ensures Lookup(FromEntries(list), k).None? <==> forall j :: 0 <= j < |list| ==> Lower(list[j].fieldName) != k
    ensures Lookup(FromEntries(list), k).Some? ==>
      (&& i < |list| && Lower(list[i].fieldName) == k && Lookup(FromEntries(list), k) == Some(list[i])
       && forall j :: i < j < |list| ==> Lower(list[j].fieldName) != k)
  {
    FromPairsAbsent(Keyed(list), k);
    i := 0;
    if Lookup(FromEntries(list), k).Some? {
      i := FromPairsLast(Keyed(list), k);
    }
  }

  lemma {:induction false} LookupOwnEntries(m: Assoc)
    requires UniqueKeys(m)
    ensures forall i :: 0 <= i < |m| ==> Lookup(m, m[i].0) == Some(m[i].1)
  {
    if m != [] {
      LookupOwnEntries(m[1..]);
      forall i | 1 <= i < |m|
        ensures Lookup(m, m[i].0) == Some(m[i].1)
      {
        assert m[1..][i - 1] == m[i];
      }
    }
  }

  /** Whether a saved threshold differs from its original under `!==`. */
  predicate Differs(oldVal: Entry, newVal: Entry) {
    oldVal.minValue != newVal.minValue || oldVal.maxValue != newVal.maxValue || oldVal.unit != newVal.unit
  }

  /** One change-log line: a threshold set for a key, or an original key deleted.
      The line's text is rendered from the key and the entry's values. */
  datatype Change = SetTo(key: string, entry: Entry) | Deleted(key: string, entry: Entry)

  function SetChange(key: string, newVal: Entry, originalMap: Assoc): seq<Change> {
    var oldVal := Lookup(originalMap, key);
    if oldVal.None? || Differs(oldVal.value, newVal) then [SetTo(key, newVal)] else []
  }

  /** The first loop: new or altered keys, in `newMap` order. */
  function SetChanges(newMap: Assoc, originalMap: Assoc): (r: seq<Change>)
    ensures forall c :: c in r ==> c.SetTo?
  {
    if newMap == [] then []
    else SetChange(newMap[0].0, newMap[0].1, originalMap) + SetChanges(newMap[1..], originalMap)
  }

  function DeleteChange(key: string, oldVal: Entry, newMap: Assoc): seq<Change> {
    if Lookup(newMap, key).None? then [Deleted(key, oldVal)] else []
  }

  /** The second loop: original keys the new map lacks, in `originalMap` order. */
  function DeleteChanges(originalMap: Assoc, newMap: Assoc): (r: seq<Change>)
    ensures forall c :: c in r ==> c.Deleted?
  {
    if originalMap == [] then []
    else DeleteChange(originalMap[0].0, originalMap[0].1, newMap) + DeleteChanges(originalMap[1..], newMap)
  }

  function Changes(original: seq<Entry>, submission: seq<Entry>): seq<Change> {
    var originalMap := FromEntries(original);
    var newMap := FromEntries(submission);
    SetChanges(newMap, originalMap) + DeleteChanges(originalMap, newMap)
  }

  lemma {:induction false} SetChangesMembers(newMap: Assoc, originalMap: Assoc, k: string, e: Entry)
    requires UniqueKeys(newMap)
    ensures SetTo(k, e) in SetChanges(newMap, originalMap) <==>
      Lookup(newMap, k) == Some(e) && (Lookup(originalMap, k).None? || Differs(Lookup(originalMap, k).value, e))
  {
    if newMap != [] {
      SetChangesMembers(newMap[1..], originalMap, k, e);
    }
  }

  lemma {:induction false} DeleteChangesMembers(originalMap: Assoc, newMap: Assoc, k: string, e: Entry)
    requires UniqueKeys(originalMap)
    ensures Deleted(k, e) in DeleteChanges(originalMap, newMap) <==>
      Lookup(originalMap, k) == Some(e) && Lookup(newMap, k).None?
  {
    if originalMap != [] {
      DeleteChangesMembers(originalMap[1..], newMap, k, e);
    }
  }

  /** The change log holds a "set" line for exactly the keys that are new or
      altered and a "deleted" line for exactly the original keys no longer
      present; a key whose threshold is unchanged produces no line. */
  lemma ChangesCharacterized(original: seq<Entry>, submission: seq<Entry>, k: string, e: Entry)
    ensures var originalMap, newMap := FromEntries(original), FromEntries(submission);
      && (SetTo(k, e) in Changes(original, submission) <==>
            Lookup(newMap, k) == Some(e) && (Lookup(originalMap, k).None? || Differs(Lookup(originalMap, k).value, e)))
      && (Deleted(k, e) in Changes(original, submission) <==>
            Lookup(originalMap, k) == Some(e) && Lookup(newMap, k).None?)
  {
    var originalMap, newMap := FromEntries(original), FromEntries(submission);
    SetChangesMembers(newMap, originalMap, k, e);
    DeleteChangesMembers(originalMap, newMap, k, e);
  }

  lemma {:induction false} SetChangesSame(part: Assoc, m: Assoc)
    requires forall i :: 0 <= i < |part| ==> Lookup(m, part[i].0) == Some(part[i].1)
    ensures SetChanges(part, m) == []
  {
    if part != [] {
      assert forall i :: 0 <= i < |part[1..]| ==> part[1..][i] == part[i + 1];
      SetChangesSame(part[1..], m);
    }
  }

  lemma {:induction false} DeleteChangesNone(part: Assoc, m: Assoc)
    requires forall i :: 0 <= i < |part| ==> Lookup(m, part[i].0) == Some(part[i].1)
    ensures DeleteChanges(part, m) == []
  {
    if part != [] {
      assert forall i :: 0 <= i < |part[1..]| ==> part[1..][i] == part[i + 1];
      DeleteChangesNone(part[1..], m);
    }
  }

  /** Comparing a list of thresholds with itself logs nothing. */
  lemma UnchangedLogsNothing(list: seq<Entry>)
    ensures Changes(list, list) == []
  {
    var m := FromEntries(list);
    LookupOwnEntries(m);
    SetChangesSame(m, m);
    DeleteChangesNone(m, m);
  }

  /** The first change-log loop of `saveThresholds`. */
  method CollectSetChanges(newMap: Assoc, originalMap: Assoc) returns (changes: seq<Change>)
    ensures changes == SetChanges(newMap, originalMap)
  {
    changes := [];
    var i := 0;
    while i < |newMap|
      invariant 0 <= i <= |newMap|
      invariant changes + SetChanges(newMap[i..], originalMap) == SetChanges(newMap, originalMap)
    {
      var key, newVal := newMap[i].0, newMap[i].1;
      var oldVal := Lookup(originalMap, key);
      assert newMap[i..][1..] == newMap[i + 1..];
      ghost var later := SetChanges(newMap[i + 1..], originalMap);
      assert SetChanges(newMap[i..], originalMap) == SetChange(key, newVal, originalMap) + later;
      if oldVal.None? || Differs(oldVal.value, newVal) {
        assert changes + ([SetTo(key, newVal)] + later) == (changes + [SetTo(key, newVal)]) + later;
        changes := changes + [SetTo(key, newVal)];
      }
      i := i + 1;
    }
  }

  /** The second change-log loop of `saveThresholds`. */
  method CollectDeleteChanges(originalMap: Assoc, newMap: Assoc) returns (changes: seq<Change>)
    ensures changes == DeleteChanges(originalMap, newMap)
  {
    changes := [];
    var j := 0;
    while j < |originalMap|
      invariant 0 <= j <= |originalMap|
      invariant changes + DeleteChanges(originalMap[j..], newMap) == DeleteChanges(originalMap, newMap)
    {
      var key, oldVal := originalMap[j].0, originalMap[j].1;
      assert originalMap[j..][1..] == originalMap[j + 1..];
      ghost var later := DeleteChanges(originalMap[j + 1..], newMap);
      assert DeleteChanges(originalMap[j..], newMap) == DeleteChange(key, oldVal, newMap) + later;
      if Lookup(newMap, key).None? {
        assert changes + ([Deleted(key, oldVal)] + later) == (changes + [Deleted(key, oldVal)]) + later;
        changes := changes + [Deleted(key, oldVal)];
      }
      j := j + 1;
    }
  }

  /** The change log `saveThresholds` builds. */
  method BuildChanges(original: seq<Entry>, submission: seq<Entry>) returns (changes: seq<Change>)
    ensures changes == Changes(original, submission)
  {
    var originalMap := FromEntries(original);
    var newMap := FromEntries(submission);
    var sets := CollectSetChanges(newMap, originalMap);
    var deletes := CollectDeleteChanges(originalMap, newMap);
    changes := sets + deletes;
  }

  // ------------------------------------------------------------------ the form

  /** The message of the error thrown when the save request is not ok. */
  const SaveFailed := "Failed to save thresholds"

  class Form {
    var fields: seq<FormField>
    /** The thresholds as fetched, kept to diff against. */
    var originalFields: seq<Entry>
    var error: Option<string>
    var dialogOpen: bool
    var pending: seq<Entry>
    /** The bodies of the save requests sent, oldest first. */
    var posted: seq<seq<Entry>>
    /** The change-log lines sent to the log endpoint, oldest first. */
    var logged: seq<Change>

    /** The form after its thresholds were fetched. */
    constructor (fetched: seq<FormField>)
      ensures fields == fetched && originalFields == Originals(fetched)
      ensures error == None && !dialogOpen && pending == [] && posted == [] && logged == []
    {
      fields := fetched;
      originalFields := Originals(fetched);
      error := None;
      dialogOpen := false;
      pending := [];
      posted := [];
      logged := [];
    }

    method HandleFieldChange(index: nat, key: Key, value: string)
      requires index < |fields|
      modifies this`fields
      ensures |fields| == |old(fields)|
      ensures fields[index] == SetKey(old(fields)[index], key, value)
      ensures forall j :: 0 <= j < |fields| && j != index ==> fields[j] == old(fields)[j]
    {
      fields := fields[index := SetKey(fields[index], key, value)];
    }

    method HandleAddField()
      modifies this`fields
      ensures fields == old(fields) + [EmptyField]
    {
      fields := fields + [EmptyField];
    }

    method HandleRemoveField(index: int)
      modifies this`fields
      ensures fields == RemoveAt(old(fields), index)
    {
      fields := RemoveAt(fields, index);
    }

    /** `handleSubmit`: a validation error is shown and the dialog stays shut;
        otherwise the dialog opens on the normalised submission. */
    method HandleSubmit()
      modifies this`error, this`dialogOpen, this`pending
      ensures !AllValid(fields) ==>
        error == FirstError(RowErrors(fields), 0) && error.Some? && dialogOpen == old(dialogOpen) && pending == old(pending)
      ensures AllValid(fields) ==> error == None && dialogOpen && pending == Submission(fields)
    {
      error := None;
      var validationError := ValidateFields(fields);
      if validationError.Some? {
        error := validationError;
        return;
      }
      pending := Submission(fields);
      dialogOpen := true;
    }

    /** `saveThresholds`: the request is sent; a failed request shows its
        message and writes no change log; otherwise a change log is written
        only when a session user exists. */
    method SaveThresholds(submission: seq<Entry>, requestOk: bool, hasUser: bool)
      modifies this`posted, this`logged, this`error
      ensures posted == old(posted) + [submission]
      ensures logged == old(logged) + (if requestOk && hasUser then Changes(originalFields, submission) else [])
      ensures !requestOk ==> error == Some(SaveFailed)
      ensures requestOk ==> error == old(error)
    {
      posted := posted + [submission];
      if !requestOk {
        error := Some(SaveFailed);
        return;
      }
      if hasUser {
        var changes := BuildChanges(originalFields, submission);
        logged := logged + changes;
      }
    }

    /** `handleConfirmationClose`: saves only on proceed; the dialog always
        closes and drops its pending fields. */
    method HandleConfirmationClose(proceed: bool, requestOk: bool, hasUser: bool)
      modifies this`posted, this`logged, this`dialogOpen, this`pending, this`error
      ensures posted == old(posted) + (if proceed then [old(pending)] else [])
      ensures proceed && !requestOk ==> error == Some(SaveFailed)
      ensures !(proceed && !requestOk) ==> error == old(error)
      ensures logged == old(logged) + (if proceed && requestOk && hasUser then Changes(originalFields, old(pending)) else [])
      ensures !dialogOpen && pending == []
    {
      if proceed {
        SaveThresholds(pending, requestOk, hasUser);
      }
      dialogOpen := false;
      pending := [];
    }
  }

  /** The fetched rows as the change log compares them
      (`JSON.parse(JSON.stringify(...))`): the bounds as the route sent them
      and a null unit as `null`. */
  function Originals(fetched: seq<FormField>): (r: seq<Entry>)
    ensures |r| == |fetched|
    ensures forall i :: 0 <= i < |r| ==>
      && r[i].fieldName == fetched[i].fieldName
      && r[i].minValue == fetched[i].minValue && r[i].maxValue == fetched[i].maxValue
      && r[i].unit == (if fetched[i].unit.Some? then Str(fetched[i].unit.value) else Null)
  {
    seq(|fetched|, i requires 0 <= i < |fetched| =>
      Entry(fetched[i].fieldName, fetched[i].minValue, fetched[i].maxValue,
            if fetched[i].unit.Some? then Str(fetched[i].unit.value) else Null))
  }

  /** A fetched row as the database stores it: numeric bounds, a trimmed
      name, and a unit that is null or trimmed, non-empty text. */
  predicate Stored(f: FormField) {
    && f.minValue.Num? && f.maxValue.Num? && Trim(f.fieldName) == f.fieldName
    && (f.unit.None? || (Trim(f.unit.value) == f.unit.value && f.unit.value != ""))
  }

  /** Saving valid stored rows without touching them submits exactly the
      originals, so the change log is empty. */
  lemma UntouchedSaveLogsNothing(fields: seq<FormField>)
    requires AllValid(fields)
    requires forall i :: 0 <= i < |fields| ==> Stored(fields[i])
    ensures Originals(fields) == Submission(fields)
    ensures Changes(Originals(fields), Submission(fields)) == []
  {
    var original, submission := Originals(fields), Submission(fields);
    forall i | 0 <= i < |fields|
      ensures original[i] == submission[i]
    {
      assert Trim("") == "";
    }
    UnchangedLogsNothing(original);
  }
}
