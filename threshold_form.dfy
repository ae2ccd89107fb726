/** The per-channel threshold form of thresholdform.tsx: one row per channel
    field, initialised from the channel's custom thresholds with the defaults
    as fallback; validation of partly filled rows; the submitted list of fully
    filled rows; and reset to the defaults. Fetches and posts are inputs and
    recorded requests. */
module ThresholdForm {
  import opened Common

  /** One form row; bounds are the texts typed into the two inputs. */
  datatype Field = Field(fieldName: string, minValue: string, maxValue: string)

  /** A stored or default threshold; a bound is the text `toString()` gives
      for its value, `None` when the value is null or undefined. */
  datatype Threshold = Threshold(fieldName: string, minValue: Option<string>, maxValue: Option<string>)

  /** A row as posted, with its bounds converted by `Number`. */
  datatype Submitted = Submitted(fieldName: string, minValue: real, maxValue: real)

  datatype Key = MinValue | MaxValue | FieldName

  // ------------------------------------------------------------------ initialisation

  /** `list.find(t => t.fieldName === name)` */
  function Find(list: seq<Threshold>, name: string): (r: Option<Threshold>)
    ensures r.None? <==> forall i :: 0 <= i < |list| ==> list[i].fieldName != name
    ensures r.Some? ==> exists i :: 0 <= i < |list| && list[i] == r.value && list[i].fieldName == name
                                    && forall j :: 0 <= j < i ==> list[j].fieldName != name
  {
    if list == [] then None
    else if list[0].fieldName == name then Some(list[0])
    else
      var r := Find(list[1..], name);
      assert forall j :: 0 <= j < |list[1..]| ==> list[1..][j] == list[j + 1];
      r
  }

  /** `t?.bound?.toString() || d?.bound?.toString() || ""`: the first non-empty text. */
  function Pick(custom: Option<string>, default: Option<string>): (r: string)
    ensures custom.Some? && custom.value != "" ==> r == custom.value
    ensures (custom.None? || custom.value == "") && default.Some? && default.value != "" ==> r == default.value
    ensures (custom.None? || custom.value == "") && (default.None? || default.value == "") ==> r == ""
  {
    if custom.Some? && custom.value != "" then custom.value
    else if default.Some? && default.value != "" then default.value
    else ""
  }

  function MinOf(t: Option<Threshold>): Option<string> {
    if t.Some? then t.value.minValue else None
  }

  function MaxOf(t: Option<Threshold>): Option<string> {
    if t.Some? then t.value.maxValue else None
  }

  function InitField(name: string, custom: seq<Threshold>, defaults: seq<Threshold>): Field {
    var t, d := Find(custom, name), Find(defaults, name);
    Field(name, Pick(MinOf(t), MinOf(d)), Pick(MaxOf(t), MaxOf(d)))
  }

  /** `initializedFields`: one row per channel field, in channel-field order. */
  function Initialize(channelFields: seq<string>, custom: seq<Threshold>, defaults: seq<Threshold>): (r: seq<Field>)
    ensures |r| == |channelFields|
    ensures forall i :: 0 <= i < |r| ==> r[i] == InitField(channelFields[i], custom, defaults)
  {
    seq(|channelFields|, i requires 0 <= i < |channelFields| => InitField(channelFields[i], custom, defaults))
  }

  /** A non-empty custom bound wins; otherwise a non-empty default bound;
      otherwise the bound is blank. */
  lemma InitializePrecedence(channelFields: seq<string>, custom: seq<Threshold>, defaults: seq<Threshold>, i: nat)
    requires i < |channelFields|
    ensures var f, t, d := Initialize(channelFields, custom, defaults)[i], Find(custom, channelFields[i]), Find(defaults, channelFields[i]);
      && f.fieldName == channelFields[i]
      && (t.Some? && t.value.minValue.Some? && t.value.minValue.value != "" ==> f.minValue == t.value.minValue.value)
      && (t.Some? && t.value.maxValue.Some? && t.value.maxValue.value != "" ==> f.maxValue == t.value.maxValue.value)
      && (t.None? && d.Some? && d.value.minValue.Some? && d.value.minValue.value != "" ==> f.minValue == d.value.minValue.value)
      && (t.None? && d.Some? && d.value.maxValue.Some? && d.value.maxValue.value != "" ==> f.maxValue == d.value.maxValue.value)
      && (t.None? && d.None? ==> f.minValue == "" && f.maxValue == "")
  {
  }

  /** `resetFields`: the rows rebuilt from the defaults alone. */
  function ResetFields(channelFields: seq<string>, defaults: seq<Threshold>): (r: seq<Field>)
    ensures |r| == |channelFields|
    ensures forall i :: 0 <= i < |r| ==>
      r[i] == Field(channelFields[i], Pick(MinOf(Find(defaults, channelFields[i])), None),
                    Pick(MaxOf(Find(defaults, channelFields[i])), None))
  {
    seq(|channelFields|, i requires 0 <= i < |channelFields| =>
      var d := Find(defaults, channelFields[i]);
      Field(channelFields[i], Pick(MinOf(d), None), Pick(MaxOf(d), None)))
  }

  /** Reset yields what initialisation yields for a channel without custom thresholds. */
  lemma ResetIsInitializeWithoutCustom(channelFields: seq<string>, defaults: seq<Threshold>)
    ensures ResetFields(channelFields, defaults) == Initialize(channelFields, [], defaults)
  {
    var r, s := ResetFields(channelFields, defaults), Initialize(channelFields, [], defaults);
    forall i | 0 <= i < |r|
      ensures r[i] == s[i]
    {
      var d := Find(defaults, channelFields[i]);
      assert Pick(MinOf(d), None) == Pick(None, MinOf(d));
      assert Pick(MaxOf(d), None) == Pick(None, MaxOf(d));
    }
  }

  // ------------------------------------------------------------------ validation

  /** `value === "" ? NaN : Number(value)`, with NaN as `None`. */
  function Bound(value: string): Option<real> {
    if value == "" then None else StringToNumber(value)
  }

  predicate AnyFilled(f: Field) {
    f.minValue != "" || f.maxValue != ""
  }

  predicate BothFilled(f: Field) {
    f.minValue != "" && f.maxValue != ""
  }

  /** The predicate of the second `filter` in `handleSubmit`. */
  predicate Invalid(f: Field) {
    var min, max := Bound(f.minValue), Bound(f.maxValue);
    || (f.minValue != "" && (min.None? || f.maxValue == ""))
    || (f.maxValue != "" && (max.None? || f.minValue == ""))
    || (min.Some? && max.Some? && min.value >= max.value)
  }

  /** A row left wholly blank is never invalid; a touched row is invalid exactly
      when one bound is blank, a bound is not a number, or min is not below max. */
  lemma InvalidMeaning(f: Field)
    ensures !AnyFilled(f) ==> !Invalid(f)
    ensures AnyFilled(f) ==>
      (Invalid(f) <==>
        || (f.minValue == "") != (f.maxValue == "")
        || (f.minValue != "" && StringToNumber(f.minValue).None?)
        || (f.maxValue != "" && StringToNumber(f.maxValue).None?)
        || (&& StringToNumber(f.minValue).Some? && StringToNumber(f.maxValue).Some?
            && BothFilled(f) && StringToNumber(f.minValue).value >= StringToNumber(f.maxValue).value))
  {
  }

  /** `invalidFields`, in form order. */
  function InvalidFields(fields: seq<Field>): (r: seq<Field>)
    ensures forall g :: g in r ==> g in fields && AnyFilled(g) && Invalid(g)
    ensures forall i :: 0 <= i < |fields| && AnyFilled(fields[i]) && Invalid(fields[i]) ==> fields[i] in r
  {
    if fields == [] then []
    else (if AnyFilled(fields[0]) && Invalid(fields[0]) then [fields[0]] else []) + InvalidFields(fields[1..])
  }

  function Names(fields: seq<Field>): (r: seq<string>)
    ensures |r| == |fields|
    ensures forall i :: 0 <= i < |r| ==> r[i] == fields[i].fieldName
  {
    seq(|fields|, i requires 0 <= i < |fields| => fields[i].fieldName)
  }

  function InvalidMessage(invalid: seq<Field>): string {
    "Invalid thresholds for fields: " + Join(Names(invalid), ", ")
      + ". Both min and max must be numeric and min must be less than max, or both must be empty."
  }

  // ------------------------------------------------------------------ submission

  /** The rows that `submissionFields` keeps. */
  function Filled(fields: seq<Field>): (r: seq<Field>)
    ensures forall g :: g in r ==> g in fields && BothFilled(g)
    ensures forall i :: 0 <= i < |fields| && BothFilled(fields[i]) ==> fields[i] in r
  {
    if fields == [] then []
    else (if BothFilled(fields[0]) then [fields[0]] else []) + Filled(fields[1..])
  }

  /** Filtering keeps the form's order. */
  lemma {:induction false} FilledAppend(a: seq<Field>, b: seq<Field>)
    ensures Filled(a + b) == Filled(a) + Filled(b)
  {
    if a == [] {
      assert a + b == b;
    } else {
      assert (a + b)[0] == a[0];
      assert (a + b)[1..] == a[1..] + b;
      FilledAppend(a[1..], b);
    }
  }

  /** One row as `submissionFields` maps it; its bounds are numbers once the
      row has passed validation, and `0` stands for a bound it never reaches. */
  function Convert(f: Field): Submitted {
    Submitted(f.fieldName, StringToNumber(f.minValue).GetOr(0.0), StringToNumber(f.maxValue).GetOr(0.0))
  }

  /** `submissionFields` */
  function Submission(fields: seq<Field>): (r: seq<Submitted>)
    ensures |r| == |Filled(fields)|
  {
    var kept := Filled(fields);
    seq(|kept|, i requires 0 <= i < |kept| => Convert(kept[i]))
  }

  /** With no invalid row, every posted row carries the parsed numbers of a
      fully filled row, in form order, with min below max. */
  lemma SubmissionMeaning(fields: seq<Field>)
    requires InvalidFields(fields) == []
    ensures forall i :: 0 <= i < |Submission(fields)| ==>
      && Submission(fields)[i].fieldName == Filled(fields)[i].fieldName
      && Some(Submission(fields)[i].minValue) == StringToNumber(Filled(fields)[i].minValue)
      && Some(Submission(fields)[i].maxValue) == StringToNumber(Filled(fields)[i].maxValue)
      && Submission(fields)[i].minValue < Submission(fields)[i].maxValue
  {
    var kept := Filled(fields);
    forall i | 0 <= i < |kept|
      ensures && StringToNumber(kept[i].minValue).Some? && StringToNumber(kept[i].maxValue).Some?
              && StringToNumber(kept[i].minValue).value < StringToNumber(kept[i].maxValue).value
    {
      assert kept[i] in kept;
      var j :| 0 <= j < |fields| && fields[j] == kept[i];
      assert !(AnyFilled(fields[j]) && Invalid(fields[j]));
    }
  }

  // ------------------------------------------------------------------ the form

  const LoadFailed := "Failed to load thresholds. Please try again."

  class Form {
    var fields: seq<Field>
    var error: Option<string>
    var loading: bool
    /** The threshold lists posted, oldest first. */
    var posted: seq<seq<Submitted>>
    /** Whether the form asked to be closed after a save. */
    var closed: bool

    constructor ()
      ensures fields == [] && error == None && !loading && posted == [] && !closed
    {
      fields := [];
      error := None;
      loading := false;
      posted := [];
      closed := false;
    }

    /** The effect run when the form opens; `custom` is `None` when the fetch failed. */
    method Open(channelFields: seq<string>, custom: Option<seq<Threshold>>, defaults: seq<Threshold>)
      modifies this`fields, this`error, this`loading
      ensures custom.Some? ==> fields == Initialize(channelFields, custom.value, defaults) && error == None
      ensures custom.None? ==> fields == old(fields) && error == Some(LoadFailed)
      ensures !loading
    {
      loading := true;
      error := None;
      if custom.Some? {
        fields := Initialize(channelFields, custom.value, defaults);
      } else {
        error := Some(LoadFailed);
      }
      loading := false;
    }

    method HandleFieldChange(index: nat, key: Key, value: string)
      requires index < |fields|
      modifies this`fields
      ensures |fields| == |old(fields)|
      ensures key == MinValue ==> fields[index] == old(fields)[index].(minValue := value)
      ensures key == MaxValue ==> fields[index] == old(fields)[index].(maxValue := value)
      ensures key == FieldName ==> fields[index] == old(fields)[index].(fieldName := value)
      ensures forall j :: 0 <= j < |fields| && j != index ==> fields[j] == old(fields)[j]
    {
      var f := fields[index];
      var g := match key
        case MinValue => f.(minValue := value)
        case MaxValue => f.(maxValue := value)
        case FieldName => f.(fieldName := value);
      fields := fields[index := g];
    }

    /** `handleSubmit`: an invalid row blocks the post and names every invalid
        row; otherwise the filled rows are posted and, when the request
        succeeded, the form closes, else `failure` is shown. */
    method HandleSubmit(requestOk: bool, failure: string)
      modifies this`error, this`loading, this`posted, this`closed
      ensures InvalidFields(fields) != [] ==>
        error == Some(InvalidMessage(InvalidFields(fields))) && posted == old(posted) && closed == old(closed)
      ensures InvalidFields(fields) == [] ==>
        && posted == old(posted) + [Submission(fields)]
        && (requestOk ==> error == None && closed)
        && (!requestOk ==> error == Some(failure) && closed == old(closed))
      ensures !loading
    {
      error := None;
      loading := true;
      var invalid := InvalidFields(fields);
      if |invalid| > 0 {
        error := Some(InvalidMessage(invalid));
        loading := false;
        return;
      }
      posted := posted + [Submission(fields)];
      if requestOk {
        closed := true;
      } else {
        error := Some(failure);
      }
      loading := false;
    }

    /** `handleResetToDefault`: unless declined, posts an empty list and, when
        that succeeded, rebuilds the rows from the defaults. */
    method HandleResetToDefault(confirmed: bool, requestOk: bool, failure: string,
                                channelFields: seq<string>, defaults: seq<Threshold>)
      modifies this`fields, this`error, this`loading, this`posted
      ensures !confirmed ==> fields == old(fields) && error == old(error) && posted == old(posted)
      ensures confirmed ==> posted == old(posted) + [[]]
      ensures confirmed && requestOk ==> fields == ResetFields(channelFields, defaults) && error == None
      ensures confirmed && !requestOk ==> fields == old(fields) && error == Some(failure)
      ensures confirmed ==> !loading
    {
      if !confirmed {
        return;
      }
      error := None;
      loading := true;
      posted := posted + [[]];
      if requestOk {
        fields := ResetFields(channelFields, defaults);
      } else {
        error := Some(failure);
      }
      loading := false;
    }
  }
}
