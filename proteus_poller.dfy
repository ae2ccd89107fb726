/** The sensor log poller of fetch_proteus_data.py: one append-only CSV file
    per device, named after the device, and an in-memory map from device name
    to the entry ids already logged. A poll cycle takes the parsed response of
    the feed endpoint as its input; the file system is a map from file name to
    the rows of that file (a name absent from the map is a file that does not
    exist), and CSV quoting is abstracted away: a row is read back exactly as
    it was written. */
module ProteusPoller {
  import opened Common

  type Row = seq<string>

  /** The header row `initialize_csv` writes into a new file. */
  const Header: Row := ["created_at", "id", "name", "entry_id", "temperature"]

  const FileSuffix: string := "_sensor_data.csv"

  // ------------------------------------------------------------------ naming

  /** `s.replace(from, to)` for single characters. */
  function ReplaceChar(s: string, from: char, to: char): (r: string)
    ensures |r| == |s|
  {
    if s == [] then [] else [if s[0] == from then to else s[0]] + ReplaceChar(s[1..], from, to)
  }

  /** `s.replace(c, "")` */
  function RemoveChar(s: string, c: char): (r: string)
    ensures Lacks(r, c)
  {
    if s == [] then [] else (if s[0] == c then [] else [s[0]]) + RemoveChar(s[1..], c)
  }

  /** The three replacements of `get_csv_filename`, in the order the code applies them. */
  function CleanName(name: string): string {
    RemoveChar(RemoveChar(ReplaceChar(name, ' ', '_'), '"'), '\'')
  }

  /** `get_csv_filename`: the cleaned device name followed by the fixed suffix. */
  function CsvFileName(deviceName: string): (f: string)
    ensures |f| >= |FileSuffix| && f[|f| - |FileSuffix|..] == FileSuffix
    ensures Lacks(f, ' ') && Lacks(f, '"') && Lacks(f, '\'')
  {
    CleanNameLacks(deviceName);
    SuffixedLacks(CleanName(deviceName));
    CleanName(deviceName) + FileSuffix
  }

  /** A name without spaces or quotes keeps them out after the suffix is added, and ends in it. */
  lemma SuffixedLacks(clean: string)
    requires Lacks(clean, ' ') && Lacks(clean, '"') && Lacks(clean, '\'')
    ensures var f := clean + FileSuffix;
      && f[|f| - |FileSuffix|..] == FileSuffix
      && Lacks(f, ' ') && Lacks(f, '"') && Lacks(f, '\'')
  {
    var f := clean + FileSuffix;
    assert f[|clean|..] == FileSuffix;
    assert Lacks(FileSuffix, ' ') && Lacks(FileSuffix, '"') && Lacks(FileSuffix, '\'');
    forall i | |clean| <= i < |f|
      ensures f[i] == FileSuffix[i - |clean|]
    {
    }
  }

  /** What each character of a device name becomes in its file name. */
  function CleanChar(c: char): string {
    if c == ' ' then "_" else if c == '"' || c == '\'' then "" else [c]
  }

  /** Reference definition of the cleaning: character by character. */
  function CleanEach(s: string): string {
    if s == [] then [] else CleanChar(s[0]) + CleanEach(s[1..])
  }

  lemma {:induction false} CleanNameLacks(s: string)
    ensures Lacks(CleanName(s), ' ') && Lacks(CleanName(s), '"') && Lacks(CleanName(s), '\'')
  {
    ReplaceRemovesChar(s, ' ', '_');
    RemoveKeepsLacks(ReplaceChar(s, ' ', '_'), '"', ' ');
    RemoveKeepsLacks(RemoveChar(ReplaceChar(s, ' ', '_'), '"'), '\'', ' ');
    RemoveKeepsLacks(RemoveChar(ReplaceChar(s, ' ', '_'), '"'), '\'', '"');
  }

  lemma {:induction false} ReplaceRemovesChar(s: string, from: char, to: char)
    requires from != to
    ensures Lacks(ReplaceChar(s, from, to), from)
  {
    if s != [] {
      ReplaceRemovesChar(s[1..], from, to);
    }
  }

  lemma {:induction false} RemoveKeepsLacks(s: string, c: char, d: char)
    ensures Lacks(s, d) ==> Lacks(RemoveChar(s, c), d)
  {
    if s != [] {
      RemoveKeepsLacks(s[1..], c, d);
    }
  }

  lemma {:induction false} ReplaceAppend(a: string, b: string, from: char, to: char)
    ensures ReplaceChar(a + b, from, to) == ReplaceChar(a, from, to) + ReplaceChar(b, from, to)
  {
    if a == [] {
      assert a + b == b;
    } else {
      assert (a + b)[1..] == a[1..] + b;
      ReplaceAppend(a[1..], b, from, to);
    }
  }

  lemma {:induction false} RemoveAppend(a: string, b: string, c: char)
    ensures RemoveChar(a + b, c) == RemoveChar(a, c) + RemoveChar(b, c)
  {
    if a == [] {
      assert a + b == b;
    } else {
      assert (a + b)[1..] == a[1..] + b;
      RemoveAppend(a[1..], b, c);
    }
  }

  /** The three passes of `get_csv_filename` distribute over concatenation. */
  lemma CleanNameAppend(a: string, b: string)
    ensures CleanName(a + b) == CleanName(a) + CleanName(b)
  {
    ReplaceAppend(a, b, ' ', '_');
    var ra, rb := ReplaceChar(a, ' ', '_'), ReplaceChar(b, ' ', '_');
    RemoveAppend(ra, rb, '"');
    RemoveAppend(RemoveChar(ra, '"'), RemoveChar(rb, '"'), '\'');
  }

  lemma CleanNameSingle(c: char)
    ensures CleanName([c]) == CleanChar(c)
  {
    var r := ReplaceChar([c], ' ', '_');
    assert r == [if c == ' ' then '_' else c] + ReplaceChar([], ' ', '_');
    var q := RemoveChar(r, '"');
    assert q == (if r[0] == '"' then [] else [r[0]]) + RemoveChar([], '"');
    if q != [] {
      assert RemoveChar(q, '\'') == (if q[0] == '\'' then [] else [q[0]]) + RemoveChar([], '\'');
    }
  }

  /** The three passes of `get_csv_filename` clean each character independently. */
  lemma {:induction false} CleanNameIsPerCharacter(s: string)
    ensures CleanName(s) == CleanEach(s)
  {
    if s != [] {
      CleanNameIsPerCharacter(s[1..]);
      assert s == [s[0]] + s[1..];
      CleanNameAppend([s[0]], s[1..]);
      CleanNameSingle(s[0]);
    }
  }

  /** A name that is already clean is left as it is, so cleaning is idempotent. */
  lemma CleanNameIdempotent(s: string)
    ensures CleanName(CleanName(s)) == CleanName(s)
  {
    CleanNameLacks(s);
    CleanNameIsPerCharacter(CleanName(s));
    CleanEachFixesClean(CleanName(s));
  }

  lemma {:induction false} CleanEachFixesClean(t: string)
    requires Lacks(t, ' ') && Lacks(t, '"') && Lacks(t, '\'')
    ensures CleanEach(t) == t
  {
    if t != [] {
      CleanEachFixesClean(t[1..]);
      assert [t[0]] + t[1..] == t;
    }
  }

  /** Inserting a quote character anywhere in a name never changes its file. */
  lemma QuotesNeverMatter(a: string, b: string, q: char)
    requires q == '"' || q == '\''
    ensures CsvFileName(a + [q] + b) == CsvFileName(a + b)
  {
    CleanNameAppend(a + [q], b);
    CleanNameAppend(a, [q]);
    CleanNameAppend(a, b);
    CleanNameSingle(q);
  }

  /** Quote characters are dropped, so a quoted and an unquoted device name
      share one file: the collision the naming scheme accepts. */
  lemma QuotedNameCollides()
    ensures CsvFileName("Proteus \"A\"") == CsvFileName("Proteus A")
  {
    var a, b := "Proteus ", "A";
    QuotesNeverMatter(a, b + ['"'], '"');
    QuotesNeverMatter(a + b, [], '"');
    assert a + ['"'] + (b + ['"']) == "Proteus \"A\"";
    assert a + (b + ['"']) == (a + b) + ['"'] + [];
    assert (a + b) + [] == "Proteus A";
  }

  // ------------------------------------------------------------------ dates

  /** The fields `strptime` reads from `%Y-%m-%dT%H:%M:%SZ`. */
  datatype Stamp = Stamp(year: nat, month: nat, day: nat, hour: nat, minute: nat, second: nat)

  /** Position of the first character of `s` at or after `i` that is one of
      `stops`, or `|s|`. */
  function Until(s: string, i: nat, stops: set<char>): (k: nat)
    requires i <= |s|
    ensures i <= k <= |s|
    ensures forall j :: i <= j < k ==> s[j] !in stops
    ensures k < |s| ==> s[k] in stops
    decreases |s| - i
  {
    if i == |s| || s[i] in stops then i else Until(s, i + 1, stops)
  }

  function TwoValue(a: char, b: char): nat
    requires IsDigit(a) && IsDigit(b)
  {
    10 * DigitValue(a) + DigitValue(b)
  }

  /** A numeric directive of the format and the literal after it: one digit
      or two digits whose value lies in `lo..hi` (`%m` is 1..12, `%d` 1..31,
      `%H` 0..23, `%M` 0..59, `%S` 0..61; a lone digit is never below `lo`),
      for `%d` also a space and a digit, then one of the characters `stops`
      (the literal matches in either case). */
  datatype Directive = Directive(lo: nat, hi: nat, spaced: bool, stops: set<char>)

  const MonthDirective := Directive(1, 12, false, {'-'})
  const DayDirective := Directive(1, 31, true, {'T', 't'})
  const HourDirective := Directive(0, 23, false, {':'})
  const MinuteDirective := Directive(0, 59, false, {':'})
  const SecondDirective := Directive(0, 61, false, {'Z', 'z'})

  /** Everything of `%Y-%m-%dT%H:%M:%SZ` after the year and its dash. */
  const AfterYear: seq<Directive> := [MonthDirective, DayDirective, HourDirective, MinuteDirective, SecondDirective]

  /** The characters `s[i..k]` form a field the directive accepts. */
  predicate Fits(s: string, i: nat, k: nat, d: Directive)
    requires i <= k <= |s|
  {
    (k == i + 1 && IsDigit(s[i]) && d.lo <= DigitValue(s[i]) <= d.hi)
    || (k == i + 2 && IsDigit(s[i]) && IsDigit(s[i + 1]) && d.lo <= TwoValue(s[i], s[i + 1]) <= d.hi)
    || (d.spaced && k == i + 2 && s[i] == ' ' && IsDigit(s[i + 1]) && d.lo <= DigitValue(s[i + 1]) <= d.hi)
  }

  /** `int()` of a field; a leading space is ignored. */
  function FieldValue(s: string, i: nat, k: nat, d: Directive): (v: nat)
    requires i <= k <= |s| && Fits(s, i, k, d)
    ensures d.lo <= v <= d.hi
  {
    if k == i + 1 then DigitValue(s[i])
    else if s[i] == ' ' then DigitValue(s[i + 1])
    else TwoValue(s[i], s[i + 1])
  }

  /** The values of the fields of `s` from position `i`, read directive by
      directive: each field ends at the first character its directive stops
      at (no field holds one) and nothing may follow the last. */
  function ParseFields(s: string, i: nat, ds: seq<Directive>): (vs: Option<seq<nat>>)
    requires i <= |s|
    ensures vs.Some? ==> |vs.value| == |ds|
    ensures vs.Some? ==> forall j :: 0 <= j < |ds| ==> ds[j].lo <= vs.value[j] <= ds[j].hi
    decreases |ds|
  {
    if ds == [] then (if i == |s| then Some([]) else None)
    else
      var k := Until(s, i, ds[0].stops);
      if k == |s| || !Fits(s, i, k, ds[0]) then None
      else match ParseFields(s, k + 1, ds[1..])
        case None => None
        case Some(rest) => Some([FieldValue(s, i, k, ds[0])] + rest)
  }

  function YearValue(a: char, b: char, c: char, d: char): nat
    requires IsDigit(a) && IsDigit(b) && IsDigit(c) && IsDigit(d)
  {
    1000 * DigitValue(a) + 100 * DigitValue(b) + 10 * DigitValue(c) + DigitValue(d)
  }

  /** The match of `strptime`'s pattern for `%Y-%m-%dT%H:%M:%SZ`: four digits
      of year, a dash, then the other fields. */
  function ParseStamp(s: string): (r: Option<Stamp>)
    ensures r.Some? ==> r.value.year < 10000 && 1 <= r.value.month <= 12 && 1 <= r.value.day <= 31
                        && r.value.hour <= 23 && r.value.minute <= 59 && r.value.second <= 61
  {
    if |s| < 5 || !(IsDigit(s[0]) && IsDigit(s[1]) && IsDigit(s[2]) && IsDigit(s[3])) || s[4] != '-' then None
    else match ParseFields(s, 5, AfterYear)
      case None => None
      case Some(vs) => Some(Stamp(YearValue(s[0], s[1], s[2], s[3]), vs[0], vs[1], vs[2], vs[3], vs[4]))
  }

  predicate IsLeapYear(y: nat) {
    y % 4 == 0 && (y % 100 != 0 || y % 400 == 0)
  }

  function DaysInMonth(y: nat, m: nat): nat
    requires 1 <= m <= 12
  {
    if m == 2 then (if IsLeapYear(y) then 29 else 28)
    else if m == 4 || m == 6 || m == 9 || m == 11 then 30
    else 31
  }

  /** The checks `datetime` makes on the fields: a year from 1, a day of the
      month and a second below 60. */
  predicate ValidStamp(st: Stamp) {
    1 <= st.year && 1 <= st.month <= 12 && 1 <= st.day <= DaysInMonth(st.year, st.month)
    && st.hour < 24 && st.minute < 60 && st.second < 60
  }

  /** The fields of a stamp fit their zero-padded widths. */
  predicate Printable(st: Stamp) {
    st.year < 10000 && st.month < 100 && st.day < 100 && st.hour < 100 && st.minute < 100 && st.second < 100
  }

  /** `strftime("%Y-%m-%d %H:%M:%S UTC")`: every field zero-padded. */
  function StampText(st: Stamp): (r: string)
    requires Printable(st)
    ensures |r| == 23
  {
    var y, mo, d, h, mi, se := st.year, st.month, st.day, st.hour, st.minute, st.second;
    [DigitChar(y / 1000), DigitChar(y / 100 % 10), DigitChar(y / 10 % 10), DigitChar(y % 10), '-',
     DigitChar(mo / 10), DigitChar(mo % 10), '-', DigitChar(d / 10), DigitChar(d % 10), ' ',
     DigitChar(h / 10), DigitChar(h % 10), ':', DigitChar(mi / 10), DigitChar(mi % 10), ':',
     DigitChar(se / 10), DigitChar(se % 10), ' ', 'U', 'T', 'C']
  }

  /** `format_date`: `strptime` with `%Y-%m-%dT%H:%M:%SZ`, then `strftime`;
      an input `strptime` rejects is the error `None`. */
  function FormatDate(s: string): (r: Option<string>)
    ensures r.Some? <==> ParseStamp(s).Some? && ValidStamp(ParseStamp(s).value)
    ensures r.Some? ==> r.value == StampText(ParseStamp(s).value)
  {
    match ParseStamp(s)
    case None => None
    case Some(st) => if ValidStamp(st) then Some(StampText(st)) else None
  }

  /** The stored form read back into the origin form. */
  function StoredToOrigin(t: string): string
    requires |t| >= 19
  {
    t[..10] + "T" + t[11..19] + "Z"
  }

  /** The canonical origin text of a stamp: every field zero-padded, capital letters. */
  function OriginText(st: Stamp): (r: string)
    requires Printable(st)
    ensures |r| == 20
  {
    var y, mo, d, h, mi, se := st.year, st.month, st.day, st.hour, st.minute, st.second;
    [DigitChar(y / 1000), DigitChar(y / 100 % 10), DigitChar(y / 10 % 10), DigitChar(y % 10), '-',
     DigitChar(mo / 10), DigitChar(mo % 10), '-', DigitChar(d / 10), DigitChar(d % 10), 'T',
     DigitChar(h / 10), DigitChar(h % 10), ':', DigitChar(mi / 10), DigitChar(mi % 10), ':',
     DigitChar(se / 10), DigitChar(se % 10), 'Z']
  }

  /** No digit and no space ends a field. */
  predicate StopsAreLiterals(d: Directive) {
    forall c :: c in d.stops ==> !IsDigit(c) && c != ' '
  }

  /** A field that fits its directive, followed by a character the directive
      stops at: the field is read and parsing goes on after that character. */
  lemma ParseFieldsStep(s: string, i: nat, k: nat, d: Directive, tail: seq<Directive>, vs: seq<nat>)
    requires i <= k < |s| && Fits(s, i, k, d) && s[k] in d.stops && StopsAreLiterals(d)
    requires ParseFields(s, k + 1, tail) == Some(vs)
    ensures ParseFields(s, i, [d] + tail) == Some([FieldValue(s, i, k, d)] + vs)
  {
    assert forall j :: i <= j < k ==> s[j] !in d.stops;
    assert Until(s, i, d.stops) == k;
    assert ([d] + tail)[0] == d && ([d] + tail)[1..] == tail;
  }

  /** `%H:%M:%SZ` at the end of `s`, its separators at `p3`, `p4` and `p5`. */
  lemma TimeAt(s: string, i: nat, p3: nat, p4: nat)
    requires i < p3 < p4 < |s| - 1
    requires s[p3] == ':' && s[p4] == ':' && s[|s| - 1] in {'Z', 'z'}
    requires Fits(s, i, p3, HourDirective) && Fits(s, p3 + 1, p4, MinuteDirective) && Fits(s, p4 + 1, |s| - 1, SecondDirective)
    ensures ParseFields(s, i, [HourDirective, MinuteDirective, SecondDirective])
            == Some([FieldValue(s, i, p3, HourDirective), FieldValue(s, p3 + 1, p4, MinuteDirective),
                     FieldValue(s, p4 + 1, |s| - 1, SecondDirective)])
  {
    var p5 := |s| - 1;
    var vh, vm, vs := FieldValue(s, i, p3, HourDirective), FieldValue(s, p3 + 1, p4, MinuteDirective), FieldValue(s, p4 + 1, p5, SecondDirective);
    assert ParseFields(s, p5 + 1, []) == Some([]);
    ParseFieldsStep(s, p4 + 1, p5, SecondDirective, [], []);
    assert [SecondDirective] + [] == [SecondDirective] && [vs] + [] == [vs];
    ParseFieldsStep(s, p3 + 1, p4, MinuteDirective, [SecondDirective], [vs]);
    assert [MinuteDirective] + [SecondDirective] == [MinuteDirective, SecondDirective] && [vm] + [vs] == [vm, vs];
    ParseFieldsStep(s, i, p3, HourDirective, [MinuteDirective, SecondDirective], [vm, vs]);
    assert [HourDirective] + [MinuteDirective, SecondDirective] == [HourDirective, MinuteDirective, SecondDirective];
    assert [vh] + [vm, vs] == [vh, vm, vs];
  }

  /** `%dT%H:%M:%SZ` at the end of `s`, its separators at `p2` .. `p4` and at the end. */
  lemma DayTimeAt(s: string, i: nat, p2: nat, p3: nat, p4: nat)
    requires i < p2 < p3 < p4 < |s| - 1
    requires s[p2] in {'T', 't'} && s[p3] == ':' && s[p4] == ':' && s[|s| - 1] in {'Z', 'z'}
    requires Fits(s, i, p2, DayDirective) && Fits(s, p2 + 1, p3, HourDirective)
    requires Fits(s, p3 + 1, p4, MinuteDirective) && Fits(s, p4 + 1, |s| - 1, SecondDirective)
    ensures ParseFields(s, i, [DayDirective] + [HourDirective, MinuteDirective, SecondDirective])
            == Some([FieldValue(s, i, p2, DayDirective)] + [FieldValue(s, p2 + 1, p3, HourDirective),
                    FieldValue(s, p3 + 1, p4, MinuteDirective), FieldValue(s, p4 + 1, |s| - 1, SecondDirective)])
  {
    TimeAt(s, p2 + 1, p3, p4);
    ParseFieldsStep(s, i, p2, DayDirective, [HourDirective, MinuteDirective, SecondDirective],
                    [FieldValue(s, p2 + 1, p3, HourDirective), FieldValue(s, p3 + 1, p4, MinuteDirective),
                     FieldValue(s, p4 + 1, |s| - 1, SecondDirective)]);
  }

  /** `%m-` from position 5 of `s`, followed by fields read as `rest`. */
  lemma MonthOnwardAt(s: string, p1: nat, rest: seq<nat>)
    requires 5 < p1 < |s| && s[p1] == '-' && Fits(s, 5, p1, MonthDirective)
    requires ParseFields(s, p1 + 1, [DayDirective] + [HourDirective, MinuteDirective, SecondDirective]) == Some(rest)
    ensures ParseFields(s, 5, AfterYear) == Some([FieldValue(s, 5, p1, MonthDirective)] + rest)
  {
    ParseFieldsStep(s, 5, p1, MonthDirective, [DayDirective] + [HourDirective, MinuteDirective, SecondDirective], rest);
    assert [MonthDirective] + ([DayDirective] + [HourDirective, MinuteDirective, SecondDirective]) == AfterYear;
  }

  /** The layout `%Y-%m-%dT%H:%M:%SZ`, its separators after the year at
      `p1` .. `p4` and at the end, in either case of the letters, with fields
      that fit their directives: the stamp is read from those fields. */
  lemma ParseAt(s: string, p1: nat, p2: nat, p3: nat, p4: nat)
    requires 5 < p1 < p2 < p3 < p4 < |s| - 1
    requires IsDigit(s[0]) && IsDigit(s[1]) && IsDigit(s[2]) && IsDigit(s[3]) && s[4] == '-'
    requires s[p1] == '-' && s[p2] in {'T', 't'} && s[p3] == ':' && s[p4] == ':' && s[|s| - 1] in {'Z', 'z'}
    requires Fits(s, 5, p1, MonthDirective) && Fits(s, p1 + 1, p2, DayDirective)
    requires Fits(s, p2 + 1, p3, HourDirective) && Fits(s, p3 + 1, p4, MinuteDirective) && Fits(s, p4 + 1, |s| - 1, SecondDirective)
    ensures ParseStamp(s) == Some(Stamp(YearValue(s[0], s[1], s[2], s[3]),
      FieldValue(s, 5, p1, MonthDirective), FieldValue(s, p1 + 1, p2, DayDirective), FieldValue(s, p2 + 1, p3, HourDirective),
      FieldValue(s, p3 + 1, p4, MinuteDirective), FieldValue(s, p4 + 1, |s| - 1, SecondDirective)))
  {
    var vh, vm, vs := FieldValue(s, p2 + 1, p3, HourDirective), FieldValue(s, p3 + 1, p4, MinuteDirective), FieldValue(s, p4 + 1, |s| - 1, SecondDirective);
    var vd, vmo := FieldValue(s, p1 + 1, p2, DayDirective), FieldValue(s, 5, p1, MonthDirective);
    DayTimeAt(s, p1 + 1, p2, p3, p4);
    MonthOnwardAt(s, p1, [vd] + [vh, vm, vs]);
    assert [vmo] + ([vd] + [vh, vm, vs]) == [vmo, vd, vh, vm, vs];
  }

  /** Two zero-padded digits read back as the number they write. */
  lemma TwoDigitsOf(n: nat)
    requires n < 100
    ensures TwoValue(DigitChar(n / 10), DigitChar(n % 10)) == n
  {
  }

  /** A zero-padded field of the canonical text fits a directive whose range holds its value. */
  lemma PaddedFits(s: string, i: nat, n: nat, d: Directive)
    requires i + 2 <= |s| && n < 100 && d.lo <= n <= d.hi
    requires s[i] == DigitChar(n / 10) && s[i + 1] == DigitChar(n % 10)
    ensures Fits(s, i, i + 2, d) && FieldValue(s, i, i + 2, d) == n
  {
    TwoDigitsOf(n);
  }

  /** Four zero-padded digits read back as the number they write. */
  lemma FourDigitsOf(n: nat)
    requires n < 10000
    ensures YearValue(DigitChar(n / 1000), DigitChar(n / 100 % 10), DigitChar(n / 10 % 10), DigitChar(n % 10)) == n
  {
    var q, r := n / 100, n % 100;
    assert n == 100 * q + r;
    assert n / 1000 == q / 10 && n / 100 % 10 == q % 10;
    assert n / 10 % 10 == r / 10 && n % 10 == r % 10;
    TwoDigitsOf(q);
    TwoDigitsOf(r);
  }

  /** The canonical text of a stamp with fields in their ranges parses back to it. */
  lemma ParseOriginText(st: Stamp)
    requires st.year < 10000 && 1 <= st.month <= 12 && 1 <= st.day <= 31
    requires st.hour <= 23 && st.minute <= 59 && st.second <= 61
    ensures ParseStamp(OriginText(st)) == Some(st)
  {
    var s := OriginText(st);
    FourDigitsOf(st.year);
    PaddedFits(s, 5, st.month, MonthDirective);
    PaddedFits(s, 8, st.day, DayDirective);
    PaddedFits(s, 11, st.hour, HourDirective);
    PaddedFits(s, 14, st.minute, MinuteDirective);
    PaddedFits(s, 17, st.second, SecondDirective);
    ParseAt(s, 7, 10, 13, 16);
  }

  /** The stored text, read back into the origin form, is the canonical text. */
  lemma StoredIsCanonical(st: Stamp)
    requires Printable(st)
    ensures StoredToOrigin(StampText(st)) == OriginText(st)
  {
    var t, o := StampText(st), OriginText(st);
    assert t[..10] == o[..10];
    assert t[11..19] == o[11..19];
    assert o == o[..10] + "T" + o[11..19] + "Z";
  }

  /** Reformatting loses nothing: the stored form, read back into the origin
      form, holds the same fields and formats to the same stored form. */
  lemma FormatDateNormalises(s: string)
    requires FormatDate(s).Some?
    ensures var t := FormatDate(s).value;
            |t| == 23 && ParseStamp(StoredToOrigin(t)) == ParseStamp(s) && FormatDate(StoredToOrigin(t)) == FormatDate(s)
  {
    var st := ParseStamp(s).value;
    StoredIsCanonical(st);
    ParseOriginText(st);
  }

  /** An input already in the canonical layout comes back unchanged. */
  lemma FormatDateRoundTrip(st: Stamp)
    requires ValidStamp(st) && st.year < 10000
    ensures FormatDate(OriginText(st)).Some?
    ensures StoredToOrigin(FormatDate(OriginText(st)).value) == OriginText(st)
  {
    ParseOriginText(st);
    StoredIsCanonical(st);
  }

  /** The example timestamp reads as 5 March 2024, 10:15:30. */
  lemma ExampleParses(s: string)
    requires s == "2024-03-05T10:15:30Z"
    ensures ParseStamp(s) == Some(Stamp(2024, 3, 5, 10, 15, 30))
  {
    ParseAt(s, 7, 10, 13, 16);
  }

  lemma ExampleStored()
    ensures StampText(Stamp(2024, 3, 5, 10, 15, 30)) == "2024-03-05 10:15:30 UTC"
  {
  }

  lemma FormatDateExample(s: string)
    requires s == "2024-03-05T10:15:30Z"
    ensures FormatDate(s) == Some("2024-03-05 10:15:30 UTC")
  {
    ExampleParses(s);
    ExampleStored();
  }

  /** Single-digit fields and lower-case letters fit the pattern. */
  lemma LenientParses(s: string)
    requires s == "2024-3-5t1:2:3z"
    ensures ParseStamp(s) == Some(Stamp(2024, 3, 5, 1, 2, 3))
  {
    ParseAt(s, 6, 8, 10, 12);
  }

  lemma LenientStored()
    ensures StampText(Stamp(2024, 3, 5, 1, 2, 3)) == "2024-03-05 01:02:03 UTC"
  {
  }

  /** `strptime` accepts single-digit fields and lower-case letters; the
      stored form is zero-padded. */
  lemma FormatDateLenient(s: string)
    requires s == "2024-3-5t1:2:3z"
    ensures FormatDate(s) == Some("2024-03-05 01:02:03 UTC")
  {
    LenientParses(s);
    LenientStored();
  }

  /** The pattern itself lets 29 February 2023 through. */
  lemma BadDayParses(s: string)
    requires s == "2023-02-29T00:00:00Z"
    ensures ParseStamp(s) == Some(Stamp(2023, 2, 29, 0, 0, 0))
  {
    ParseAt(s, 7, 10, 13, 16);
  }

  /** 2023 is not a leap year, so its 29 February is rejected. */
  lemma FormatDateRejectsBadDay(s: string)
    requires s == "2023-02-29T00:00:00Z"
    ensures FormatDate(s) == None
  {
    BadDayParses(s);
  }

  /** `%S` reads up to 61. */
  lemma LeapSecondParses(s: string)
    requires s == "2024-03-05T10:15:60Z"
    ensures ParseStamp(s) == Some(Stamp(2024, 3, 5, 10, 15, 60))
  {
    ParseAt(s, 7, 10, 13, 16);
  }

  /** `datetime` rejects a second the pattern accepts. */
  lemma FormatDateRejectsLeapSecond(s: string)
    requires s == "2024-03-05T10:15:60Z"
    ensures FormatDate(s) == None
  {
    LeapSecondParses(s);
  }

  // ------------------------------------------------------------------ log store

  /** Entry ids (fourth field) of the rows that have at least four fields. */
  function IdsOf(rows: seq<Row>): set<string> {
    if rows == [] then {}
    else
      var last := rows[|rows| - 1];
      IdsOf(rows[..|rows| - 1]) + (if |last| >= 4 then {last[3]} else {})
  }

  /** The entry ids `load_existing_entries` reads from a file: the first row is skipped as the header. */
  function EntryIds(rows: seq<Row>): set<string> {
    if rows == [] then {} else IdsOf(rows[1..])
  }

  lemma {:induction false} IdsOfMembership(rows: seq<Row>, x: string)
    ensures x in IdsOf(rows) <==> exists i :: 0 <= i < |rows| && |rows[i]| >= 4 && rows[i][3] == x
  {
    if rows != [] {
      IdsOfMembership(rows[..|rows| - 1], x);
      assert forall i :: 0 <= i < |rows| - 1 ==> rows[..|rows| - 1][i] == rows[i];
    }
  }

  /** Appending a row to a file with a header adds exactly that row's id. */
  lemma EntryIdsAppend(rows: seq<Row>, r: Row)
    requires rows != [] && |r| >= 4
    ensures EntryIds(rows + [r]) == EntryIds(rows) + {r[3]}
  {
    assert (rows + [r])[1..] == rows[1..] + [r];
    assert (rows[1..] + [r])[..|rows[1..] + [r]| - 1] == rows[1..];
  }

  /** A file's entry ids are unique among its data rows. */
  ghost predicate UniqueIds(rows: seq<Row>) {
    forall i, j :: 1 <= i < j < |rows| && |rows[i]| >= 4 && |rows[j]| >= 4 ==> rows[i][3] != rows[j][3]
  }

  /** `initialize_csv` on the file map: a missing file is created with the header only. */
  function EnsureFile(files: map<string, seq<Row>>, f: string): (r: map<string, seq<Row>>)
    ensures f in r && r.Keys == files.Keys + {f}
    ensures f in files ==> r == files
    ensures f !in files ==> r[f] == [Header]
    ensures forall g :: g in files ==> r[g] == files[g]
  {
    if f in files then files else files[f := [Header]]
  }

  /** However often the file is initialised, it holds one header and its rows stay as they were. */
  lemma HeaderOnce(files: map<string, seq<Row>>, f: string, n: nat)
    ensures Repeat(files, f, n + 1) == EnsureFile(files, f)
  {
    if n > 0 {
      HeaderOnce(files, f, n - 1);
    }
  }

  /** `initialize_csv` called `n` times in a row. */
  function Repeat(files: map<string, seq<Row>>, f: string, n: nat): map<string, seq<Row>> {
    if n == 0 then files else EnsureFile(Repeat(files, f, n - 1), f)
  }

  // ------------------------------------------------------------------ poll cycle

  /** The channel object of a response; `None` fields are keys the response lacks. */
  datatype Channel = Channel(id: Option<string>, name: Option<string>)

  /** One feed record: the text of `str(entry_id)`, the timestamp and the measurement
      as the CSV writer renders it; `None` is a missing key. */
  datatype Feed = Feed(createdAt: Option<string>, entryId: Option<string>, field1: Option<string>)

  /** The outcome of one fetch: no usable JSON document, or the parsed document
      (`channel` absent, `feeds` absent or null are `None`). */
  datatype Snapshot = FetchFailed | Payload(channel: Option<Channel>, feeds: Option<seq<Feed>>)

  /** The poller's state: the files on disk and the module-level `device_entries`. */
  datatype PollState = PollState(files: map<string, seq<Row>>, entries: map<string, set<string>>)

  function Known(entries: map<string, set<string>>, device: string): set<string> {
    if device in entries then entries[device] else {}
  }

  /** `load_existing_entries` on the state: the device's set grows by the ids in its file. */
  function Load(st: PollState, device: string): (r: PollState)
    ensures r.files == st.files
    ensures r.entries.Keys == st.entries.Keys + {device}
    ensures r.entries[device] == Known(st.entries, device) +
      (if CsvFileName(device) in st.files then EntryIds(st.files[CsvFileName(device)]) else {})
    ensures forall d :: d in st.entries && d != device ==> r.entries[d] == st.entries[d]
  {
    var f := CsvFileName(device);
    var known := Known(st.entries, device) + (if f in st.files then EntryIds(st.files[f]) else {});
    PollState(st.files, st.entries[device := known])
  }

  /** The row `fetch_and_save_data` appends for a feed. */
  function NewRow(date: string, channelId: string, device: string, entryId: string, temperature: string): (r: Row)
    ensures |r| == 5 && r[3] == entryId
  {
    [date, channelId, device, entryId, temperature]
  }

  /** The state a cycle for `device` reaches once it has created the device's
      file if missing and read its ids. */
  function Loaded(st: PollState, device: string): PollState {
    Load(PollState(EnsureFile(st.files, CsvFileName(device)), st.entries), device)
  }

  /** One call of `fetch_and_save_data`: its result and the new state. Every
      exception is a `false` result with the state reached before it was raised. */
  function Cycle(st: PollState, snap: Snapshot): (bool, PollState) {
    match snap
    case FetchFailed => (false, st)
    case Payload(channel, feeds) =>
      if channel.None? || channel.value.name.None? then (false, st)
      else
        var device := channel.value.name.value;
        var f := CsvFileName(device);
        var loaded := Loaded(st, device);
        var known := loaded.entries[device];
        if feeds.None? || feeds.value == [] then (true, loaded)
        else
          var feed := feeds.value[0];
          if feed.entryId.None? then (false, loaded)
          else if feed.entryId.value in known then (true, loaded)
          else if feed.createdAt.None? || FormatDate(feed.createdAt.value).None? then (false, loaded)
          else if feed.field1.None? || channel.value.id.None? then (false, loaded)
          else
            var row := NewRow(FormatDate(feed.createdAt.value).value, channel.value.id.value,
                              device, feed.entryId.value, feed.field1.value);
            (true, PollState(loaded.files[f := loaded.files[f] + [row]],
                             loaded.entries[device := known + {feed.entryId.value}]))
  }

  /** The driver loop over a finite run of snapshots. */
  function RunCycles(st: PollState, snaps: seq<Snapshot>): (seq<bool>, PollState)
    decreases |snaps|
  {
    if snaps == [] then ([], st)
    else
      var (ok, st1) := Cycle(st, snaps[0]);
      var (oks, st2) := RunCycles(st1, snaps[1..]);
      ([ok] + oks, st2)
  }

  // ------------------------------------------------------------------ properties of a cycle

  /** A snapshot whose newest feed has every key and a well-formed timestamp. */
  predicate Complete(snap: Snapshot) {
    snap.Payload? && snap.channel.Some? && snap.channel.value.name.Some? && snap.channel.value.id.Some?
    && snap.feeds.Some? && snap.feeds.value != []
    && var feed := snap.feeds.value[0];
    feed.entryId.Some? && feed.createdAt.Some? && feed.field1.Some?
    && FormatDate(feed.createdAt.value).Some?
  }

  /** Files only grow, by at most one row each, and every prior row stays unchanged. */
  lemma CycleAppendsAtMostOneRow(st: PollState, snap: Snapshot)
    ensures var after := Cycle(st, snap).1;
      forall g :: g in st.files ==> g in after.files && st.files[g] <= after.files[g]
                                     && |after.files[g]| <= |st.files[g]| + 1
  {
  }

  /** Ids are never forgotten. */
  lemma CycleKeepsIds(st: PollState, snap: Snapshot, device: string)
    ensures Known(st.entries, device) <= Known(Cycle(st, snap).1.entries, device)
  {
  }

  /** Only the first feed is looked at: later feeds are never written. */
  lemma OnlyFirstFeedMatters(st: PollState, channel: Option<Channel>, first: Feed, rest: seq<Feed>)
    ensures Cycle(st, Payload(channel, Some([first] + rest))) == Cycle(st, Payload(channel, Some([first])))
  {
  }

  /** A response without feeds succeeds and adds no row; it can only create the header-only file. */
  lemma EmptyFeedsAddNoRow(st: PollState, channel: Channel, feeds: Option<seq<Feed>>)
    requires feeds.None? || feeds.value == []
    requires channel.name.Some?
    ensures var (ok, after) := Cycle(st, Payload(Some(channel), feeds));
      ok && after.files == EnsureFile(st.files, CsvFileName(channel.name.value))
  {
  }

  /** A failed fetch changes nothing and reports failure. */
  lemma FailedFetchChangesNothing(st: PollState)
    ensures Cycle(st, FetchFailed) == (false, st)
  {
  }

  /** A response without a channel fails before anything is touched. */
  lemma MissingChannelFails(st: PollState, feeds: Option<seq<Feed>>)
    ensures Cycle(st, Payload(None, feeds)) == (false, st)
  {
  }

  /** A channel without a name fails before the file is created. */
  lemma MissingNameFails(st: PollState, id: Option<string>, feeds: Option<seq<Feed>>)
    ensures Cycle(st, Payload(Some(Channel(id, None)), feeds)) == (false, st)
  {
  }

  /** The newest feed carries an id, and the device's set lacks it once the file is read. */
  predicate UnseenId(st: PollState, snap: Snapshot) {
    snap.Payload? && snap.channel.Some? && snap.channel.value.name.Some?
    && snap.feeds.Some? && snap.feeds.value != [] && snap.feeds.value[0].entryId.Some?
    && snap.feeds.value[0].entryId.value !in Loaded(st, snap.channel.value.name.value).entries[snap.channel.value.name.value]
  }

  /** A newest feed without an id fails after the file is read, writing nothing. */
  lemma MissingEntryIdFails(st: PollState, channel: Channel, feed: Feed, rest: seq<Feed>)
    requires channel.name.Some? && feed.entryId.None?
    ensures Cycle(st, Payload(Some(channel), Some([feed] + rest))) == (false, Loaded(st, channel.name.value))
  {
  }

  /** An unseen entry without a timestamp fails before the write. */
  lemma MissingDateFails(st: PollState, snap: Snapshot)
    requires UnseenId(st, snap) && snap.feeds.value[0].createdAt.None?
    ensures Cycle(st, snap) == (false, Loaded(st, snap.channel.value.name.value))
  {
  }

  /** An unseen entry whose timestamp does not parse fails before the write:
      no row is added and the id is not recorded. */
  lemma BadDateWritesNothing(st: PollState, snap: Snapshot)
    requires UnseenId(st, snap) && snap.feeds.value[0].createdAt.Some?
    requires FormatDate(snap.feeds.value[0].createdAt.value).None?
    ensures Cycle(st, snap) == (false, Loaded(st, snap.channel.value.name.value))
  {
  }

  /** An unseen entry without a measurement fails before the write. */
  lemma MissingTemperatureFails(st: PollState, snap: Snapshot)
    requires UnseenId(st, snap) && snap.feeds.value[0].createdAt.Some?
    requires FormatDate(snap.feeds.value[0].createdAt.value).Some? && snap.feeds.value[0].field1.None?
    ensures Cycle(st, snap) == (false, Loaded(st, snap.channel.value.name.value))
  {
  }

  /** An unseen entry on a channel without an id fails while the row is built: nothing is written. */
  lemma MissingChannelIdFails(st: PollState, snap: Snapshot)
    requires UnseenId(st, snap) && snap.feeds.value[0].createdAt.Some?
    requires FormatDate(snap.feeds.value[0].createdAt.value).Some? && snap.channel.value.id.None?
    ensures Cycle(st, snap) == (false, Loaded(st, snap.channel.value.name.value))
  {
  }

  /** Loading a device twice learns nothing new the second time. */
  lemma ReloadIsStable(st: PollState, device: string)
    ensures Loaded(Loaded(st, device), device) == Loaded(st, device)
  {
    var loaded := Loaded(st, device);
    var again := Loaded(loaded, device);
    assert again.entries[device] == loaded.entries[device];
    assert again.entries == loaded.entries;
  }

  /** A complete snapshot with an unseen id succeeds: exactly its row is
      appended after all prior rows of the device's file, and its id joins the
      device's set as loaded. */
  lemma CycleOfNewId(st: PollState, snap: Snapshot)
    requires Complete(snap) && UnseenId(st, snap)
    ensures var device := snap.channel.value.name.value;
      var f := CsvFileName(device);
      var loaded := Loaded(st, device);
      var feed := snap.feeds.value[0];
      var row := [FormatDate(feed.createdAt.value).value, snap.channel.value.id.value,
                  device, feed.entryId.value, feed.field1.value];
      Cycle(st, snap) == (true, PollState(EnsureFile(st.files, f)[f := EnsureFile(st.files, f)[f] + [row]],
                                          loaded.entries[device := loaded.entries[device] + {feed.entryId.value}]))
  {
  }

  /** Any other snapshot with a device name ends in the loaded state. */
  lemma CycleWithoutRow(st: PollState, snap: Snapshot)
    requires snap.Payload? && snap.channel.Some? && snap.channel.value.name.Some?
    requires !(Complete(snap) && snap.feeds.value[0].entryId.value !in Loaded(st, snap.channel.value.name.value).entries[snap.channel.value.name.value])
    ensures Cycle(st, snap).1 == Loaded(st, snap.channel.value.name.value)
  {
  }

  /** A snapshot whose id is already known succeeds and ends in the loaded state. */
  lemma CycleOfKnownId(st: PollState, snap: Snapshot)
    requires snap.Payload? && snap.channel.Some? && snap.channel.value.name.Some?
    requires snap.feeds.Some? && snap.feeds.value != [] && snap.feeds.value[0].entryId.Some?
    requires snap.feeds.value[0].entryId.value in Loaded(st, snap.channel.value.name.value).entries[snap.channel.value.name.value]
    ensures Cycle(st, snap) == (true, Loaded(st, snap.channel.value.name.value))
  {
  }

  /** Loading only adds a header-only file, whose ids are trivially distinct. */
  lemma LoadedKeepsUnique(st: PollState, device: string)
    requires forall g :: g in st.files ==> UniqueIds(st.files[g])
    ensures forall g :: g in Loaded(st, device).files ==> UniqueIds(Loaded(st, device).files[g])
  {
  }

  /** Appending a row whose id the loaded state does not know keeps every
      file's ids distinct. */
  lemma AppendedKeepsUnique(st: PollState, device: string, row: Row)
    requires forall g :: g in st.files ==> UniqueIds(st.files[g])
    requires |row| >= 4 && row[3] !in Loaded(st, device).entries[device]
    ensures forall g :: g in Appended(st, device, row).files ==> UniqueIds(Appended(st, device, row).files[g])
  {
    var f := CsvFileName(device);
    var loaded := Loaded(st, device);
    LoadedKeepsUnique(st, device);
    var rows := loaded.files[f];
    forall i | 1 <= i < |rows| && |rows[i]| >= 4
      ensures rows[i][3] != row[3]
    {
      IdsOfMembership(rows[1..], rows[i][3]);
      assert rows[1..][i - 1] == rows[i];
    }
    assert Appended(st, device, row).files[f] == rows + [row];
  }

  /** The state after appending a row with its id to the loaded state. */
  function Appended(st: PollState, device: string, row: Row): PollState
    requires |row| >= 4
  {
    var f := CsvFileName(device);
    var loaded := Loaded(st, device);
    PollState(EnsureFile(st.files, f)[f := EnsureFile(st.files, f)[f] + [row]],
              loaded.entries[device := loaded.entries[device] + {row[3]}])
  }

  /** Loading the device again after an append learns nothing new. */
  lemma AppendedIsStable(st: PollState, device: string, row: Row)
    requires |row| >= 4
    ensures Loaded(Appended(st, device, row), device) == Appended(st, device, row)
  {
    var f := CsvFileName(device);
    var loaded := Loaded(st, device);
    var st1 := Appended(st, device, row);
    ReloadIsStable(st, device);
    var rows := loaded.files[f];
    if rows != [] {
      EntryIdsAppend(rows, row);
    } else {
      assert EntryIds(rows + [row]) == {};
    }
    assert EnsureFile(st1.files, f) == st1.files;
    assert Loaded(st1, device).entries[device] == loaded.entries[device] + {row[3]};
  }

  /** After a row is appended, reading the file again learns only the id already recorded. */
  lemma ReloadAfterAppend(st: PollState, snap: Snapshot)
    requires Complete(snap)
    requires var device := snap.channel.value.name.value;
      snap.feeds.value[0].entryId.value !in Loaded(st, device).entries[device]
    ensures var st1 := Cycle(st, snap).1; Loaded(st1, snap.channel.value.name.value) == st1
  {
    var device := snap.channel.value.name.value;
    var feed := snap.feeds.value[0];
    CycleOfNewId(st, snap);
    var row := [FormatDate(feed.createdAt.value).value, snap.channel.value.id.value,
                device, feed.entryId.value, feed.field1.value];
    AppendedIsStable(st, device, row);
  }

  /** Polling the same snapshot twice has the effect of polling it once. */
  lemma CycleIdempotent(st: PollState, snap: Snapshot)
    ensures Cycle(Cycle(st, snap).1, snap) == Cycle(st, snap)
  {
    if snap.Payload? && snap.channel.Some? && snap.channel.value.name.Some? {
      var device := snap.channel.value.name.value;
      var loaded := Loaded(st, device);
      if Complete(snap) && snap.feeds.value[0].entryId.value !in loaded.entries[device] {
        CycleOfNewId(st, snap);
        ReloadAfterAppend(st, snap);
        CycleOfKnownId(Cycle(st, snap).1, snap);
      } else {
        ReloadIsStable(st, device);
        CycleWithoutRow(st, snap);
        CycleWithoutRow(loaded, snap);
      }
    }
  }

  /** Every data row of every file keeps a distinct entry id across a cycle. */
  lemma CyclePreservesUniqueIds(st: PollState, snap: Snapshot)
    requires forall g :: g in st.files ==> UniqueIds(st.files[g])
    ensures var after := Cycle(st, snap).1;
      forall g :: g in after.files ==> UniqueIds(after.files[g])
  {
    if snap.Payload? && snap.channel.Some? && snap.channel.value.name.Some? {
      var device := snap.channel.value.name.value;
      LoadedKeepsUnique(st, device);
      if Complete(snap) && UnseenId(st, snap) {
        var feed := snap.feeds.value[0];
        CycleOfNewId(st, snap);
        var row := [FormatDate(feed.createdAt.value).value, snap.channel.value.id.value,
                    device, feed.entryId.value, feed.field1.value];
        assert Cycle(st, snap).1 == Appended(st, device, row);
        AppendedKeepsUnique(st, device, row);
      } else {
        CycleWithoutRow(st, snap);
        assert Cycle(st, snap).1 == Loaded(st, device);
      }
    }
  }

  /** A restarted process learns the ids from the file, so an id already logged
      is not appended again. */
  lemma NoDuplicateAfterRestart(files: map<string, seq<Row>>, snap: Snapshot, i: nat)
    requires snap.Payload? && snap.channel.Some? && snap.channel.value.name.Some?
    requires snap.feeds.Some? && snap.feeds.value != [] && snap.feeds.value[0].entryId.Some?
    requires var f := CsvFileName(snap.channel.value.name.value);
      f in files && 1 <= i < |files[f]| && |files[f][i]| >= 4 && files[f][i][3] == snap.feeds.value[0].entryId.value
    ensures var (ok, after) := Cycle(PollState(files, map[]), snap); ok && after.files == files
  {
    var f := CsvFileName(snap.channel.value.name.value);
    IdsOfMembership(files[f][1..], files[f][i][3]);
    assert files[f][1..][i - 1] == files[f][i];
  }

  /** Any failed cycle adds no data row: every file it found keeps its rows,
      and a file it created holds the header only. */
  lemma FailedCycleAddsNoRow(st: PollState, snap: Snapshot)
    requires !Cycle(st, snap).0
    ensures var after := Cycle(st, snap).1;
      && (forall g :: g in st.files ==> g in after.files && after.files[g] == st.files[g])
      && (forall g :: g in after.files && g !in st.files ==> after.files[g] == [Header])
  {
  }

  /** A failed fetch leaves no trace: the cycles after it run as if it had not happened. */
  lemma ErrorIsolation(st: PollState, rest: seq<Snapshot>)
    ensures RunCycles(st, [FetchFailed] + rest) == ([false] + RunCycles(st, rest).0, RunCycles(st, rest).1)
  {
    assert ([FetchFailed] + rest)[1..] == rest;
  }

  // ------------------------------------------------------------------ the running poller

  /** The poller process: the files it sees on disk and its `device_entries` map. */
  class Poller {
    var files: map<string, seq<Row>>
    var deviceEntries: map<string, set<string>>

    function State(): PollState
      reads this
    {
      PollState(files, deviceEntries)
    }

    /** A fresh process over the files already on disk: no device is known yet. */
    constructor (disk: map<string, seq<Row>>)
      ensures files == disk && deviceEntries == map[]
    {
      files := disk;
      deviceEntries := map[];
    }

    /** `initialize_csv` */
    method InitializeCsv(deviceName: string) returns (csvFile: string)
      modifies this`files
      ensures csvFile == CsvFileName(deviceName)
      ensures files == EnsureFile(old(files), csvFile)
    {
      csvFile := CsvFileName(deviceName);
      if csvFile !in files {
        files := files[csvFile := [Header]];
      }
    }

    /** `load_existing_entries`: every row after the first with at least four
        fields adds its fourth field to the device's set; the set never loses ids. */
    method LoadExistingEntries(deviceName: string) returns (entries: set<string>)
      modifies this`deviceEntries
      ensures State() == Load(old(State()), deviceName)
      ensures entries == deviceEntries[deviceName]
    {
      if deviceName !in deviceEntries {
        deviceEntries := deviceEntries[deviceName := {}];
      }
      ghost var known := Known(old(deviceEntries), deviceName);
      assert deviceEntries == old(deviceEntries)[deviceName := known];
      var csvFile := CsvFileName(deviceName);
      if csvFile in files {
        var rows := files[csvFile];
        var data := if rows == [] then [] else rows[1..];
        var i := 0;
        assert data[..0] == [];
        assert known + IdsOf(data[..0]) == known;
        while i < |data|
          invariant 0 <= i <= |data|
          invariant deviceEntries == old(deviceEntries)[deviceName := known + IdsOf(data[..i])]
        {
          var row := data[i];
          assert data[..i + 1][..i] == data[..i] && data[..i + 1][i] == row;
          assert IdsOf(data[..i + 1]) == IdsOf(data[..i]) + (if |row| >= 4 then {row[3]} else {});
          if |row| >= 4 {
            deviceEntries := deviceEntries[deviceName := deviceEntries[deviceName] + {row[3]}];
            assert deviceEntries[deviceName] == known + IdsOf(data[..i + 1]);
          } else {
            assert IdsOf(data[..i + 1]) == IdsOf(data[..i]);
          }
          i := i + 1;
        }
        assert data[..i] == data;
        assert EntryIds(rows) == IdsOf(data);
      } else {
        assert known + {} == known;
      }
      entries := deviceEntries[deviceName];
    }

    /** `fetch_and_save_data` on one fetched snapshot. */
    method FetchAndSaveData(snap: Snapshot) returns (ok: bool)
      modifies this`files, this`deviceEntries
      ensures (ok, State()) == Cycle(old(State()), snap)
    {
      if snap.FetchFailed? || snap.channel.None? || snap.channel.value.name.None? {
        return false;
      }
      var channel := snap.channel.value;
      var deviceName := channel.name.value;
      var csvFile := InitializeCsv(deviceName);
      var entries := LoadExistingEntries(deviceName);
      if snap.feeds.Some? && snap.feeds.value != [] {
        var feed := snap.feeds.value[0];
        if feed.entryId.None? {
          return false;
        }
        var entryId := feed.entryId.value;
        if entryId !in entries {
          if feed.createdAt.None? {
            return false;
          }
          var formattedDate := FormatDate(feed.createdAt.value);
          if formattedDate.None? || feed.field1.None? || channel.id.None? {
            return false;
          }
          var row := NewRow(formattedDate.value, channel.id.value, deviceName, entryId, feed.field1.value);
          files := files[csvFile := files[csvFile] + [row]];
          deviceEntries := deviceEntries[deviceName := deviceEntries[deviceName] + {entryId}];
        }
      }
      return true;
    }

    /** The driver loop, one cycle per snapshot; a failed cycle does not stop it. */
    method Run(snaps: seq<Snapshot>) returns (results: seq<bool>)
      modifies this`files, this`deviceEntries
      ensures (results, State()) == RunCycles(old(State()), snaps)
    {
      results := [];
      var i := 0;
      assert snaps[0..] == snaps;
      while i < |snaps|
        invariant 0 <= i <= |snaps|
        invariant RunCycles(old(State()), snaps).0 == results + RunCycles(State(), snaps[i..]).0
        invariant RunCycles(old(State()), snaps).1 == RunCycles(State(), snaps[i..]).1
      {
        ghost var before := State();
        assert snaps[i..][1..] == snaps[i + 1..];
        assert RunCycles(before, snaps[i..]).0 == [Cycle(before, snaps[i]).0] + RunCycles(Cycle(before, snaps[i]).1, snaps[i + 1..]).0;
        var ok := FetchAndSaveData(snaps[i]);
        results := results + [ok];
        i := i + 1;
      }
      assert snaps[i..] == [];
      assert results + [] == results;
    }
  }
}
