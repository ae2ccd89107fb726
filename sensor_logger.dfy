/** The TypeScript sensor logger of sensorDataLogger.tsx: one CSV file whose
    whole text is searched for an entry id before a feed line is queued, and a
    batch of queued lines appended in one write. The file is `None` while it
    does not exist. `new Date(s).toISOString()` is a parameter `toIso`:
    `None` is the RangeError of an invalid date. */
module SensorLogger {
  import opened Common

  /** The text `initializeCSV` writes into a new file. */
  const HeaderLine: string := "created_at,id,name,entry_id,temperature\n"

  /** `s.replace(c, rep)` with a one-character pattern: only the first occurrence is replaced. */
  function ReplaceFirst(s: string, c: char, rep: string): (r: string)
    ensures Lacks(s, c) ==> r == s
  {
    if s == [] then []
    else if s[0] == c then rep + s[1..]
    else [s[0]] + ReplaceFirst(s[1..], c, rep)
  }

  /** Only the first occurrence is replaced; everything after it is kept as it is. */
  lemma {:induction false} ReplaceFirstAt(a: string, c: char, rep: string, b: string)
    requires Lacks(a, c)
    ensures ReplaceFirst(a + [c] + b, c, rep) == a + rep + b
  {
    if a == [] {
      assert a + [c] + b == [c] + b;
      assert ([c] + b)[1..] == b;
    } else {
      assert (a + [c] + b)[1..] == a[1..] + [c] + b;
      ReplaceFirstAt(a[1..], c, rep, b);
      assert [a[0]] + (a[1..] + rep + b) == a + rep + b;
    }
  }

  /** `formatDate` on the text `toISOString` produced. */
  function FormatIso(iso: string): string {
    ReplaceFirst(ReplaceFirst(iso, 'T', " "), 'Z', " UTC")
  }

  /** `formatDate`: `None` when `new Date(s)` is an invalid date. */
  function FormatDate(s: string, toIso: string -> Option<string>): (r: Option<string>)
    ensures r.Some? <==> toIso(s).Some?
  {
    match toIso(s)
    case None => None
    case Some(iso) => Some(FormatIso(iso))
  }

  /** The shape `toISOString` produces: `YYYY-MM-DDTHH:MM:SS.sssZ`. */
  predicate IsIsoText(s: string) {
    |s| == 24 && s[10] == 'T' && s[23] == 'Z'
    && (forall i :: 0 <= i < 23 && i != 10 ==> s[i] != 'T' && s[i] != 'Z')
  }

  /** On an ISO text, the date and the time (milliseconds kept) are separated
      by a space and the zone letter becomes ` UTC`. */
  lemma FormatIsoLayout(s: string)
    requires IsIsoText(s)
    ensures FormatIso(s) == s[..10] + " " + s[11..23] + " UTC"
  {
    assert s == s[..10] + ['T'] + s[11..];
    ReplaceFirstAt(s[..10], 'T', " ", s[11..]);
    var t := s[..10] + " " + s[11..];
    assert t == (s[..10] + " " + s[11..23]) + ['Z'] + [];
    ReplaceFirstAt(s[..10] + " " + s[11..23], 'Z', " UTC", []);
  }

  /** The logged date text read back into the ISO text. */
  function LoggedToIso(t: string): string
    requires |t| >= 23
  {
    t[..10] + "T" + t[11..23] + "Z"
  }

  lemma FormatIsoRoundTrip(s: string)
    requires IsIsoText(s)
    ensures |FormatIso(s)| == 27 && LoggedToIso(FormatIso(s)) == s
  {
    FormatIsoLayout(s);
    assert s == s[..10] + [s[10]] + s[11..23] + [s[23]];
  }

  // ------------------------------------------------------------------ fetched data

  /** The channel object as the template literal renders its id and name. */
  datatype Channel = Channel(id: string, name: string)

  /** A feed: its timestamp, `entry_id.toString()` (`None` when the id is null or
      absent, which throws) and the rendered measurement. */
  datatype Feed = Feed(createdAt: string, entryId: Option<string>, field1: string)

  /** The response data; `channel` or `feeds` absent is `None`. */
  datatype Response = Response(channel: Option<Channel>, feeds: Option<seq<Feed>>)

  /** The line built for one feed. */
  function Line(date: string, channel: Channel, entryId: string, field1: string): (r: string)
    ensures r != [] && r[|r| - 1] == '\n'
  {
    date + ", " + channel.id + " , \"" + channel.name + "\" ," + entryId + "," + field1 + "\n"
  }

  /** A line holds the id it was built for. */
  lemma LineContainsId(date: string, channel: Channel, entryId: string, field1: string)
    ensures Contains(Line(date, channel, entryId, field1), entryId)
  {
    var left := date + ", " + channel.id + " , \"" + channel.name + "\" ,";
    var right := "," + field1 + "\n";
    assert Line(date, channel, entryId, field1) == left + (entryId + right);
    assert entryId <= entryId + right;
    ContainsInRight(left, entryId + right, entryId);
  }

  /** The text one loop iteration adds to `newEntries`: `None` when it throws,
      the empty text when the id already occurs in the file text. */
  function StepText(content: string, channel: Option<Channel>, feed: Feed, toIso: string -> Option<string>): (r: Option<string>)
    ensures r.Some? <==> toIso(feed.createdAt).Some? && channel.Some? && feed.entryId.Some?
  {
    match FormatDate(feed.createdAt, toIso)
    case None => None
    case Some(date) =>
      if channel.None? || feed.entryId.None? then None
      else if Contains(content, feed.entryId.value) then Some("")
      else Some(Line(date, channel.value, feed.entryId.value, feed.field1))
  }

  /** A feed line is queued exactly when the file text does not hold its id. */
  lemma StepQueuesIffAbsent(content: string, channel: Option<Channel>, feed: Feed, toIso: string -> Option<string>)
    requires StepText(content, channel, feed, toIso).Some?
    ensures StepText(content, channel, feed, toIso).value != "" <==> !Contains(content, feed.entryId.value)
  {
  }

  /** `newEntries` after the loop has seen `feeds`. The file text is not
      rewritten during the loop, so every step consults the same `content`. */
  function Queued(content: string, channel: Option<Channel>, feeds: seq<Feed>, toIso: string -> Option<string>): Option<string>
    decreases |feeds|
  {
    if feeds == [] then Some("")
    else
      match Queued(content, channel, feeds[..|feeds| - 1], toIso)
      case None => None
      case Some(q) =>
        match StepText(content, channel, feeds[|feeds| - 1], toIso)
        case None => None
        case Some(l) => Some(q + l)
  }

  function Text(file: Option<string>): string {
    if file.Some? then file.value else ""
  }

  /** The file after one `fetchAndUpdateData`: an exception anywhere before the
      write leaves it as it was; a non-empty batch is appended, creating the
      file without a header when it does not exist. */
  function Update(file: Option<string>, resp: Response, toIso: string -> Option<string>): (r: Option<string>)
    ensures file.Some? ==> r.Some? && file.value <= r.value
  {
    if resp.feeds.None? then file
    else
      match Queued(Text(file), resp.channel, resp.feeds.value, toIso)
      case None => file
      case Some(batch) => if batch == "" then file else Some(Text(file) + batch)
  }

  /** Every id of a batch that did not throw occurs in the file text followed by the batch. */
  lemma {:induction false} QueuedCoversIds(content: string, channel: Option<Channel>, feeds: seq<Feed>, toIso: string -> Option<string>)
    requires Queued(content, channel, feeds, toIso).Some?
    ensures forall k :: 0 <= k < |feeds| ==>
              (feeds[k].entryId.Some? && Contains(content + Queued(content, channel, feeds, toIso).value, feeds[k].entryId.value))
    decreases |feeds|
  {
    if feeds != [] {
      var init := feeds[..|feeds| - 1];
      var feed := feeds[|feeds| - 1];
      QueuedCoversIds(content, channel, init, toIso);
      var q := Queued(content, channel, init, toIso).value;
      var l := StepText(content, channel, feed, toIso).value;
      assert Queued(content, channel, feeds, toIso).value == q + l;
      assert content + (q + l) == (content + q) + l;
      forall k | 0 <= k < |feeds|
        ensures feeds[k].entryId.Some? && Contains((content + q) + l, feeds[k].entryId.value)
      {
        if k < |feeds| - 1 {
          assert init[k] == feeds[k];
          ContainsInLeft(content + q, l, feeds[k].entryId.value);
        } else if Contains(content, feed.entryId.value) {
          ContainsInLeft(content, q + l, feed.entryId.value);
        } else {
          LineContainsId(FormatDate(feed.createdAt, toIso).value, channel.value, feed.entryId.value, feed.field1);
          ContainsInRight(content + q, l, feed.entryId.value);
        }
      }
    }
  }

  /** When every id already occurs in the text, the loop queues nothing. */
  lemma {:induction false} QueuedNothingWhenKnown(content: string, channel: Option<Channel>, feeds: seq<Feed>, toIso: string -> Option<string>)
    requires channel.Some?
    requires forall k :: 0 <= k < |feeds| ==>
               (toIso(feeds[k].createdAt).Some? && feeds[k].entryId.Some? && Contains(content, feeds[k].entryId.value))
    ensures Queued(content, channel, feeds, toIso) == Some("")
    decreases |feeds|
  {
    if feeds != [] {
      var init := feeds[..|feeds| - 1];
      assert forall k :: 0 <= k < |init| ==> init[k] == feeds[k];
      QueuedNothingWhenKnown(content, channel, init, toIso);
    }
  }

  /** Running the same response twice has the effect of running it once: after a
      successful call every feed's id occurs in the file. */
  lemma UpdateIdempotent(file: Option<string>, resp: Response, toIso: string -> Option<string>)
    ensures Update(Update(file, resp, toIso), resp, toIso) == Update(file, resp, toIso)
  {
    if resp.feeds.Some? {
      var feeds := resp.feeds.value;
      var once := Queued(Text(file), resp.channel, feeds, toIso);
      if once.Some? && once.value != "" {
        QueuedCoversIds(Text(file), resp.channel, feeds, toIso);
        var after := Text(file) + once.value;
        assert Text(Update(file, resp, toIso)) == after;
        forall k | 0 <= k < |feeds|
          ensures toIso(feeds[k].createdAt).Some? && feeds[k].entryId.Some?
        {
          QueuedStepsSucceed(Text(file), resp.channel, feeds, toIso, k);
        }
        assert resp.channel.Some? by {
          QueuedStepsSucceed(Text(file), resp.channel, feeds, toIso, 0);
        }
        QueuedNothingWhenKnown(after, resp.channel, feeds, toIso);
      }
    }
  }

  /** A batch that did not throw had no throwing step. */
  lemma {:induction false} QueuedStepsSucceed(content: string, channel: Option<Channel>, feeds: seq<Feed>, toIso: string -> Option<string>, k: nat)
    requires Queued(content, channel, feeds, toIso).Some? && k < |feeds|
    ensures StepText(content, channel, feeds[k], toIso).Some?
    decreases |feeds|
  {
    if k < |feeds| - 1 {
      var init := feeds[..|feeds| - 1];
      assert init[k] == feeds[k];
      QueuedStepsSucceed(content, channel, init, toIso, k);
    }
  }

  /** Two feeds of one batch with the same new id are both queued: lines
      queued earlier in the batch are not consulted. */
  lemma DuplicateWithinBatch(content: string, channel: Channel, feed: Feed, toIso: string -> Option<string>)
    requires toIso(feed.createdAt).Some? && feed.entryId.Some?
    requires !Contains(content, feed.entryId.value)
    ensures var l := Line(FormatIso(toIso(feed.createdAt).value), channel, feed.entryId.value, feed.field1);
      Queued(content, Some(channel), [feed, feed], toIso) == Some(l + l)
  {
    var l := Line(FormatIso(toIso(feed.createdAt).value), channel, feed.entryId.value, feed.field1);
    assert StepText(content, Some(channel), feed, toIso) == Some(l);
    assert [feed][..0] == [];
    assert Queued(content, Some(channel), [feed], toIso) == Some("" + l);
    assert "" + l == l;
    assert [feed, feed][..1] == [feed];
  }

  /** A date that cannot be converted aborts the whole call: the file is unchanged. */
  lemma BadDateChangesNothing(file: Option<string>, resp: Response, toIso: string -> Option<string>, k: nat)
    requires resp.feeds.Some? && k < |resp.feeds.value| && toIso(resp.feeds.value[k].createdAt).None?
    ensures Update(file, resp, toIso) == file
  {
    if Queued(Text(file), resp.channel, resp.feeds.value, toIso).Some? {
      QueuedStepsSucceed(Text(file), resp.channel, resp.feeds.value, toIso, k);
    }
  }

  // ------------------------------------------------------------------ the logger

  class Logger {
    /** The CSV file's text; `None` while it does not exist. */
    var file: Option<string>

    constructor (existing: Option<string>)
      ensures file == existing
    {
      file := existing;
    }

    /** `initializeCSV`: the header is written only into a missing file. */
    method InitializeCsv()
      modifies this
      ensures old(file).None? ==> file == Some(HeaderLine)
      ensures old(file).Some? ==> file == old(file)
    {
      if file.None? {
        file := Some(HeaderLine);
      }
    }

    /** `fetchAndUpdateData` on one fetched response. */
    method FetchAndUpdateData(resp: Response, toIso: string -> Option<string>)
      modifies this
      ensures file == Update(old(file), resp, toIso)
    {
      if resp.feeds.None? {
        return;
      }
      var feeds := resp.feeds.value;
      var newEntries := "";
      var i := 0;
      while i < |feeds|
        invariant 0 <= i <= |feeds|
        invariant file == old(file)
        invariant Queued(Text(file), resp.channel, feeds[..i], toIso) == Some(newEntries)
      {
        var feed := feeds[i];
        assert feeds[..i + 1][..i] == feeds[..i] && feeds[..i + 1][i] == feed;
        var formattedDate := FormatDate(feed.createdAt, toIso);
        if formattedDate.None? || resp.channel.None? || feed.entryId.None? {
          QueuedAbortStays(Text(file), resp.channel, feeds, toIso, i);
          return;
        }
        var formattedLine := Line(formattedDate.value, resp.channel.value, feed.entryId.value, feed.field1);
        var fileContent := Text(file);
        if !Contains(fileContent, feed.entryId.value) {
          newEntries := newEntries + formattedLine;
        } else {
          assert newEntries + "" == newEntries;
        }
        i := i + 1;
      }
      assert feeds[..i] == feeds;
      if newEntries != "" {
        file := Some(Text(file) + newEntries);
      }
    }
  }

  /** Once a step throws, the whole batch throws. */
  lemma {:induction false} QueuedAbortStays(content: string, channel: Option<Channel>, feeds: seq<Feed>, toIso: string -> Option<string>, i: nat)
    requires i < |feeds| && StepText(content, channel, feeds[i], toIso).None?
    ensures Queued(content, channel, feeds, toIso).None?
  {
    if Queued(content, channel, feeds, toIso).Some? {
      QueuedStepsSucceed(content, channel, feeds, toIso, i);
    }
  }
}
