/**
 * The COROS sync script: which of the account's activities it fetches,
 * the heart-rate gate a downloaded FIT file must pass, the fields it
 * stores, and the progress lines it prints, which the streaming sync
 * route reads back. The COROS client, the zip reader and the FIT parser
 * are not part of this model: what they return is an input.
 */
module SyncCoros {
  import opened Js
  import opened Text
  import Store
  import Grouping
  import JsParse
  import VdotCalculator
  import SyncStream

  newtype byte = x: int | 0 <= x < 256

  // ---------------------------------------------------------------------
  // Files

  /** A zip archive starts with the signature "PK". */
  function IsZip(buf: seq<byte>): (r: bool)
    ensures r <==> |buf| >= 2 && buf[..2] == [0x50, 0x4B]
  {
    |buf| >= 2 && buf[0] == 0x50 && buf[1] == 0x4B
  }

  /** A FIT file: a 12- or 14-byte header whose bytes 8 to 11 read ".FIT". */
  predicate IsFitFile(buf: seq<byte>)
  {
    |buf| >= 12 && (buf[0] == 12 || buf[0] == 14) && buf[8..12] == [0x2E, 0x46, 0x49, 0x54]
  }

  /** A FIT file is never taken for an archive, so it is parsed as it is. */
  lemma FitFileIsNotZip(buf: seq<byte>)
    requires IsFitFile(buf)
    ensures !IsZip(buf)
  {
  }

  // ---------------------------------------------------------------------
  // Selection

  /** An entry of the account's activity list; `name` is "" when absent. */
  datatype ActivityMeta = ActivityMeta(labelId: string, name: string, sportType: int, trainingLoad: Option<real>)

  /** The id the activity is stored under. */
  function StoredId(labelId: string): (id: string)
    ensures |id| == 6 + |labelId| && id[..6] == "coros_" && id[6..] == labelId
  {
    "coros_" + labelId
  }

  lemma StoredIdInjective(a: string, b: string)
    requires StoredId(a) == StoredId(b)
    ensures a == b
  {
    assert a == StoredId(a)[6..];
  }

  /** The activities a run fetches: all of them when forced, otherwise
      those not stored yet, in list order. */
  function ToSync(all: seq<ActivityMeta>, existing: set<string>, force: bool): (r: seq<ActivityMeta>)
    ensures |r| <= |all|
    ensures force ==> r == all
    ensures !force ==> forall m :: m in r <==> m in all && StoredId(m.labelId) !in existing
  {
    if force then all else Grouping.Filter(all, (m: ActivityMeta) => StoredId(m.labelId) !in existing)
  }

  /** Once every selected activity is stored, an unforced run selects
      nothing. */
  lemma SecondPassSelectsNothing(all: seq<ActivityMeta>, existing: set<string>, force: bool)
    ensures var stored := existing + set m | m in ToSync(all, existing, force) :: StoredId(m.labelId);
      ToSync(all, stored, false) == []
  {
    var stored := existing + set m | m in ToSync(all, existing, force) :: StoredId(m.labelId);
    forall m | m in all
      ensures StoredId(m.labelId) in stored
    {
      if StoredId(m.labelId) !in existing {
        assert m in ToSync(all, existing, force);
      }
    }
    FilterNone(all, (m: ActivityMeta) => StoredId(m.labelId) !in stored);
  }

  /** A filter that keeps nothing gives nothing. */
  lemma {:induction false} FilterNone<T(!new)>(items: seq<T>, keep: T -> bool)
    requires forall x :: x in items ==> !keep(x)
    ensures Grouping.Filter(items, keep) == []
  {
    if items != [] {
      assert forall x :: x in items[1..] ==> x in items;
      FilterNone(items[1..], keep);
    }
  }

  // ---------------------------------------------------------------------
  // The heart-rate gate

  /** What the FIT parser reads from a file, with the fields the script
      sets before storing it. Distance is in kilometres. */
  datatype ParsedActivity = ParsedActivity(
    activityId: string,
    name: string,
    activityType: string,
    source: string,
    startTime: string,
    distance: Option<real>,
    duration: Option<real>,
    averageHeartRate: Option<real>,
    maxHeartRate: Option<real>,
    trainingLoad: Option<real>,
    vdotValue: Option<real>)

  /** The parser's result: the session (if any), its laps and its records. */
  datatype Fit = Fit(activity: Option<ParsedActivity>, laps: seq<Store.Lap>, records: seq<Store.Record>)

  predicate Positive(x: Option<real>)
  {
    x.Some? && x.value > 0.0
  }

  /** JavaScript truthiness of a nullable number: present and not zero. */
  predicate Truthy(x: Option<real>)
  {
    x.Some? && x.value != 0.0
  }

  /** `recordsData.some(r => r.heart_rate != null && Number(r.heart_rate) > 0)`. */
  function AnyRecordHeartRate(records: seq<Store.Record>): (r: bool)
    ensures r <==> exists i :: 0 <= i < |records| && Positive(records[i].heartRate)
  {
    if records == [] then false
    else if Positive(records[0].heartRate) then true
    else
      var rest := AnyRecordHeartRate(records[1..]);
      assert forall i :: 1 <= i < |records| ==> records[i] == records[1..][i - 1];
      rest
  }

  /** The evidence that the watch measured heart rate: a positive session
      average or maximum, or a positive sample. */
  predicate HasHeartRateEvidence(a: ParsedActivity, records: seq<Store.Record>)
  {
    Positive(a.averageHeartRate) || Positive(a.maxHeartRate) || AnyRecordHeartRate(records)
  }

  // ---------------------------------------------------------------------
  // The VDOT calculator

  datatype Calculator = Calculator(maxHr: real, restingHr: real)

  /** `process.env.X ? parseInt(process.env.X) : null`. */
  function EnvInt(s: string): (r: JsNumber)
    ensures r.Missing? <==> s == ""
    ensures s != "" ==> r == JsParse.ParseInt(s)
  {
    if s == "" then Missing else JsParse.ParseInt(s)
  }

  /** JavaScript truthiness of a number: present, not `NaN`, not zero. */
  predicate TruthyNumber(x: JsNumber)
  {
    x.Num? && x.v != 0.0
  }

  /** The calculator exists only when both heart rates read as non-zero numbers. */
  function MakeCalculator(maxHrEnv: string, restingHrEnv: string): (r: Option<Calculator>)
    ensures r.Some? <==> TruthyNumber(EnvInt(maxHrEnv)) && TruthyNumber(EnvInt(restingHrEnv))
    ensures r.Some? ==> r.value.maxHr == EnvInt(maxHrEnv).v && r.value.restingHr == EnvInt(restingHrEnv).v
  {
    var maxHr := EnvInt(maxHrEnv);
    var restingHr := EnvInt(restingHrEnv);
    if TruthyNumber(maxHr) && TruthyNumber(restingHr) then Some(Calculator(maxHr.v, restingHr.v)) else None
  }

  /** A number written out reads back as itself. */
  lemma EnvIntOf(n: nat)
    ensures EnvInt(NatToString(n)) == Num(n as real)
  {
    JsParse.ParseIntPrefix(n, []);
    assert NatToString(n) + [] == NatToString(n);
  }

  /** The heart rates the sync routes pass by default give a calculator. */
  lemma DefaultHeartRatesMakeCalculator()
    ensures MakeCalculator("190", "55") == Some(Calculator(190.0, 55.0))
  {
    assert NatToString(1) == "1";
    assert NatToString(19) == NatToString(1) + ['9'];
    assert NatToString(190) == NatToString(19) + ['0'] == "190";
    assert NatToString(5) == "5";
    assert NatToString(55) == NatToString(5) + ['5'] == "55";
    EnvIntOf(190);
    EnvIntOf(55);
  }

  /** A heart rate of "0" switches the calculator off. */
  lemma ZeroHeartRateNoCalculator(restingHrEnv: string)
    ensures MakeCalculator("0", restingHrEnv) == None
  {
    assert NatToString(0) == "0";
    EnvIntOf(0);
  }

  // ---------------------------------------------------------------------
  // Stored fields

  /** The parsed session with the fields `_syncActivity` sets: the stored
      id, name, type and source; the list's training load when the file
      has none; and, when there is a calculator and a truthy average heart
      rate, VDOT and training load from the calculator. Distance reaches
      the calculator in metres. */
  function Enrich(meta: ActivityMeta, a: ParsedActivity, fallbackName: string,
                  calculator: Option<Calculator>, exp: real -> real): (r: ParsedActivity)
    ensures r.activityId == StoredId(meta.labelId) && r.source == "coros" && r.activityType == "running"
    ensures meta.name != "" ==> r.name == meta.name
    ensures meta.name == "" ==> r.name == fallbackName
    ensures r.startTime == a.startTime && r.distance == a.distance && r.duration == a.duration &&
            r.averageHeartRate == a.averageHeartRate && r.maxHeartRate == a.maxHeartRate
    ensures !(calculator.Some? && Truthy(a.averageHeartRate)) ==>
      r.vdotValue == a.vdotValue &&
      (Truthy(a.trainingLoad) ==> r.trainingLoad == a.trainingLoad) &&
      (!Truthy(a.trainingLoad) && Truthy(meta.trainingLoad) ==> r.trainingLoad == meta.trainingLoad) &&
      (!Truthy(a.trainingLoad) && !Truthy(meta.trainingLoad) ==> r.trainingLoad == a.trainingLoad)
    ensures calculator.Some? && Truthy(a.averageHeartRate) ==>
      r.vdotValue == VdotCalculator.VdotFromPace(OrZero(a.distance) * 1000.0, OrZero(a.duration),
                                                       a.averageHeartRate, calculator.value.maxHr, exp) &&
      r.trainingLoad == Some(VdotCalculator.TrainingLoad(OrZero(a.duration), a.averageHeartRate,
                                                         calculator.value.maxHr) as real)
  {
    var named := a.(activityId := StoredId(meta.labelId),
                    name := if meta.name != "" then meta.name else fallbackName,
                    activityType := "running",
                    source := "coros");
    var loaded := if Truthy(meta.trainingLoad) && !Truthy(named.trainingLoad)
                  then named.(trainingLoad := meta.trainingLoad) else named;
    if calculator.Some? && Truthy(loaded.averageHeartRate) then
      var distanceMeters := OrZero(loaded.distance) * 1000.0;
      var duration := OrZero(loaded.duration);
      loaded.(vdotValue := VdotCalculator.VdotFromPace(distanceMeters, duration, loaded.averageHeartRate,
                                                       calculator.value.maxHr, exp),
              trainingLoad := Some(VdotCalculator.TrainingLoad(duration, loaded.averageHeartRate,
                                                               calculator.value.maxHr) as real))
    else loaded
  }

  /** Enriching a row that is already enriched changes nothing: every
      field `Enrich` sets depends only on fields it leaves alone. */
  lemma EnrichIdempotent(meta: ActivityMeta, a: ParsedActivity, fallbackName: string,
                         calculator: Option<Calculator>, exp: real -> real)
    ensures var once := Enrich(meta, a, fallbackName, calculator, exp);
      Enrich(meta, once, fallbackName, calculator, exp) == once
  {
  }

  /** The laps or records of an activity, each stamped with its id. */
  function TagLaps(laps: seq<Store.Lap>, id: string): (r: seq<Store.Lap>)
    ensures |r| == |laps|
    ensures forall i :: 0 <= i < |r| ==> r[i].activityId == id && r[i] == laps[i].(activityId := id)
  {
    seq(|laps|, i requires 0 <= i < |laps| => laps[i].(activityId := id))
  }

  function TagRecords(records: seq<Store.Record>, id: string): (r: seq<Store.Record>)
    ensures |r| == |records|
    ensures forall i :: 0 <= i < |r| ==> r[i].activityId == id && r[i].heartRate == records[i].heartRate
  {
    seq(|records|, i requires 0 <= i < |records| => records[i].(activityId := id))
  }

  // ---------------------------------------------------------------------
  // Progress lines

  /** How one activity ended: stored, skipped, or failed with a message. */
  datatype Outcome = Done | Skipped | Failed(message: string)

  /** The number of stored activities. */
  function Synced(outcomes: seq<Outcome>): (n: nat)
    ensures n <= |outcomes|
  {
    if outcomes == [] then 0
    else Synced(outcomes[..|outcomes| - 1]) + (if outcomes[|outcomes| - 1] == Done then 1 else 0)
  }

  /** The terminal colour codes `log` wraps a message in. */
  function ColorCode(d: char): string
  {
    [SyncStream.Escape, '[', '3', d, 'm']
  }

  const Reset: string := [SyncStream.Escape, '[', '0', 'm']

  function ColorOf(o: Outcome): string
  {
    match o
    case Done => ColorCode('2')
    case Skipped => ColorCode('3')
    case Failed(_) => ColorCode('1')
  }

  /** `log(message, color)`: one line of standard output. */
  function Printed(color: string, message: string): string
  {
    color + message + Reset + ['\n']
  }

  /** `[i/total]`. */
  function ProgressLabel(i: nat, total: nat): string
  {
    ['['] + NatToString(i) + ['/'] + NatToString(total) + [']']
  }

  function MarkOf(o: Outcome): char
  {
    match o
    case Done => '✓'
    case Skipped => '○'
    case Failed(_) => '✗'
  }

  function NoteOf(o: Outcome): string
  {
    match o
    case Done => []
    case Skipped => [' ', '跳', '过']
    case Failed(message) => [' '] + message
  }

  const Word: string := "COROS"

  /** `[i/total] ✓ COROS活动 <labelId>`, with " 跳过" or the error message after a skipped or failed one. */
  function LogLine(i: nat, total: nat, labelId: string, o: Outcome): string
  {
    ProgressLabel(i, total) + [' '] + Lead(o) + labelId + NoteOf(o)
  }

  /** The mark and the word "COROS活动" between the counter and the id. */
  function Lead(o: Outcome): string
  {
    [MarkOf(o), ' '] + Word + ['活', '动', ' ']
  }

  /** The lines of a run, one per selected activity, in order. */
  function Printout(metas: seq<ActivityMeta>, outcomes: seq<Outcome>, total: nat): (r: seq<string>)
    requires |outcomes| == |metas|
    ensures |r| == |metas|
  {
    if metas == [] then []
    else
      var n := |metas| - 1;
      Printout(metas[..n], outcomes[..n], total) +
        [Printed(ColorOf(outcomes[n]), LogLine(n + 1, total, metas[n].labelId, outcomes[n]))]
  }

  /** The k-th line of a run is the line of the k-th selected activity,
      counted from 1. */
  lemma {:induction false} PrintoutAt(metas: seq<ActivityMeta>, outcomes: seq<Outcome>, total: nat, k: nat)
    requires |outcomes| == |metas| && k < |metas|
    ensures Printout(metas, outcomes, total)[k] ==
      Printed(ColorOf(outcomes[k]), LogLine(k + 1, total, metas[k].labelId, outcomes[k]))
  {
    var n := |metas| - 1;
    var init := Printout(metas[..n], outcomes[..n], total);
    assert Printout(metas, outcomes, total) ==
      init + [Printed(ColorOf(outcomes[n]), LogLine(n + 1, total, metas[n].labelId, outcomes[n]))];
    if k < n {
      PrintoutAt(metas[..n], outcomes[..n], total, k);
      assert metas[..n][k] == metas[k] && outcomes[..n][k] == outcomes[k];
    }
  }

  /** An id the stream can read: one run of non-space characters without
      an escape character. */
  predicate PlainId(labelId: string)
  {
    labelId != [] && forall i :: 0 <= i < |labelId| ==> !IsSpace(labelId[i]) && labelId[i] != SyncStream.Escape
  }

  /** No counter starts inside a colour code. */
  lemma ColorCodeNoCounter(d: char, rest: string)
    requires IsDigit(d)
    ensures forall j :: 0 <= j < 5 ==> SyncStream.ProgressMatch((ColorCode(d) + rest)[j..]).None?
  {
    var s := ColorCode(d) + rest;
    var after := ['m'] + rest;
    assert s[2..] == ['3', d] + after;
    JsParse.LeadingDigitsOf(['3', d], after);
    assert (['3', d] + after)[2..] == after;
    assert SyncStream.Counters(s[2..]).None?;
    assert s[1..][1..] == s[2..];
    forall j | 0 <= j < 5
      ensures SyncStream.ProgressMatch(s[j..]).None?
    {
      assert s[j..][0] == s[j];
    }
  }

  /** A coloured line that starts with a counter `[a/b]` reports it. */
  lemma ColoredCounter(d: char, a: string, b: string, tail: string)
    requires IsDigit(d) && a != [] && AllDigits(a) && b != [] && AllDigits(b)
    ensures SyncStream.FirstProgress(ColorCode(d) + (['['] + (a + ['/'] + b + [']'] + tail))) ==
      Some((DigitsValue(a), DigitsValue(b)))
  {
    var body := a + ['/'] + b + [']'] + tail;
    var rest := ['['] + body;
    var s := ColorCode(d) + rest;
    ColorCodeNoCounter(d, rest);
    SyncStream.FirstMatchSkip(s, 0, 5, SyncStream.ProgressMatch);
    assert s[5..] == rest;
    assert rest[1..] == body;
    SyncStream.CountersOf(a, b, tail);
    SyncStream.FirstMatchAt(s, 5, SyncStream.ProgressMatch);
  }

  /** The stream reads the counter of a printed line. */
  lemma PrintedCounter(d: char, i: nat, total: nat, tail: string)
    requires IsDigit(d)
    ensures SyncStream.FirstProgress(ColorCode(d) + ProgressLabel(i, total) + tail) == Some((i, total))
  {
    var a, b := NatToString(i), NatToString(total);
    assert ColorCode(d) + ProgressLabel(i, total) + tail == ColorCode(d) + (['['] + (a + ['/'] + b + [']'] + tail));
    ColoredCounter(d, a, b, tail);
    NatToStringRoundTrip(i);
    NatToStringRoundTrip(total);
  }

  /** The token the stream's expression captures from a printed line: the
      id, and for a stored activity the colour reset written right after it. */
  function Token(labelId: string, o: Outcome): string
  {
    if o == Done then labelId + Reset else labelId
  }

  /** A printed line, cut where the stream's expression sees it. */
  lemma LineShape(i: nat, total: nat, labelId: string, o: Outcome)
    ensures var prefix := ColorOf(o) + ProgressLabel(i, total) + [' '];
      var rest := if o == Done then ['\n'] else NoteOf(o) + Reset + ['\n'];
      Printed(ColorOf(o), LogLine(i, total, labelId, o)) == prefix + Lead(o) + Token(labelId, o) + rest
  {
    var c, counter, lead, note := ColorOf(o), ProgressLabel(i, total), Lead(o), NoteOf(o);
    var x := counter + [' '];
    var prefix := c + counter + [' '];
    assert c + x == prefix;
    assert c + (x + lead) == prefix + lead;
    assert c + (x + lead + labelId) == prefix + lead + labelId;
    assert c + LogLine(i, total, labelId, o) == prefix + lead + labelId + note;
    var front := prefix + lead;
    if o == Done {
      assert note == [];
      assert front + labelId + note == front + labelId;
      assert front + labelId + Reset == front + (labelId + Reset);
    } else {
      assert front + labelId + note + Reset == front + labelId + (note + Reset);
      assert front + labelId + (note + Reset) + ['\n'] == front + labelId + (note + Reset + ['\n']);
    }
  }

  /** The same line, cut after the colour code. */
  lemma CounterShape(i: nat, total: nat, labelId: string, o: Outcome)
    ensures Printed(ColorOf(o), LogLine(i, total, labelId, o)) ==
      ColorOf(o) + ProgressLabel(i, total) + ([' '] + Lead(o) + labelId + NoteOf(o) + Reset + ['\n'])
  {
    var c, counter, tail := ColorOf(o), ProgressLabel(i, total), [' '] + Lead(o) + labelId + NoteOf(o);
    assert LogLine(i, total, labelId, o) == counter + tail;
    assert c + (counter + tail) + Reset == c + counter + (tail + Reset);
    assert c + counter + (tail + Reset) + ['\n'] == c + counter + (tail + Reset + ['\n']);
  }

  /** Nothing before the mark of a printed line is a mark. */
  lemma PrefixHasNoMark(i: nat, total: nat, o: Outcome)
    ensures var prefix := ColorOf(o) + ProgressLabel(i, total) + [' '];
      forall j :: 0 <= j < |prefix| ==> !SyncStream.IsMark(prefix[j])
  {
    var a, b := NatToString(i), NatToString(total);
    assert forall j :: 0 <= j < |a| ==> IsDigit(a[j]);
    assert forall j :: 0 <= j < |b| ==> IsDigit(b[j]);
    var counter := ProgressLabel(i, total);
    assert forall j :: 0 <= j < |counter| ==> counter[j] == '[' || counter[j] == '/' || counter[j] == ']' || IsDigit(counter[j]);
  }

  lemma PrintedToken(i: nat, total: nat, labelId: string, o: Outcome)
    requires PlainId(labelId)
    ensures SyncStream.FirstActivity(Printed(ColorOf(o), LogLine(i, total, labelId, o))) == Some(Token(labelId, o))
  {
    var prefix := ColorOf(o) + ProgressLabel(i, total) + [' '];
    var id := Token(labelId, o);
    var rest := if o == Done then ['\n'] else NoteOf(o) + Reset + ['\n'];
    LineShape(i, total, labelId, o);
    PrefixHasNoMark(i, total, o);
    assert forall j :: 0 <= j < |Word| ==> SyncStream.IsWordChar(Word[j]);
    assert forall j :: 0 <= j < |id| ==> !IsSpace(id[j]);
    assert Lead(o) == [MarkOf(o), ' '] + Word + ['活', '动', ' '];
    SyncStream.ActivityLine(prefix, MarkOf(o), Word, id, rest);
  }

  /** What the streaming route reads from the line printed for the k-th
      selected activity: the counter `[k+1/total]` and the activity's id. */
  lemma StreamReadsPrintout(metas: seq<ActivityMeta>, outcomes: seq<Outcome>, total: nat, k: nat)
    requires |outcomes| == |metas| && k < |metas| && PlainId(metas[k].labelId)
    ensures var line := Printout(metas, outcomes, total)[k];
      SyncStream.FirstProgress(line) == Some((k + 1, total)) &&
      SyncStream.ActivityId(line) == Some(metas[k].labelId)
  {
    var o := outcomes[k];
    var labelId := metas[k].labelId;
    var line := Printed(ColorOf(o), LogLine(k + 1, total, labelId, o));
    PrintoutAt(metas, outcomes, total, k);
    var d := if o == Done then '2' else if o == Skipped then '3' else '1';
    assert ColorOf(o) == ColorCode(d);
    var tail := [' '] + Lead(o) + labelId + NoteOf(o) + Reset + ['\n'];
    CounterShape(k + 1, total, labelId, o);
    PrintedCounter(d, k + 1, total, tail);
    PrintedToken(k + 1, total, labelId, o);
    assert forall j :: 0 <= j < |labelId| ==> SyncStream.NotEscape(labelId[j]);
    if o == Done {
      SyncStream.SpanOf(labelId, Reset, SyncStream.NotEscape);
    } else {
      assert labelId + [] == labelId;
      SyncStream.SpanOf(labelId, [], SyncStream.NotEscape);
    }
  }

  /** As written, the token captured from a stored activity's line ends in
      the colour reset, so the event the route sends does not carry the id. */
  lemma SuccessTokenKeepsReset(i: nat, total: nat, labelId: string, provider: string, t: SyncStream.Tally)
    requires PlainId(labelId)
    ensures SyncStream.FirstActivity(Printed(ColorOf(Done), LogLine(i, total, labelId, Done))) == Some(labelId + Reset)
    ensures var sent := SyncStream.ActivityEvents(provider, Printed(ColorOf(Done), LogLine(i, total, labelId, Done)), t);
      |sent| == 1 && sent[0].activityId == Some(labelId + Reset)
    ensures labelId + Reset != labelId
  {
    PrintedToken(i, total, labelId, Done);
  }

  // ---------------------------------------------------------------------
  // Options

  datatype Options = Options(onlyRunning: bool, withLaps: bool, force: bool, limit: JsNumber, dbPath: string)

  /** `args.indexOf(x)`, with `None` for -1. */
  function IndexOf(args: seq<string>, x: string): (r: Option<nat>)
    ensures r.None? <==> x !in args
    ensures r.Some? ==> r.value < |args| && args[r.value] == x && x !in args[..r.value]
  {
    if args == [] then None
    else if args[0] == x then Some(0)
    else match IndexOf(args[1..], x)
      case None => None
      case Some(k) =>
        assert args[..k + 1] == [args[0]] + args[1..][..k];
        Some(k + 1)
  }

  /** `args[args.indexOf(flag) + 1]`, "" when the flag or its value is absent. */
  function ValueAfter(args: seq<string>, flag: string): string
  {
    match IndexOf(args, flag)
    case Some(k) => if k + 1 < |args| then args[k + 1] else ""
    case None => ""
  }

  const DefaultDbPath: string := "app/data/activities.db"

  /** The command line of `main`. */
  function ParseOptions(args: seq<string>): (o: Options)
    ensures o.onlyRunning <==> "--all-types" !in args
    ensures o.withLaps <==> "--no-laps" !in args
    ensures o.force <==> "--force" in args
    ensures ValueAfter(args, "--limit") == "" ==> o.limit.Missing?
    ensures ValueAfter(args, "--limit") != "" ==> o.limit == JsParse.ParseInt(ValueAfter(args, "--limit"))
    ensures o.dbPath == Or(ValueAfter(args, "--db"), DefaultDbPath)
  {
    var limit := ValueAfter(args, "--limit");
    Options("--all-types" !in args, "--no-laps" !in args, "--force" in args,
            if limit != "" then JsParse.ParseInt(limit) else Missing,
            Or(ValueAfter(args, "--db"), DefaultDbPath))
  }

  /** The streaming route's `force` reaches the script, which then keeps
      laps and fetches running activities only. */
  lemma StreamForceReachesScript(config: map<string, string>, env: map<string, string>, force: bool)
    ensures var o := ParseOptions(SyncStream.CorosLaunch(config, env, force).args[1..]);
      o.force == force && o.withLaps && o.onlyRunning && o.dbPath == DefaultDbPath
  {
    var args := SyncStream.CorosLaunch(config, env, force).args[1..];
    assert args == (if force then ["--force"] else []);
    assert "--all-types" != "--force" && "--no-laps" != "--force";
  }

  /** The error the constructor throws when a credential is missing. */
  function StartupError(account: string, password: string): (r: Option<string>)
    ensures r.None? <==> account != "" && password != ""
  {
    if account == "" || password == "" then Some("COROS_ACCOUNT and COROS_PASSWORD environment variables must be set")
    else None
  }

  // ---------------------------------------------------------------------
  // The sync

  /** What the outside world answers for one activity: the download the
      COROS client returns when no file is cached, or the message of the
      exception it throws instead; the FIT file inside an archive; what the
      parser reads, or the message of the exception thrown while the file
      is written out and parsed; and the name a missing one falls back to. */
  datatype Remote = Remote(download: Option<seq<byte>>, downloadError: Option<string>,
                           unzipped: Option<seq<byte>>, fit: Fit, parseError: Option<string>,
                           fallbackName: string)

  /** The file a sync starts from: the cached one, or else the download. */
  function RawData(cached: Option<seq<byte>>, remote: Remote): Option<seq<byte>>
  {
    if cached.Some? then cached else remote.download
  }

  /** The FIT data of an activity: the raw file, with an archive replaced
      by the FIT file inside it. */
  function FitData(cached: Option<seq<byte>>, remote: Remote): Option<seq<byte>>
  {
    match RawData(cached, remote)
    case None => None
    case Some(data) => if IsZip(data) then remote.unzipped else Some(data)
  }

  /** Only a file that is not cached is downloaded, so only then can the
      download throw. */
  predicate DownloadThrows(cached: Option<seq<byte>>, remote: Remote)
  {
    cached.None? && remote.downloadError.Some?
  }

  /** The sync of an activity throws when the download throws, or when
      there is FIT data and parsing it throws. */
  predicate SyncThrows(cached: Option<seq<byte>>, remote: Remote)
  {
    DownloadThrows(cached, remote) || (FitData(cached, remote).Some? && remote.parseError.Some?)
  }

  /** Whether an activity gets stored: nothing throws, there is FIT data,
      it has a session, and the session shows heart rate. */
  predicate Stores(cached: Option<seq<byte>>, remote: Remote)
  {
    !SyncThrows(cached, remote) && FitData(cached, remote).Some? && remote.fit.activity.Some? &&
    HasHeartRateEvidence(remote.fit.activity.value, remote.fit.records)
  }

  /** How the sync of an activity ends, given the file cached for it:
      the loop reports a thrown exception with its message, a stored
      activity as done and anything else as skipped. */
  function OutcomeOf(cached: Option<seq<byte>>, remote: Remote): (o: Outcome)
    ensures o == Done <==> Stores(cached, remote)
    ensures o.Failed? <==> SyncThrows(cached, remote)
    ensures o == Skipped <==> !SyncThrows(cached, remote) && !Stores(cached, remote)
    ensures DownloadThrows(cached, remote) ==> o == Failed(remote.downloadError.value)
    ensures !DownloadThrows(cached, remote) && o.Failed? ==> o == Failed(remote.parseError.value)
  {
    if DownloadThrows(cached, remote) then Failed(remote.downloadError.value)
    else if FitData(cached, remote).None? then Skipped
    else if remote.parseError.Some? then Failed(remote.parseError.value)
    else if remote.fit.activity.Some? && HasHeartRateEvidence(remote.fit.activity.value, remote.fit.records) then Done
    else Skipped
  }

  function Cached(cache: map<string, seq<byte>>, id: string): Option<seq<byte>>
  {
    if id in cache then Some(cache[id]) else None
  }

  /** The answer for an activity; one the world gives no answer for
      downloads nothing. */
  function AnswerFor(answers: map<string, Remote>, labelId: string): Remote
  {
    if labelId in answers then answers[labelId] else Remote(None, None, None, Fit(None, [], []), None, "")
  }

  /** The tables a sync writes: activities by id, laps and records by
      activity id, and the FIT cache directory by file name. */
  datatype Tables = Tables(activities: map<string, ParsedActivity>, laps: map<string, seq<Store.Lap>>,
                           records: map<string, seq<Store.Record>>, fitCache: map<string, seq<byte>>)

  /** What a run is set up with: whether laps are kept, and how it
      enriches a parsed session (`Enrich` with the run's calculator). */
  datatype Setup = Setup(withLaps: bool, enrich: (ActivityMeta, ParsedActivity, string) -> ParsedActivity)

  /** The cache after an activity's sync: a download is written to it
      when no file was cached. */
  function CacheAfter(cache: map<string, seq<byte>>, id: string, remote: Remote): (r: map<string, seq<byte>>)
    ensures id !in cache && remote.downloadError.None? && remote.download.Some? ==>
      r == cache[id := remote.download.value]
    ensures id in cache || remote.downloadError.Some? || remote.download.None? ==> r == cache
  {
    if id in cache || remote.downloadError.Some? || remote.download.None? then cache
    else cache[id := remote.download.value]
  }

  /** The tables after the sync of one activity: the cache as above, and
      the enriched session, its tagged laps and its tagged records when the
      activity is stored. */
  function SyncStep(t: Tables, meta: ActivityMeta, remote: Remote, setup: Setup): Tables
  {
    var id := StoredId(meta.labelId);
    var cache := CacheAfter(t.fitCache, id, remote);
    if Stores(Cached(t.fitCache, id), remote) then
      var fit := remote.fit;
      Tables(t.activities[id := setup.enrich(meta, fit.activity.value, remote.fallbackName)],
             if setup.withLaps && |fit.laps| > 0 then t.laps[id := TagLaps(fit.laps, id)] else t.laps,
             if |fit.records| > 0 then t.records[id := TagRecords(fit.records, id)] else t.records,
             cache)
    else t.(fitCache := cache)
  }

  /** The tables after the sync of `metas`, in order. */
  function Run(t: Tables, metas: seq<ActivityMeta>, answers: map<string, Remote>, setup: Setup): Tables
  {
    if metas == [] then t
    else
      var n := |metas| - 1;
      SyncStep(Run(t, metas[..n], answers, setup), metas[n], AnswerFor(answers, metas[n].labelId), setup)
  }

  /** The outcome of each activity of `metas`, given the cache the ones
      before it left. */
  function RunOutcomes(t: Tables, metas: seq<ActivityMeta>, answers: map<string, Remote>, setup: Setup): (r: seq<Outcome>)
    ensures |r| == |metas|
  {
    if metas == [] then []
    else
      var n := |metas| - 1;
      var before := Run(t, metas[..n], answers, setup);
      RunOutcomes(t, metas[..n], answers, setup) +
        [OutcomeOf(Cached(before.fitCache, StoredId(metas[n].labelId)), AnswerFor(answers, metas[n].labelId))]
  }

  /** One more activity extends the run by one step. */
  lemma RunStep(t: Tables, metas: seq<ActivityMeta>, answers: map<string, Remote>, setup: Setup, i: nat)
    requires i < |metas|
    ensures var before := Run(t, metas[..i], answers, setup);
      var answer := AnswerFor(answers, metas[i].labelId);
      Run(t, metas[..i + 1], answers, setup) == SyncStep(before, metas[i], answer, setup) &&
      RunOutcomes(t, metas[..i + 1], answers, setup) ==
        RunOutcomes(t, metas[..i], answers, setup) + [OutcomeOf(Cached(before.fitCache, StoredId(metas[i].labelId)), answer)]
  {
    assert metas[..i + 1][..i] == metas[..i];
  }

  /** The k-th outcome of a run is that activity's outcome on the cache
      the earlier ones left. */
  lemma {:induction false} RunOutcomeAt(t: Tables, metas: seq<ActivityMeta>, answers: map<string, Remote>,
                                        setup: Setup, k: nat)
    requires k < |metas|
    ensures RunOutcomes(t, metas, answers, setup)[k] ==
      OutcomeOf(Cached(Run(t, metas[..k], answers, setup).fitCache, StoredId(metas[k].labelId)),
                AnswerFor(answers, metas[k].labelId))
  {
    var n := |metas| - 1;
    if k < n {
      RunOutcomeAt(t, metas[..n], answers, setup, k);
      assert metas[..n][..k] == metas[..k] && metas[..n][k] == metas[k];
    } else {
      assert metas[..k] == metas[..n];
    }
  }

  /** The sync of one activity touches only that activity's rows and cache file. */
  lemma SyncStepFrame(t: Tables, meta: ActivityMeta, remote: Remote, setup: Setup, id: string)
    requires id != StoredId(meta.labelId)
    ensures var r := SyncStep(t, meta, remote, setup);
      Cached(r.fitCache, id) == Cached(t.fitCache, id) &&
      (id in r.activities <==> id in t.activities) && (id in t.activities ==> r.activities[id] == t.activities[id]) &&
      (id in r.laps <==> id in t.laps) && (id in t.laps ==> r.laps[id] == t.laps[id]) &&
      (id in r.records <==> id in t.records) && (id in t.records ==> r.records[id] == t.records[id])
  {
  }

  /** The rows of an activity no entry of the run stands for are left as
      they were. */
  lemma {:induction false} RunFrame(t: Tables, metas: seq<ActivityMeta>, answers: map<string, Remote>,
                                    setup: Setup, id: string)
    requires forall k :: 0 <= k < |metas| ==> StoredId(metas[k].labelId) != id
    ensures var r := Run(t, metas, answers, setup);
      Cached(r.fitCache, id) == Cached(t.fitCache, id) &&
      (id in r.activities <==> id in t.activities) && (id in t.activities ==> r.activities[id] == t.activities[id]) &&
      (id in r.laps <==> id in t.laps) && (id in t.laps ==> r.laps[id] == t.laps[id]) &&
      (id in r.records <==> id in t.records) && (id in t.records ==> r.records[id] == t.records[id])
  {
    if metas != [] {
      var n := |metas| - 1;
      RunFrame(t, metas[..n], answers, setup, id);
      SyncStepFrame(Run(t, metas[..n], answers, setup), metas[n], AnswerFor(answers, metas[n].labelId), setup, id);
    }
  }

  /** A run adds to the activities table exactly the activities it
      reports stored. */
  lemma {:induction false} RunActivityKeys(t: Tables, metas: seq<ActivityMeta>, answers: map<string, Remote>, setup: Setup)
    ensures Run(t, metas, answers, setup).activities.Keys ==
      t.activities.Keys + StoredIds(metas, RunOutcomes(t, metas, answers, setup))
  {
    if metas != [] {
      var n := |metas| - 1;
      var id := StoredId(metas[n].labelId);
      var before := Run(t, metas[..n], answers, setup);
      var init := RunOutcomes(t, metas[..n], answers, setup);
      var answer := AnswerFor(answers, metas[n].labelId);
      var o := OutcomeOf(Cached(before.fitCache, id), answer);
      RunActivityKeys(t, metas[..n], answers, setup);
      SyncStepKeys(before, metas[n], answer, setup);
      assert RunOutcomes(t, metas, answers, setup) == init + [o];
      assert (init + [o])[..n] == init;
      assert StoredIds(metas, init + [o]) == StoredIds(metas[..n], init) + (if o == Done then {id} else {});
    }
  }

  /** The sync of one activity adds its row to the activities table
      exactly when it is stored. */
  lemma SyncStepKeys(t: Tables, meta: ActivityMeta, remote: Remote, setup: Setup)
    ensures var id := StoredId(meta.labelId);
      SyncStep(t, meta, remote, setup).activities.Keys ==
        t.activities.Keys + (if OutcomeOf(Cached(t.fitCache, id), remote) == Done then {id} else {})
  {
  }

  /** No two entries share a label id, as in the account's activity list. */
  predicate DistinctIds(metas: seq<ActivityMeta>)
  {
    Grouping.DistinctKeys(metas, (m: ActivityMeta) => m.labelId)
  }

  /** Every prefix of a list with distinct ids has distinct ids. */
  lemma DistinctIdsPrefix(metas: seq<ActivityMeta>, n: nat)
    requires DistinctIds(metas) && n <= |metas|
    ensures DistinctIds(metas[..n])
  {
    forall i, j | 0 <= i < j < n
      ensures metas[..n][i].labelId != metas[..n][j].labelId
    {
      assert metas[..n][i] == metas[i] && metas[..n][j] == metas[j];
    }
  }

  /** An activity whose sync stores it gets its enriched session as its row. */
  lemma SyncStepStoredRow(t: Tables, meta: ActivityMeta, remote: Remote, setup: Setup)
    requires OutcomeOf(Cached(t.fitCache, StoredId(meta.labelId)), remote) == Done
    ensures var r := SyncStep(t, meta, remote, setup);
      StoredId(meta.labelId) in r.activities && remote.fit.activity.Some? &&
      r.activities[StoredId(meta.labelId)] == setup.enrich(meta, remote.fit.activity.value, remote.fallbackName)
  {
  }

  /** With distinct ids, a stored activity's row is its enriched session. */
  lemma {:induction false} RunStoredRow(t: Tables, metas: seq<ActivityMeta>, answers: map<string, Remote>,
                                        setup: Setup, k: nat)
    requires DistinctIds(metas) && k < |metas|
    requires RunOutcomes(t, metas, answers, setup)[k] == Done
    ensures var answer := AnswerFor(answers, metas[k].labelId);
      var r := Run(t, metas, answers, setup);
      StoredId(metas[k].labelId) in r.activities && answer.fit.activity.Some? &&
      r.activities[StoredId(metas[k].labelId)] == setup.enrich(metas[k], answer.fit.activity.value, answer.fallbackName)
  {
    var n := |metas| - 1;
    var id := StoredId(metas[k].labelId);
    ghost var before := Run(t, metas[..n], answers, setup);
    ghost var init := RunOutcomes(t, metas[..n], answers, setup);
    ghost var answer := AnswerFor(answers, metas[n].labelId);
    ghost var o := OutcomeOf(Cached(before.fitCache, StoredId(metas[n].labelId)), answer);
    assert Run(t, metas, answers, setup) == SyncStep(before, metas[n], answer, setup);
    assert RunOutcomes(t, metas, answers, setup) == init + [o];
    if k < n {
      assert metas[..n][k] == metas[k];
      assert init[k] == Done;
      DistinctIdsPrefix(metas, n);
      RunStoredRow(t, metas[..n], answers, setup, k);
      assert metas[k].labelId != metas[n].labelId;
      if id == StoredId(metas[n].labelId) {
        StoredIdInjective(metas[k].labelId, metas[n].labelId);
      }
      SyncStepFrame(before, metas[n], answer, setup, id);
    } else {
      SyncStepStoredRow(before, metas[n], answer, setup);
    }
  }

  /** A file whose parsing throws stays cached and nothing is stored, so a
      later run parses the same file again instead of downloading it. */
  lemma ParseFailureKeepsFile(t: Tables, meta: ActivityMeta, remote: Remote, setup: Setup, later: Remote)
    requires StoredId(meta.labelId) !in t.fitCache
    requires remote.downloadError.None? && remote.download.Some?
    requires OutcomeOf(None, remote).Failed?
    ensures var r := SyncStep(t, meta, remote, setup);
      var cached := Cached(r.fitCache, StoredId(meta.labelId));
      r.activities == t.activities && r.laps == t.laps && r.records == t.records &&
      RawData(cached, later) == remote.download && !DownloadThrows(cached, later)
  {
    var id := StoredId(meta.labelId);
    assert Cached(t.fitCache, id) == None;
  }

  /** The ids of the activities a run stored. */
  function StoredIds(metas: seq<ActivityMeta>, outcomes: seq<Outcome>): set<string>
    requires |outcomes| == |metas|
  {
    if metas == [] then {}
    else
      var n := |metas| - 1;
      StoredIds(metas[..n], outcomes[..n]) + (if outcomes[n] == Done then {StoredId(metas[n].labelId)} else {})
  }

  /** Every activity reported stored is among them. */
  lemma {:induction false} StoredIdsMember(metas: seq<ActivityMeta>, outcomes: seq<Outcome>, k: nat)
    requires |outcomes| == |metas| && k < |metas| && outcomes[k] == Done
    ensures StoredId(metas[k].labelId) in StoredIds(metas, outcomes)
  {
    var n := |metas| - 1;
    if k < n {
      assert metas[..n][k] == metas[k] && outcomes[..n][k] == outcomes[k];
      StoredIdsMember(metas[..n], outcomes[..n], k);
    }
  }

  /** Every stored id is the id of some entry. */
  lemma {:induction false} StoredIdsWithin(metas: seq<ActivityMeta>, outcomes: seq<Outcome>, x: string)
    requires |outcomes| == |metas| && x in StoredIds(metas, outcomes)
    ensures exists k :: 0 <= k < |metas| && StoredId(metas[k].labelId) == x
  {
    var n := |metas| - 1;
    if x in StoredIds(metas[..n], outcomes[..n]) {
      StoredIdsWithin(metas[..n], outcomes[..n], x);
      var k :| 0 <= k < n && StoredId(metas[..n][k].labelId) == x;
      assert metas[..n][k] == metas[k];
    }
  }

  /** With distinct ids, the count of stored activities is the number of
      stored ids. */
  lemma {:induction false} StoredIdsCount(metas: seq<ActivityMeta>, outcomes: seq<Outcome>)
    requires |outcomes| == |metas| && DistinctIds(metas)
    ensures |StoredIds(metas, outcomes)| == Synced(outcomes)
  {
    if metas != [] {
      var n := |metas| - 1;
      assert DistinctIds(metas[..n]) by {
        forall i, j | 0 <= i < j < n
          ensures metas[..n][i].labelId != metas[..n][j].labelId
        {
          assert metas[..n][i] == metas[i] && metas[..n][j] == metas[j];
        }
      }
      StoredIdsCount(metas[..n], outcomes[..n]);
      var id := StoredId(metas[n].labelId);
      if id in StoredIds(metas[..n], outcomes[..n]) {
        StoredIdsWithin(metas[..n], outcomes[..n], id);
        assert false;
      }
    }
  }

  /** An unforced run over an activity list with distinct ids adds one row
      to the activities table per activity it reports stored. */
  lemma UnforcedSyncCountsNewRows(all: seq<ActivityMeta>, t: Tables, answers: map<string, Remote>, setup: Setup)
    requires DistinctIds(all)
    ensures var toSync := ToSync(all, t.activities.Keys, false);
      |Run(t, toSync, answers, setup).activities.Keys - t.activities.Keys| ==
        Synced(RunOutcomes(t, toSync, answers, setup))
  {
    var toSync := ToSync(all, t.activities.Keys, false);
    var outcomes := RunOutcomes(t, toSync, answers, setup);
    Grouping.FilterKeepsDistinct(all, (m: ActivityMeta) => StoredId(m.labelId) !in t.activities.Keys,
                                 (m: ActivityMeta) => m.labelId);
    RunActivityKeys(t, toSync, answers, setup);
    StoredIdsCount(toSync, outcomes);
    var stored := StoredIds(toSync, outcomes);
    forall x | x in stored
      ensures x !in t.activities.Keys
    {
      StoredIdsWithin(toSync, outcomes, x);
      var k :| 0 <= k < |toSync| && StoredId(toSync[k].labelId) == x;
      assert toSync[k] in toSync;
    }
    assert Run(t, toSync, answers, setup).activities.Keys - t.activities.Keys == stored;
  }

  datatype Summary = Summary(success: bool, synced: nat, total: nat)

  class CorosSync {
    const withLaps: bool
    const force: bool
    const calculator: Option<Calculator>
    const exp: real -> real
    /** The activities table by id, and laps and records by activity id. */
    var activities: map<string, ParsedActivity>
    var laps: map<string, seq<Store.Lap>>
    var records: map<string, seq<Store.Record>>
    /** The FIT cache directory, by file name. */
    var fitCache: map<string, seq<byte>>
    /** The per-activity lines printed so far. */
    var output: seq<string>

    constructor(account: string, password: string, maxHrEnv: string, restingHrEnv: string,
                options: Options, exp: real -> real,
                activities: map<string, ParsedActivity>, laps: map<string, seq<Store.Lap>>,
                records: map<string, seq<Store.Record>>, fitCache: map<string, seq<byte>>)
      requires StartupError(account, password).None?
      ensures withLaps == options.withLaps && force == options.force && this.exp == exp
      ensures calculator == MakeCalculator(maxHrEnv, restingHrEnv)
      ensures this.activities == activities && this.laps == laps && this.records == records
      ensures this.fitCache == fitCache && output == []
    {
      withLaps := options.withLaps;
      force := options.force;
      calculator := MakeCalculator(maxHrEnv, restingHrEnv);
      this.exp := exp;
      this.activities := activities;
      this.laps := laps;
      this.records := records;
      this.fitCache := fitCache;
      output := [];
    }

    /** The tables, as one value. */
    function State(): Tables
      reads this
    {
      Tables(activities, laps, records, fitCache)
    }

    /** The run's setup: its laps option and `Enrich` with its calculator. */
    function RunSetup(): Setup
    {
      Setup(withLaps, (meta: ActivityMeta, a: ParsedActivity, fallbackName: string) =>
                        Enrich(meta, a, fallbackName, calculator, exp))
    }

    /** `_syncActivity`: read the cached file or download and cache it,
      unpack an archive, parse it, and store the session, its laps and its
      records when it shows heart rate. `thrown` is the message of an
      exception it throws. */
    method SyncActivity(meta: ActivityMeta, remote: Remote) returns (success: bool, thrown: Option<string>)
      modifies this
      ensures var cached := Cached(old(fitCache), StoredId(meta.labelId));
        (success <==> Stores(cached, remote)) && (thrown.Some? <==> SyncThrows(cached, remote)) &&
        (thrown.Some? ==> OutcomeOf(cached, remote) == Failed(thrown.value))
      ensures State() == SyncStep(old(State()), meta, remote, RunSetup())
      ensures output == old(output)
    {
      var id := StoredId(meta.labelId);
      var raw: Option<seq<byte>>;
      if id in fitCache {
        raw := Some(fitCache[id]);
      } else {
        if remote.downloadError.Some? {
          return false, remote.downloadError;
        }
        raw := remote.download;
        if raw.Some? {
          fitCache := fitCache[id := raw.value];
        }
      }
      if raw.None? {
        return false, None;
      }
      var fitData := raw.value;
      if IsZip(fitData) {
        if remote.unzipped.None? {
          return false, None;
        }
        fitData := remote.unzipped.value;
      }
      if remote.parseError.Some? {
        return false, remote.parseError;
      }
      var fit := remote.fit;
      if fit.activity.None? {
        return false, None;
      }
      if !HasHeartRateEvidence(fit.activity.value, fit.records) {
        return false, None;
      }
      activities := activities[id := Enrich(meta, fit.activity.value, remote.fallbackName, calculator, exp)];
      if withLaps && |fit.laps| > 0 {
        laps := laps[id := TagLaps(fit.laps, id)];
      }
      if |fit.records| > 0 {
        records := records[id := TagRecords(fit.records, id)];
      }
      success, thrown := true, None;
    }

    /** One turn of the loop: sync the activity, or report the exception
      its sync threw, and print its line. */
    method SyncOne(meta: ActivityMeta, answer: Remote, i: nat, total: nat) returns (o: Outcome)
      modifies this
      ensures o == OutcomeOf(Cached(old(fitCache), StoredId(meta.labelId)), answer)
      ensures State() == SyncStep(old(State()), meta, answer, RunSetup())
      ensures output == old(output) + [Printed(ColorOf(o), LogLine(i, total, meta.labelId, o))]
    {
      var success, thrown := SyncActivity(meta, answer);
      if thrown.Some? {
        o := Failed(thrown.value);
      } else {
        o := if success then Done else Skipped;
      }
      output := output + [Printed(ColorOf(o), LogLine(i, total, meta.labelId, o))];
    }

    /** `syncAll` after the activity list is fetched: select, then sync
      each selected activity in order and print its line. An activity
      whose sync throws is reported and the loop goes on. */
    method SyncAll(all: seq<ActivityMeta>, answers: map<string, Remote>) returns (result: Summary, outcomes: seq<Outcome>)
      modifies this
      ensures var toSync := ToSync(all, old(activities).Keys, force);
        outcomes == RunOutcomes(old(State()), toSync, answers, RunSetup()) &&
        State() == Run(old(State()), toSync, answers, RunSetup()) &&
        result == Summary(true, Synced(outcomes), if toSync == [] then |all| else |toSync|) &&
        output == old(output) + Printout(toSync, outcomes, |toSync|)
      ensures result.synced <= result.total
    {
      var toSync := ToSync(all, activities.Keys, force);
      outcomes := [];
      if |toSync| == 0 {
        return Summary(true, 0, |all|), [];
      }
      var successCount;
      successCount, outcomes := SyncEach(toSync, answers);
      result := Summary(true, successCount, |toSync|);
    }

    /** The body of the loop in `SyncEach`: sync the `i`-th selected
      activity and extend the loop's invariants by one activity. */
    method SyncNext(toSync: seq<ActivityMeta>, answers: map<string, Remote>, i: nat,
                    successCount: nat, outcomes: seq<Outcome>, ghost start: seq<string>, ghost initial: Tables)
      returns (successCount': nat, outcomes': seq<Outcome>)
      requires i < |toSync|
      requires outcomes == RunOutcomes(initial, toSync[..i], answers, RunSetup())
      requires State() == Run(initial, toSync[..i], answers, RunSetup())
      requires successCount == Synced(outcomes)
      requires output == start + Printout(toSync[..i], outcomes, |toSync|)
      modifies this
      ensures outcomes' == RunOutcomes(initial, toSync[..i + 1], answers, RunSetup())
      ensures State() == Run(initial, toSync[..i + 1], answers, RunSetup())
      ensures successCount' == Synced(outcomes')
      ensures output == start + Printout(toSync[..i + 1], outcomes', |toSync|)
    {
      var meta := toSync[i];
      ghost var printed := output;
      RunStep(initial, toSync, answers, RunSetup(), i);
      var o := SyncOne(meta, AnswerFor(answers, meta.labelId), i + 1, |toSync|);
      successCount' := if o == Done then successCount + 1 else successCount;
      PrintoutStep(start, printed, output, toSync, outcomes, o, |toSync|, i);
      SyncedStep(outcomes, o);
      outcomes' := outcomes + [o];
    }

    /** The loop of `syncAll` over the selected activities, counting the
      stored ones. */
    method SyncEach(toSync: seq<ActivityMeta>, answers: map<string, Remote>) returns (successCount: nat, outcomes: seq<Outcome>)
      modifies this
      ensures outcomes == RunOutcomes(old(State()), toSync, answers, RunSetup())
      ensures State() == Run(old(State()), toSync, answers, RunSetup())
      ensures successCount == Synced(outcomes)
      ensures output == old(output) + Printout(toSync, outcomes, |toSync|)
    {
      outcomes := [];
      successCount := 0;
      var total := |toSync|;
      var i := 0;
      assert toSync[..0] == [];
      while i < total
        invariant 0 <= i <= total
        invariant outcomes == RunOutcomes(old(State()), toSync[..i], answers, RunSetup())
        invariant State() == Run(old(State()), toSync[..i], answers, RunSetup())
        invariant successCount == Synced(outcomes)
        invariant output == old(output) + Printout(toSync[..i], outcomes, total)
      {
        successCount, outcomes := SyncNext(toSync, answers, i, successCount, outcomes, old(output), old(State()));
        i := i + 1;
      }
      assert toSync[..total] == toSync;
    }
  }

  /** Printing the line of the `i`-th activity extends the printout by it. */
  lemma PrintoutStep(start: seq<string>, before: seq<string>, after: seq<string>,
                     metas: seq<ActivityMeta>, outcomes: seq<Outcome>, o: Outcome, total: nat, i: nat)
    requires i < |metas| && |outcomes| == i
    requires before == start + Printout(metas[..i], outcomes, total)
    requires after == before + [Printed(ColorOf(o), LogLine(i + 1, total, metas[i].labelId, o))]
    ensures after == start + Printout(metas[..i + 1], outcomes + [o], total)
  {
    assert metas[..i + 1][..i] == metas[..i];
    assert (outcomes + [o])[..i] == outcomes;
  }

  lemma SyncedStep(outcomes: seq<Outcome>, o: Outcome)
    ensures Synced(outcomes + [o]) == Synced(outcomes) + (if o == Done then 1 else 0)
  {
    assert (outcomes + [o])[..|outcomes|] == outcomes;
  }
}
