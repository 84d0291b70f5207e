/**
 * The streamed sync: the server runs the selected sync scripts one after
 * another and reports each step as an event. While a script runs, every
 * chunk of its standard output is scanned for a `[n/m]` progress counter
 * and for an activity line (a status mark, a word ending in "活动" and the
 * activity id), and each activity line becomes one event.
 *
 * The child process is not modelled: its output chunks, its standard
 * error and how it ended are parameters (`ProviderRun`).
 */
module SyncStream {
  import opened Js
  import opened Text
  import opened Settings
  import JsParse
  import SyncRoute
  import opened SettingsPage

  /** The longest run at the start of `s` of characters satisfying `p`. */
  function Span(s: string, p: char -> bool): (r: string)
    ensures r <= s
    ensures forall i :: 0 <= i < |r| ==> p(r[i])
    ensures |r| < |s| ==> !p(s[|r|])
  {
    if s != [] && p(s[0]) then [s[0]] + Span(s[1..], p) else []
  }

  /** The match at the first position at or after `k` where `m` matches. */
  function FirstMatch<T>(text: string, k: nat, m: string -> Option<T>): Option<T>
    requires k <= |text|
    decreases |text| - k
  {
    if m(text[k..]).Some? then m(text[k..])
    else if k == |text| then None
    else FirstMatch(text, k + 1, m)
  }

  /** `FirstMatch` is the leftmost match, as the search of a regular
      expression finds it: no position before it matches, and there is
      none only when no position matches. */
  lemma {:induction false} FirstMatchLeftmost<T>(text: string, k: nat, m: string -> Option<T>)
    requires k <= |text|
    ensures var r := FirstMatch(text, k, m);
      r.Some? ==> exists i :: k <= i <= |text| && m(text[i..]) == r && forall j :: k <= j < i ==> m(text[j..]).None?
    ensures FirstMatch(text, k, m).None? ==> forall i :: k <= i <= |text| ==> m(text[i..]).None?
    decreases |text| - k
  {
    if m(text[k..]).None? && k < |text| {
      FirstMatchLeftmost(text, k + 1, m);
    }
  }

  /** Positions where `m` does not match are passed over. */
  lemma {:induction false} FirstMatchSkip<T>(text: string, from: nat, k: nat, m: string -> Option<T>)
    requires from <= k <= |text|
    requires forall j :: from <= j < k ==> m(text[j..]).None?
    ensures FirstMatch(text, from, m) == FirstMatch(text, k, m)
    decreases k - from
  {
    if from < k {
      FirstMatchSkip(text, from + 1, k, m);
    }
  }

  /** A match where the search starts is the one found. */
  lemma FirstMatchAt<T>(text: string, k: nat, m: string -> Option<T>)
    requires k <= |text| && m(text[k..]).Some?
    ensures FirstMatch(text, k, m) == m(text[k..])
  {
  }

  // ---------------------------------------------------------------------
  // "[n/m]"

  /** `(\d+)\]` at the start of `s`: a number and the closing bracket. */
  function Closing(s: string): Option<nat>
  {
    var digits := JsParse.LeadingDigits(s);
    var tail := s[|digits|..];
    if digits == [] || tail == [] || tail[0] != ']' then None else Some(DigitsValue(digits))
  }

  /** `(\d+)\/(\d+)\]` at the start of `s`. */
  function Counters(s: string): Option<(nat, nat)>
  {
    var digits := JsParse.LeadingDigits(s);
    var rest := s[|digits|..];
    if digits == [] || rest == [] || rest[0] != '/' then None
    else
      match Closing(rest[1..])
      case Some(n) => Some((DigitsValue(digits), n))
      case None => None
  }

  /** `\[(\d+)\/(\d+)\]` at the start of `s`, with both numbers read by
      `parseInt`. Neither digit run can stop early, since a digit is not
      the '/' or ']' that must follow it. */
  function ProgressMatch(s: string): Option<(nat, nat)>
  {
    if s == [] || s[0] != '[' then None else Counters(s[1..])
  }

  /** `text.match(/\[(\d+)\/(\d+)\]/)`: the first counter in the chunk. */
  function FirstProgress(text: string): Option<(nat, nat)>
  {
    FirstMatch(text, 0, ProgressMatch)
  }

  lemma ClosingOf(digits: string, tail: string)
    requires digits != [] && AllDigits(digits)
    ensures Closing(digits + [']'] + tail) == Some(DigitsValue(digits))
  {
    var after := [']'] + tail;
    assert digits + [']'] + tail == digits + after;
    JsParse.LeadingDigitsOf(digits, after);
    assert (digits + after)[|digits|..] == after;
  }

  lemma CountersOf(first: string, second: string, tail: string)
    requires first != [] && AllDigits(first) && second != [] && AllDigits(second)
    ensures Counters(first + ['/'] + second + [']'] + tail) == Some((DigitsValue(first), DigitsValue(second)))
  {
    var rest := ['/'] + (second + [']'] + tail);
    var s := first + rest;
    assert s == first + ['/'] + second + [']'] + tail;
    JsParse.LeadingDigitsOf(first, rest);
    assert s[|first|..] == rest;
    assert rest[1..] == second + [']'] + tail;
    ClosingOf(second, tail);
  }

  /** A chunk that starts with a counter `[c/n]`, both written as
      `String`, reports that counter. */
  lemma ProgressLine(c: nat, n: nat, tail: string)
    ensures FirstProgress(['['] + NatToString(c) + ['/'] + NatToString(n) + [']'] + tail) == Some((c, n))
  {
    var body := NatToString(c) + ['/'] + NatToString(n) + [']'] + tail;
    var s := ['['] + body;
    assert s == ['['] + NatToString(c) + ['/'] + NatToString(n) + [']'] + tail;
    CountersOf(NatToString(c), NatToString(n), tail);
    NatToStringRoundTrip(c);
    NatToStringRoundTrip(n);
    assert s[1..] == body;
    assert s[0..] == s;
    assert ProgressMatch(s[0..]) == Some((c, n));
    FirstMatchAt(s, 0, ProgressMatch);
  }

  /** The counters shown with the next activity event. */
  datatype Tally = Tally(current: nat, total: nat)

  /** The first counter in the chunk replaces both numbers; a chunk
      without one leaves them as they were. */
  function Advance(t: Tally, text: string): (r: Tally)
    ensures FirstProgress(text).None? ==> r == t
    ensures FirstProgress(text).Some? ==>
      r.current == FirstProgress(text).value.0 && r.total == FirstProgress(text).value.1
  {
    match FirstProgress(text)
    case Some((c, n)) => Tally(c, n)
    case None => t
  }

  // ---------------------------------------------------------------------
  // Activity lines

  /** `\w`: ASCII letters, digits and `_`. */
  predicate IsWordChar(c: char)
  {
    'a' <= c <= 'z' || 'A' <= c <= 'Z' || IsDigit(c) || c == '_'
  }

  predicate NotSpace(c: char)
  {
    !IsSpace(c)
  }

  /** The status marks: done, failed, skipped. */
  predicate IsMark(c: char)
  {
    c == '✓' || c == '✗' || c == '○'
  }

  /** `\s+(\S+)` at the start of `s`, with the captured run. */
  function IdAfterGap(s: string): Option<string>
  {
    var gap := Span(s, IsSpace);
    var id := Span(s[|gap|..], NotSpace);
    if gap == [] || id == [] then None else Some(id)
  }

  /** `\s+\w+活动\s+(\S+)` at the start of `s`. */
  function AfterMark(s: string): Option<string>
  {
    var gap := Span(s, IsSpace);
    var afterGap := s[|gap|..];
    var word := Span(afterGap, IsWordChar);
    var afterWord := afterGap[|word|..];
    if gap == [] || word == [] || !("活动" <= afterWord) then None else IdAfterGap(afterWord[2..])
  }

  /** `(?:✓|✗|○)\s+\w+活动\s+(\S+)` at the start of `s`, with the captured id.
      The character classes of neighbouring parts are disjoint, so each
      run is the longest one. */
  function ActivityMatch(s: string): Option<string>
  {
    if s == [] || !IsMark(s[0]) then None else AfterMark(s[1..])
  }

  /** `text.match(...)` for the activity line: the first one in the chunk,
      with the token it captures as written. */
  function FirstActivity(text: string): Option<string>
  {
    FirstMatch(text, 0, ActivityMatch)
  }

  /** The escape character that starts a terminal colour code. */
  const Escape: char := '\U{1B}'

  predicate NotEscape(c: char)
  {
    c != Escape
  }

  /** The activity id the capture is meant to yield: the captured token up
      to the first escape character, so that a colour code written right
      after the id is not taken for part of it. The route sends the token
      as written (`ActivityEvents`); this is the corrected reading. */
  function ActivityId(text: string): (r: Option<string>)
    ensures r.Some? <==> FirstActivity(text).Some?
    ensures r.Some? ==> r.value <= FirstActivity(text).value && Escape !in r.value
  {
    match FirstActivity(text)
    case Some(token) => Some(Span(token, NotEscape))
    case None => None
  }

  lemma IdAfterGapOf(id: string, rest: string)
    requires id != [] && forall i :: 0 <= i < |id| ==> !IsSpace(id[i])
    requires rest == [] || IsSpace(rest[0])
    ensures IdAfterGap([' '] + id + rest) == Some(id)
  {
    var s := [' '] + (id + rest);
    assert s == [' '] + id + rest;
    SpanOf([' '], id + rest, IsSpace);
    assert s[1..] == id + rest;
    SpanOf(id, rest, NotSpace);
  }

  lemma AfterMarkOf(word: string, id: string, rest: string)
    requires word != [] && forall i :: 0 <= i < |word| ==> IsWordChar(word[i])
    requires id != [] && forall i :: 0 <= i < |id| ==> !IsSpace(id[i])
    requires rest == [] || IsSpace(rest[0])
    ensures AfterMark([' '] + (word + (['活', '动'] + ([' '] + id + rest)))) == Some(id)
  {
    var tail := [' '] + id + rest;
    var afterWord := ['活', '动'] + tail;
    var afterGap := word + afterWord;
    var s := [' '] + afterGap;
    assert Span(s, IsSpace) == [' '] by {
      SpanOf([' '], afterGap, IsSpace);
    }
    assert s[1..] == afterGap;
    assert Span(afterGap, IsWordChar) == word by {
      SpanOf(word, afterWord, IsWordChar);
    }
    assert afterGap[|word|..] == afterWord;
    assert "活动" <= afterWord;
    assert afterWord[2..] == tail;
    assert IdAfterGap(tail) == Some(id) by {
      IdAfterGapOf(id, rest);
    }
  }

  /** A chunk "... ✓ Garmin活动 12345 ..." reports the token "12345" when
      nothing before the mark is a mark. */
  lemma ActivityLine(prefix: string, mark: char, word: string, id: string, rest: string)
    requires forall j :: 0 <= j < |prefix| ==> !IsMark(prefix[j])
    requires IsMark(mark) && word != [] && forall i :: 0 <= i < |word| ==> IsWordChar(word[i])
    requires id != [] && forall i :: 0 <= i < |id| ==> !IsSpace(id[i])
    requires rest == [] || IsSpace(rest[0])
    ensures FirstActivity(prefix + ([mark, ' '] + word + ['活', '动', ' ']) + id + rest) == Some(id)
  {
    var body := [' '] + (word + (['活', '动'] + ([' '] + id + rest)));
    var line := [mark] + body;
    var s := prefix + line;
    assert s == prefix + ([mark, ' '] + word + ['活', '动', ' ']) + id + rest;
    forall j | 0 <= j < |prefix|
      ensures ActivityMatch(s[j..]).None?
    {
      assert s[j..][0] == prefix[j];
    }
    FirstMatchSkip(s, 0, |prefix|, ActivityMatch);
    AfterMarkOf(word, id, rest);
    assert s[|prefix|..] == line;
    assert line[1..] == body;
    FirstMatchAt(s, |prefix|, ActivityMatch);
  }

  /** The span of a run followed by a character outside the class is the run. */
  lemma {:induction false} SpanOf(run: string, tail: string, p: char -> bool)
    requires forall i :: 0 <= i < |run| ==> p(run[i])
    requires tail == [] || !p(tail[0])
    ensures Span(run + tail, p) == run
  {
    if run == [] {
      assert run + tail == tail;
    } else {
      assert (run + tail)[1..] == run[1..] + tail;
      SpanOf(run[1..], tail, p);
    }
  }

  // ---------------------------------------------------------------------
  // Events

  /** One server-sent event; `counts` and `activityId` only on activity events. */
  datatype Event = Event(kind: EventType, provider: string, message: string,
                         counts: Option<Tally>, activityId: Option<string>)

  /** Done when the chunk holds a '✓' anywhere, else skipped when it holds
      a '○', else failed. */
  function Classify(text: string): (r: EventType)
    ensures r == Complete <==> '✓' in text
    ensures r == Skip <==> '✓' !in text && '○' in text
    ensures r == Error <==> '✓' !in text && '○' !in text
  {
    if '✓' in text then Complete else if '○' in text then Skip else Error
  }

  /** The event a chunk produces, if it holds an activity line; it carries
      the captured token as written. */
  function ActivityEvents(provider: string, text: string, t: Tally): (r: seq<Event>)
    ensures |r| <= 1
    ensures r != [] <==> FirstActivity(text).Some?
    ensures r != [] ==> r[0].provider == provider && r[0].kind == Classify(text) &&
                        r[0].counts == Some(t) && r[0].activityId == FirstActivity(text) &&
                        r[0].message == Trim(text)
  {
    match FirstActivity(text)
    case Some(id) => [Event(Classify(text), provider, Trim(text), Some(t), Some(id))]
    case None => []
  }

  /** The event of a chunk, if any, is the provider's and names an activity. */
  lemma SentShape(provider: string, text: string, t: Tally)
    ensures forall i :: 0 <= i < |ActivityEvents(provider, text, t)| ==>
      var e := ActivityEvents(provider, text, t)[i];
      e.provider == provider && e.kind != Start && e.kind != Progress && e.activityId.Some?
  {
  }

  /** The counters after a run of chunks. */
  function TallyAfter(chunks: seq<string>): Tally
  {
    if chunks == [] then Tally(0, 0)
    else Advance(TallyAfter(chunks[..|chunks| - 1]), chunks[|chunks| - 1])
  }

  /** The activity events of a run of chunks, in order. */
  function ChunkEvents(provider: string, chunks: seq<string>): (r: seq<Event>)
    ensures |r| <= |chunks|
    ensures forall i :: 0 <= i < |r| ==>
      r[i].provider == provider && r[i].kind != Start && r[i].kind != Progress && r[i].activityId.Some?
  {
    if chunks == [] then []
    else
      var last := chunks[|chunks| - 1];
      var sent := ActivityEvents(provider, last, TallyAfter(chunks));
      SentShape(provider, last, TallyAfter(chunks));
      ChunkEvents(provider, chunks[..|chunks| - 1]) + sent
  }

  function Concat(chunks: seq<string>): string
  {
    if chunks == [] then "" else Concat(chunks[..|chunks| - 1]) + chunks[|chunks| - 1]
  }

  /** The listener state of one running script: everything read so far
      from its output streams, the counters, and the events it sent. */
  class ScriptMonitor {
    const provider: string
    var stdout: string
    var stderr: string
    var tally: Tally
    var progressCounter: nat
    var events: seq<Event>

    /** One event per counted activity line, all of them the provider's. */
    ghost predicate Valid()
      reads this
    {
      progressCounter == |events| &&
      forall i :: 0 <= i < |events| ==> events[i].provider == provider && events[i].activityId.Some?
    }

    constructor(provider: string)
      ensures this.provider == provider && stdout == "" && stderr == "" && tally == Tally(0, 0)
      ensures progressCounter == 0 && events == [] && Valid()
    {
      this.provider := provider;
      stdout, stderr := "", "";
      tally := Tally(0, 0);
      progressCounter := 0;
      events := [];
    }

    /** The `data` handler of standard output. */
    method OnStdout(text: string)
      requires Valid()
      modifies this
      ensures Valid()
      ensures stdout == old(stdout) + text && stderr == old(stderr)
      ensures tally == Advance(old(tally), text)
      ensures events == old(events) + ActivityEvents(provider, text, tally)
      ensures progressCounter == old(progressCounter) + |ActivityEvents(provider, text, tally)|
    {
      var counts := Advance(tally, text);
      var sent := ActivityEvents(provider, text, counts);
      SentShape(provider, text, counts);
      stdout, tally := stdout + text, counts;
      progressCounter, events := progressCounter + |sent|, events + sent;
    }

    /** The `data` handler of standard error. */
    method OnStderr(text: string)
      requires Valid()
      modifies this
      ensures Valid()
      ensures stderr == old(stderr) + text
      ensures stdout == old(stdout) && tally == old(tally) && events == old(events) &&
              progressCounter == old(progressCounter)
    {
      stderr := stderr + text;
    }

    /** The `close` and `error` handlers: the same answer as the plain sync's. */
    method OnExit(exit: SyncRoute.ScriptExit) returns (result: SyncRoute.SyncResult)
      ensures result == SyncRoute.ScriptResult(SyncRoute.ScriptRun(exit, stdout, stderr))
      ensures result.success <==> exit == SyncRoute.Exited(0)
    {
      result := SyncRoute.ScriptResult(SyncRoute.ScriptRun(exit, stdout, stderr));
    }
  }

  /** What a script does while it runs: its output chunks, its standard
      error and how it ended. */
  datatype ProviderRun = ProviderRun(chunks: seq<string>, stderr: string, exit: SyncRoute.ScriptExit)

  /** One more chunk extends the output, the counters and the events by that chunk's share. */
  lemma ChunkStep(provider: string, chunks: seq<string>, i: nat)
    requires i < |chunks|
    ensures Concat(chunks[..i + 1]) == Concat(chunks[..i]) + chunks[i]
    ensures TallyAfter(chunks[..i + 1]) == Advance(TallyAfter(chunks[..i]), chunks[i])
    ensures ChunkEvents(provider, chunks[..i + 1]) ==
      ChunkEvents(provider, chunks[..i]) + ActivityEvents(provider, chunks[i], TallyAfter(chunks[..i + 1]))
  {
    assert chunks[..i + 1][..i] == chunks[..i];
  }

  /** `runSyncWithProgress`: feeds every chunk to the monitor, then reports
      how the script ended. */
  method RunWithProgress(provider: string, run: ProviderRun) returns (events: seq<Event>, result: SyncRoute.SyncResult)
    ensures events == ChunkEvents(provider, run.chunks)
    ensures result == SyncRoute.ScriptResult(SyncRoute.ScriptRun(run.exit, Concat(run.chunks), run.stderr))
  {
    var monitor := new ScriptMonitor(provider);
    var i := 0;
    while i < |run.chunks|
      invariant 0 <= i <= |run.chunks|
      invariant monitor.Valid() && monitor.provider == provider
      invariant monitor.stdout == Concat(run.chunks[..i]) && monitor.stderr == ""
      invariant monitor.tally == TallyAfter(run.chunks[..i])
      invariant monitor.events == ChunkEvents(provider, run.chunks[..i])
    {
      ChunkStep(provider, run.chunks, i);
      monitor.OnStdout(run.chunks[i]);
      i := i + 1;
    }
    assert run.chunks[..i] == run.chunks;
    monitor.OnStderr(run.stderr);
    events := monitor.events;
    result := monitor.OnExit(run.exit);
  }

  // ---------------------------------------------------------------------
  // The stream

  /** A child process the stream starts: script, arguments and the
      variables added to its environment. */
  datatype Launch = Launch(script: string, args: seq<string>, env: Config)

  const GarminScript: string := "scripts/sync-garmin.js"
  const CorosScript: string := "scripts/sync-coros.js"

  /** The last event of a provider: done or failed, with the script's message. */
  function FinalEvent(provider: string, result: SyncRoute.SyncResult): (e: Event)
    ensures e.provider == provider && e.message == result.message
    ensures e.kind == Complete <==> result.success
    ensures e.kind == Error <==> !result.success
  {
    Event(if result.success then Complete else Error, provider, result.message, None, None)
  }

  /** The events of one provider: a skip without credentials; otherwise
      its start, its activity events and its final event. */
  function ProviderEvents(provider: string, hasCredentials: bool, startMessage: string, skipMessage: string,
                          run: ProviderRun): (r: seq<Event>)
    ensures r != []
    ensures forall i :: 0 <= i < |r| ==> r[i].provider == provider
  {
    if !hasCredentials then [Event(Skip, provider, skipMessage, None, None)]
    else
      var result := SyncRoute.ScriptResult(SyncRoute.ScriptRun(run.exit, Concat(run.chunks), run.stderr));
      [Event(Start, provider, startMessage, None, None)] + ChunkEvents(provider, run.chunks) +
      [FinalEvent(provider, result)]
  }

  /** A provider with credentials ends with a done event exactly when its
      script exited with code 0; one without gets a single skip event. */
  lemma ProviderOutcome(provider: string, hasCredentials: bool, startMessage: string, skipMessage: string,
                        run: ProviderRun)
    ensures var r := ProviderEvents(provider, hasCredentials, startMessage, skipMessage, run);
      (hasCredentials ==> r[0].kind == Start && (r[|r| - 1].kind == Complete <==> run.exit == SyncRoute.Exited(0))) &&
      (!hasCredentials ==> |r| == 1 && r[0].kind == Skip)
  {
  }

  function GarminToken(config: Config, env: Config): string
  {
    Or(Get(config, "GARMIN_SECRET_STRING"), Get(env, "GARMIN_SECRET_STRING"))
  }

  predicate HasCorosCredentials(config: Config, env: Config)
  {
    Or(Get(config, "COROS_ACCOUNT"), Get(env, "COROS_ACCOUNT")) != "" &&
    Or(Get(config, "COROS_PASSWORD"), Get(env, "COROS_PASSWORD")) != ""
  }

  function CorosStartMessage(force: bool): string
  {
    if force then "强制重新同步 COROS 数据..." else "开始同步 COROS 数据..."
  }

  const StartEvent: Event := Event(Start, "", "开始同步...", None, None)
  const DoneEvent: Event := Event(Complete, "", "全部同步完成", None, None)

  /** Garmin's part of the stream, when the selection includes it. */
  function GarminPart(provider: string, config: Config, env: Config, garmin: ProviderRun): (r: seq<Event>)
    ensures forall i :: 0 <= i < |r| ==> r[i].provider == "Garmin"
    ensures SyncRoute.RunsGarmin(provider) <==> r != []
  {
    if SyncRoute.RunsGarmin(provider) then
      ProviderEvents("Garmin", GarminToken(config, env) != "", "开始同步 Garmin 数据...", "未配置 Garmin Token", garmin)
    else []
  }

  /** COROS's part of the stream, when the selection includes it. */
  function CorosPart(provider: string, force: bool, config: Config, env: Config, coros: ProviderRun): (r: seq<Event>)
    ensures forall i :: 0 <= i < |r| ==> r[i].provider == "COROS"
    ensures SyncRoute.RunsCoros(provider) <==> r != []
  {
    if SyncRoute.RunsCoros(provider) then
      ProviderEvents("COROS", HasCorosCredentials(config, env), CorosStartMessage(force), "未配置 COROS 账号密码", coros)
    else []
  }

  /** The whole stream for a provider selection ("" reads as "all") and a
      `force` parameter. */
  function StreamEvents(providerParam: string, forceParam: string, config: Config, env: Config,
                        garmin: ProviderRun, coros: ProviderRun): seq<Event>
  {
    var provider := Or(providerParam, "all");
    [StartEvent] + GarminPart(provider, config, env, garmin) +
    CorosPart(provider, forceParam == "true", config, env, coros) + [DoneEvent]
  }

  /** The stream opens with the provider-less start event and closes with
      the provider-less done event, and every event in between names a
      provider; so the client ends its sync on the last event and on no
      earlier one. */
  lemma StreamBookends(providerParam: string, forceParam: string, config: Config, env: Config,
                       garmin: ProviderRun, coros: ProviderRun)
    ensures var r := StreamEvents(providerParam, forceParam, config, env, garmin, coros);
      |r| >= 2 && r[0] == StartEvent && r[|r| - 1] == DoneEvent &&
      forall i :: 0 < i < |r| - 1 ==> r[i].provider == "Garmin" || r[i].provider == "COROS"
  {
    var provider := Or(providerParam, "all");
    var g := GarminPart(provider, config, env, garmin);
    var c := CorosPart(provider, forceParam == "true", config, env, coros);
    var r := [StartEvent] + g + c + [DoneEvent];
    forall i | 0 < i < |r| - 1
      ensures r[i].provider == "Garmin" || r[i].provider == "COROS"
    {
      if i - 1 < |g| {
        assert r[i] == g[i - 1];
      } else {
        assert r[i] == c[i - 1 - |g|];
      }
    }
  }

  /** The Garmin script, started with the heart-rate settings and the token. */
  function GarminLaunch(config: Config, env: Config): (l: Launch)
    ensures l.script == GarminScript && "--force" !in l.args
    ensures l.env.Keys == {"MAX_HR", "RESTING_HR", "GARMIN_SECRET_STRING"}
    ensures l.env["MAX_HR"] == Setting(config, env, "MAX_HR", "190")
    ensures l.env["GARMIN_SECRET_STRING"] == GarminToken(config, env)
  {
    Launch(GarminScript, [GarminScript],
           SyncRoute.ScriptEnv(config, env)["GARMIN_SECRET_STRING" := GarminToken(config, env)])
  }

  /** The COROS script, started with the heart-rate settings and the
      credentials, and with `--force` exactly when forced. */
  function CorosLaunch(config: Config, env: Config, force: bool): (l: Launch)
    ensures l.script == CorosScript && ("--force" in l.args <==> force)
    ensures l.env.Keys == {"MAX_HR", "RESTING_HR", "COROS_ACCOUNT", "COROS_PASSWORD"}
    ensures l.env["MAX_HR"] == Setting(config, env, "MAX_HR", "190")
  {
    var account := Or(Get(config, "COROS_ACCOUNT"), Get(env, "COROS_ACCOUNT"));
    var password := Or(Get(config, "COROS_PASSWORD"), Get(env, "COROS_PASSWORD"));
    Launch(CorosScript, if force then [CorosScript, "--force"] else [CorosScript],
           SyncRoute.ScriptEnv(config, env)["COROS_ACCOUNT" := account]["COROS_PASSWORD" := password])
  }

  /** The scripts the stream starts, Garmin's first. */
  function Launches(providerParam: string, forceParam: string, config: Config, env: Config): seq<Launch>
  {
    var provider := Or(providerParam, "all");
    (if SyncRoute.RunsGarmin(provider) && GarminToken(config, env) != "" then [GarminLaunch(config, env)] else []) +
    (if SyncRoute.RunsCoros(provider) && HasCorosCredentials(config, env)
     then [CorosLaunch(config, env, forceParam == "true")] else [])
  }

  /** Only the COROS script ever gets `--force`, and only when `force` is
      "true"; a provider whose credentials are missing starts nothing. */
  lemma LaunchRules(providerParam: string, forceParam: string, config: Config, env: Config)
    ensures var ls := Launches(providerParam, forceParam, config, env);
      forall l :: l in ls ==> ("--force" in l.args <==> l.script == CorosScript && forceParam == "true")
    ensures GarminToken(config, env) == "" ==>
      forall l :: l in Launches(providerParam, forceParam, config, env) ==> l.script != GarminScript
    ensures !HasCorosCredentials(config, env) ==>
      forall l :: l in Launches(providerParam, forceParam, config, env) ==> l.script != CorosScript
  {
    assert GarminScript != CorosScript;
  }

  /** The provider's part of the stream, and the script it starts. */
  method RunProvider(provider: string, selected: bool, hasCredentials: bool, startMessage: string,
                     skipMessage: string, launch: Launch, run: ProviderRun)
    returns (events: seq<Event>, launches: seq<Launch>)
    ensures events == (if selected then ProviderEvents(provider, hasCredentials, startMessage, skipMessage, run) else [])
    ensures launches == (if selected && hasCredentials then [launch] else [])
  {
    if !selected {
      return [], [];
    }
    if !hasCredentials {
      return [Event(Skip, provider, skipMessage, None, None)], [];
    }
    var progress, result := RunWithProgress(provider, run);
    events := [Event(Start, provider, startMessage, None, None)] + progress + [FinalEvent(provider, result)];
    launches := [launch];
  }

  /** The `GET` handler: the start event, Garmin's part, COROS's part and
      the done event, in this order, starting each script only when its
      provider is selected and its credentials are configured. */
  method Stream(providerParam: string, forceParam: string, config: Config, env: Config,
                garmin: ProviderRun, coros: ProviderRun)
    returns (events: seq<Event>, launches: seq<Launch>)
    ensures events == StreamEvents(providerParam, forceParam, config, env, garmin, coros)
    ensures launches == Launches(providerParam, forceParam, config, env)
  {
    var provider := Or(providerParam, "all");
    var force := forceParam == "true";

    var garminEvents, garminLaunches := RunProvider("Garmin", SyncRoute.RunsGarmin(provider),
      GarminToken(config, env) != "", "开始同步 Garmin 数据...", "未配置 Garmin Token",
      GarminLaunch(config, env), garmin);

    var corosEvents, corosLaunches := RunProvider("COROS", SyncRoute.RunsCoros(provider),
      HasCorosCredentials(config, env), CorosStartMessage(force), "未配置 COROS 账号密码",
      CorosLaunch(config, env, force), coros);

    events := [StartEvent] + garminEvents + corosEvents + [DoneEvent];
    launches := garminLaunches + corosLaunches;
  }
}
