/**
  One evaluation item: attempts with retries of infrastructure failures, and the accounting
  of prepared workspaces.  What setup, backend, patch extraction and scorer do in an attempt
  is a script; the calls that the runner makes are logged in order.
  */
module EvalRunner {
  import opened Options

  datatype Cause = SetupError(retryable: bool) | ValueError | OsError | RuntimeError | OtherError

  datatype Stage = Preparing | Backend | PatchExtract | Scoring

  datatype Usage = Usage(input: nat, cachedInput: nat, output: nat, reasoning: nat, requests: nat, toolCalls: nat)

  datatype BackendEvent =
    | Metadata(run: string, session: string)
    | TextDelta(text: string)
    | TokenUsage(usage: Usage)
    | Completed
    | Failed
    | Stopped

  /** One attempt: whether each stage fails, the backend's stream, which may break off, and the
      stage in which a KeyboardInterrupt comes, if one does. */
  datatype Script = Script(
    prepare: Option<Cause>, stream: seq<BackendEvent>, broken: Option<Cause>, patch: Option<Cause>,
    score: Option<Cause>,
    interrupt: Option<Stage>)

  datatype Outcome = RunTimeout | RunCompleted | RunFailed | RunStopped

  datatype Summary = Summary(run: string, session: string, text: string, usage: Usage, outcome: Outcome)

  datatype Attempt =
    | Scored(summary: Summary, prepared: Option<nat>)
    | AttemptFailed(stage: Stage, prepared: Option<nat>, cause: Cause, metadataEmitted: bool)
    | Interrupted(prepared: Option<nat>)

  datatype Call = Prepared(workspace: nat) | Emitted | CleanedUp(workspace: nat) | Collected(from: Option<nat>) | Slept

  const NO_USAGE := Usage(0, 0, 0, 0, 0, 0)
  const NOTHING_YET := Summary("", "", "", NO_USAGE, RunTimeout)

  /** `_is_retryable_infra_failure` */
  predicate Retryable(f: Attempt) {
    f.AttemptFailed? && match f.stage
      case Preparing => if f.cause.SetupError? then f.cause.retryable else !f.cause.ValueError?
      case Backend => !f.metadataEmitted && (f.cause.OsError? || f.cause.RuntimeError? || f.cause.SetupError?)
      case _ => false
  }

  // ---------- The stream of one attempt ----------

  predicate Ends(e: BackendEvent) {
    e.Completed? || e.Failed? || e.Stopped?
  }

  /** The events up to the first one that ends the run. */
  function Consumed(stream: seq<BackendEvent>): seq<BackendEvent> {
    if stream == [] then []
    else if Ends(stream[0]) then [stream[0]]
    else [stream[0]] + Consumed(stream[1..])
  }

  predicate Finished(stream: seq<BackendEvent>) {
    exists k :: 0 <= k < |stream| && Ends(stream[k])
  }

  function Added(u: Usage, v: Usage): Usage {
    Usage(u.input + v.input, u.cachedInput + v.cachedInput, u.output + v.output, u.reasoning + v.reasoning,
          u.requests + v.requests, u.toolCalls + v.toolCalls)
  }

  function UsageOf(events: seq<BackendEvent>): Usage {
    if events == [] then NO_USAGE
    else
      var last := events[|events| - 1];
      Added(UsageOf(events[..|events| - 1]), if last.TokenUsage? then last.usage else NO_USAGE)
  }

  function TextOf(events: seq<BackendEvent>): string {
    if events == [] then ""
    else
      var last := events[|events| - 1];
      TextOf(events[..|events| - 1]) + (if last.TextDelta? then last.text else "")
  }

  /** How often the stream shows a run's ids. */
  function Showings(events: seq<BackendEvent>): nat {
    if events == [] then 0
    else Showings(events[..|events| - 1]) + (if events[|events| - 1].Metadata? then 1 else 0)
  }

  function Emits(n: nat): seq<Call> {
    if n == 0 then [] else Emits(n - 1) + [Emitted]
  }

  function OutcomeOf(events: seq<BackendEvent>): Outcome {
    if events == [] then RunTimeout
    else match events[|events| - 1]
      case Completed => RunCompleted
      case Failed => RunFailed
      case Stopped => RunStopped
      case _ => RunTimeout
  }

  lemma {:induction false} ConsumedIsPrefix(stream: seq<BackendEvent>)
    ensures Consumed(stream) <= stream
    ensures forall k :: 0 <= k < |Consumed(stream)| - 1 ==> !Ends(stream[k])
    ensures if Finished(stream) then |Consumed(stream)| > 0 && Ends(stream[|Consumed(stream)| - 1])
            else Consumed(stream) == stream
  {
    if stream != [] && !Ends(stream[0]) {
      ConsumedIsPrefix(stream[1..]);
      assert stream == [stream[0]] + stream[1..];
      if Finished(stream) {
        var k :| 0 <= k < |stream| && Ends(stream[k]);
        assert Ends(stream[1..][k - 1]);
      }
    }
  }

  lemma ConsumedIs(stream: seq<BackendEvent>, n: nat)
    requires n <= |stream| && (forall k :: 0 <= k < n - 1 ==> !Ends(stream[k]))
    requires n == |stream| || (n > 0 && Ends(stream[n - 1]))
    ensures Consumed(stream) == stream[..n]
  {
    ConsumedIsPrefix(stream);
    if n < |stream| || (n > 0 && Ends(stream[n - 1])) {
      assert Ends(stream[n - 1]);
      assert Finished(stream);
    }
  }

  // ---------- One attempt, and all of them ----------

  datatype Config = Config(
    hasSetup: bool, keep: bool, hasExtractor: bool, hasCollector: bool, retries: nat, pauses: bool)

  /** What one attempt comes to; `ws` is the workspace that its setup would prepare. */
  function AttemptOf(c: Config, s: Script, ws: nat): Attempt {
    if c.hasSetup && s.interrupt == Some(Preparing) then Interrupted(None)
    else if c.hasSetup && s.prepare.Some? then AttemptFailed(Preparing, None, s.prepare.value, false)
    else
      var prepared := if c.hasSetup then Some(ws) else None;
      var events := Consumed(s.stream);
      var emitted := Showings(events) > 0;
      if s.interrupt == Some(Backend) && OutcomeOf(events).RunTimeout? then Interrupted(prepared)
      else if s.broken.Some? && OutcomeOf(events).RunTimeout?
      then AttemptFailed(Backend, prepared, s.broken.value, emitted)
      else if c.hasExtractor && c.hasSetup && s.interrupt == Some(PatchExtract) then Interrupted(prepared)
      else if c.hasExtractor && c.hasSetup && s.patch.Some?
      then AttemptFailed(PatchExtract, prepared, s.patch.value, emitted)
      else if s.interrupt == Some(Scoring) then Interrupted(prepared)
      else if s.score.Some? then AttemptFailed(Scoring, prepared, s.score.value, emitted)
      else Scored(SummaryOf(events), prepared)
  }

  function SummaryOf(events: seq<BackendEvent>): Summary {
    Summary(RunOf(events).0, RunOf(events).1, TextOf(events), UsageOf(events), OutcomeOf(events))
  }

  /** What the loop does to its accumulators for one event. */
  function Advanced(s: Summary, e: BackendEvent): Summary {
    match e
    case Metadata(run, session) => s.(run := run, session := session, outcome := RunTimeout)
    case TextDelta(text) => s.(text := s.text + text, outcome := RunTimeout)
    case TokenUsage(usage) => s.(usage := Added(s.usage, usage), outcome := RunTimeout)
    case Completed => s.(outcome := RunCompleted)
    case Failed => s.(outcome := RunFailed)
    case Stopped => s.(outcome := RunStopped)
  }

  lemma SummaryAdvances(stream: seq<BackendEvent>, i: nat)
    requires i < |stream|
    ensures SummaryOf(stream[..i + 1]) == Advanced(SummaryOf(stream[..i]), stream[i])
    ensures Showings(stream[..i + 1]) == Showings(stream[..i]) + (if stream[i].Metadata? then 1 else 0)
  {
    assert stream[..i + 1][..i] == stream[..i];
    assert SummaryOf(stream[..i]).text + "" == SummaryOf(stream[..i]).text;
  }

  /** The ids of the last metadata event. */
  function RunOf(events: seq<BackendEvent>): (string, string) {
    if events == [] then ("", "")
    else if events[|events| - 1].Metadata? then (events[|events| - 1].run, events[|events| - 1].session)
    else RunOf(events[..|events| - 1])
  }

  /** How often an attempt shows a run's ids. */
  function ShownBy(c: Config, s: Script): nat {
    if c.hasSetup && PreparedBy(c, s) == 0 then 0 else Showings(Consumed(s.stream))
  }

  function PreparedBy(c: Config, s: Script): nat {
    if c.hasSetup && s.prepare.None? && s.interrupt != Some(Preparing) then 1 else 0
  }

  function CleanupCalls(c: Config, prepared: Option<nat>): seq<Call> {
    if !c.keep && prepared.Some? && c.hasSetup then [CleanedUp(prepared.value)] else []
  }

  /** One attempt as it went: what it came to, and how often it showed a run's ids. */
  datatype Try = Try(attempt: Attempt, shown: nat)

  function TryOf(c: Config, s: Script, ws: nat): Try {
    Try(AttemptOf(c, s, ws), ShownBy(c, s))
  }

  function TryCalls(t: Try): seq<Call> {
    (if t.attempt.prepared.Some? then [Prepared(t.attempt.prepared.value)] else []) + Emits(t.shown)
  }

  /** The attempts that the scripts would give, each with the next workspace. */
  function Tries(c: Config, scripts: seq<Script>, ws: nat): seq<Try> {
    if scripts == [] then [] else [TryOf(c, scripts[0], ws)] + Tries(c, scripts[1..], ws + PreparedBy(c, scripts[0]))
  }

  /** There is another attempt, and this one failed in a way that may be retried. */
  predicate TriesAgain(ts: seq<Try>)
    requires ts != []
  {
    |ts| > 1 && Retryable(ts[0].attempt)
  }

  /** The backoff, if it is longer than no time at all. */
  function Pause(c: Config): seq<Call> {
    if c.pauses then [Slept] else []
  }

  function AfterRetry(c: Config, prepared: Option<nat>): seq<Call> {
    CleanupCalls(c, prepared) + Pause(c)
  }

  /** An interrupt is not an Exception: the loop has neither a result nor the workspace then. */
  function AfterLast(c: Config, last: Attempt): seq<Call> {
    if last.Interrupted? then []
    else (if c.hasCollector then [Collected(last.prepared)] else []) + CleanupCalls(c, last.prepared)
  }

  /** The calls for an item whose remaining attempts would go like this. */
  function ItemCalls(c: Config, ts: seq<Try>): seq<Call>
    requires ts != []
  {
    TryCalls(ts[0]) +
    if TriesAgain(ts) then AfterRetry(c, ts[0].attempt.prepared) + ItemCalls(c, ts[1..])
    else AfterLast(c, ts[0].attempt)
  }

  /** The attempt that decides the item. */
  function Decisive(ts: seq<Try>): Attempt
    requires ts != []
  {
    if TriesAgain(ts) then Decisive(ts[1..]) else ts[0].attempt
  }

  lemma {:induction false} TriesLength(c: Config, scripts: seq<Script>, ws: nat)
    ensures |Tries(c, scripts, ws)| == |scripts|
  {
    if scripts != [] {
      TriesLength(c, scripts[1..], ws + PreparedBy(c, scripts[0]));
    }
  }

  /** The attempts from number `k` on. */
  lemma TriesFrom(c: Config, scripts: seq<Script>, k: nat, ws: nat)
    requires k < |scripts|
    ensures var left := Tries(c, scripts[k..], ws);
      && |left| == |scripts| - k && left[0] == TryOf(c, scripts[k], ws)
      && left[1..] == Tries(c, scripts[k + 1..], ws + PreparedBy(c, scripts[k]))
  {
    TriesLength(c, scripts[k..], ws);
    assert scripts[k..][0] == scripts[k] && scripts[k..][1..] == scripts[k + 1..];
  }

  /** Attempt `k` comes next: the calls made so far, with those of the attempts that are left, are
      those of all attempts. */
  predicate Underway(c: Config, scripts: seq<Script>, ws0: nat, start: seq<Call>, k: nat, ws: nat, calls: seq<Call>) {
    k < |scripts| &&
    var all, left := Tries(c, scripts, ws0), Tries(c, scripts[k..], ws);
    && all != [] && left != []
    && calls + ItemCalls(c, left) == start + ItemCalls(c, all) && Decisive(left) == Decisive(all)
  }

  lemma Begins(c: Config, scripts: seq<Script>, ws: nat, start: seq<Call>)
    requires scripts != []
    ensures Underway(c, scripts, ws, start, 0, ws, start)
  {
    TriesFrom(c, scripts, 0, ws);
    assert scripts[0..] == scripts;
  }

  lemma RetryAdds(c: Config, scripts: seq<Script>, ws0: nat, start: seq<Call>, k: nat, ws: nat, calls: seq<Call>)
    requires Underway(c, scripts, ws0, start, k, ws, calls) && k + 1 < |scripts|
    requires Retryable(AttemptOf(c, scripts[k], ws))
    ensures var t := TryOf(c, scripts[k], ws);
      Underway(c, scripts, ws0, start, k + 1, ws + PreparedBy(c, scripts[k]),
               calls + TryCalls(t) + AfterRetry(c, t.attempt.prepared))
  {
    var left := Tries(c, scripts[k..], ws);
    TriesFrom(c, scripts, k, ws);
    TriesFrom(c, scripts, k + 1, ws + PreparedBy(c, scripts[k]));
    var a, b, d := TryCalls(left[0]), AfterRetry(c, left[0].attempt.prepared), ItemCalls(c, left[1..]);
    assert calls + a + b + d == calls + (a + (b + d));
  }

  lemma RetryGoes(c: Config, scripts: seq<Script>, ws0: nat, start: seq<Call>, k: nat, ws: nat, calls: seq<Call>,
                  t: Try, ws': nat, calls': seq<Call>)
    requires Underway(c, scripts, ws0, start, k, ws, calls) && k + 1 < |scripts|
    requires t == TryOf(c, scripts[k], ws) && Retryable(t.attempt)
    requires ws' == ws + PreparedBy(c, scripts[k])
    requires calls' == calls + TryCalls(t) + AfterRetry(c, t.attempt.prepared)
    ensures Underway(c, scripts, ws0, start, k + 1, ws', calls')
  {
    RetryAdds(c, scripts, ws0, start, k, ws, calls);
  }

  lemma FinishGoes(c: Config, scripts: seq<Script>, ws0: nat, start: seq<Call>, k: nat, ws: nat, calls: seq<Call>)
    requires Underway(c, scripts, ws0, start, k, ws, calls)
    requires k + 1 == |scripts| || !Retryable(AttemptOf(c, scripts[k], ws))
    ensures var t, all := TryOf(c, scripts[k], ws), Tries(c, scripts, ws0);
      && all != [] && t.attempt == Decisive(all)
      && calls + TryCalls(t) + AfterLast(c, t.attempt) == start + ItemCalls(c, all)
  {
    var left := Tries(c, scripts[k..], ws);
    TriesFrom(c, scripts, k, ws);
    var a, b := TryCalls(left[0]), AfterLast(c, left[0].attempt);
    assert calls + a + b == calls + (a + b);
  }

  class EvalRunner {
    const config: Config
    var nextWorkspace: nat
    var calls: seq<Call>

    constructor (config: Config)
      ensures this.config == config && calls == [] && nextWorkspace == 0
    {
      this.config, nextWorkspace, calls := config, 0, [];
    }

    method CleanupWorkspace(prepared: Option<nat>)
      modifies `calls
      ensures calls == old(calls) + CleanupCalls(config, prepared)
    {
      if !config.keep && prepared.Some? && config.hasSetup {
        calls := calls + [CleanedUp(prepared.value)];
      }
    }

    /** The event loop of the backend, up to the event that ends the run. */
    method ReadStream(stream: seq<BackendEvent>) returns (summary: Summary, emitted: bool)
      modifies `calls
      ensures calls == old(calls) + Emits(Showings(Consumed(stream)))
      ensures summary == SummaryOf(Consumed(stream))
      ensures emitted <==> Showings(Consumed(stream)) > 0
    {
      summary, emitted := NOTHING_YET, false;
      var i := 0;
      assert calls + [] == calls;
      while i < |stream|
        invariant i <= |stream| && forall k :: 0 <= k < i ==> !Ends(stream[k])
        invariant summary == SummaryOf(stream[..i]) && summary.outcome.RunTimeout?
        invariant emitted <==> Showings(stream[..i]) > 0
        invariant calls == old(calls) + Emits(Showings(stream[..i]))
        decreases |stream| - i
      {
        var event := stream[i];
        SummaryAdvances(stream, i);
        match event {
          case Metadata(run, session) =>
            emitted := true;
            summary := summary.(run := run, session := session);
            calls := calls + [Emitted];
          case TextDelta(text) => summary := summary.(text := summary.text + text);
          case TokenUsage(usage) => summary := summary.(usage := Added(summary.usage, usage));
          case Completed => summary := summary.(outcome := RunCompleted);
          case Failed => summary := summary.(outcome := RunFailed);
          case Stopped => summary := summary.(outcome := RunStopped);
        }
        i := i + 1;
        if Ends(event) {
          break;
        }
      }
      ConsumedIs(stream, i);
    }

    method RunItemOnce(s: Script) returns (attempt: Attempt)
      modifies `calls, `nextWorkspace
      ensures attempt == AttemptOf(config, s, old(nextWorkspace))
      ensures calls == old(calls) + TryCalls(TryOf(config, s, old(nextWorkspace)))
      ensures nextWorkspace == old(nextWorkspace) + PreparedBy(config, s)
    {
      var prepared: Option<nat> := None;
      if config.hasSetup {
        if s.interrupt == Some(Preparing) {
          assert calls + [] == calls;
          return Interrupted(None);
        }
        if s.prepare.Some? {
          assert calls + [] == calls;
          return AttemptFailed(Preparing, None, s.prepare.value, false);
        }
        prepared := Some(nextWorkspace);
        calls := calls + [Prepared(nextWorkspace)];
        nextWorkspace := nextWorkspace + 1;
      }
      var summary, emitted := ReadStream(s.stream);
      ghost var setup := if prepared.Some? then [Prepared(prepared.value)] else [];
      assert calls == old(calls) + (setup + Emits(ShownBy(config, s)));
      if summary.outcome.RunTimeout? && s.interrupt == Some(Backend) {
        return Interrupted(prepared);
      }
      if summary.outcome.RunTimeout? && s.broken.Some? {
        return AttemptFailed(Backend, prepared, s.broken.value, emitted);
      }
      if config.hasExtractor && prepared.Some? {
        if s.interrupt == Some(PatchExtract) {
          return Interrupted(prepared);
        }
        if s.patch.Some? {
          return AttemptFailed(PatchExtract, prepared, s.patch.value, emitted);
        }
      }
      if s.interrupt == Some(Scoring) {
        return Interrupted(prepared);
      }
      if s.score.Some? {
        return AttemptFailed(Scoring, prepared, s.score.value, emitted);
      }
      return Scored(summary, prepared);
    }

    /** Retries what may be retried; collects artifacts and cleans up after the last attempt. */
    method RunItem(scripts: seq<Script>) returns (result: Attempt)
      requires |scripts| == config.retries + 1
      modifies `calls, `nextWorkspace
      ensures Tries(config, scripts, old(nextWorkspace)) != []
      ensures calls == old(calls) + ItemCalls(config, Tries(config, scripts, old(nextWorkspace)))
      ensures result == Decisive(Tries(config, scripts, old(nextWorkspace)))
    {
      var attempt: nat := 0;
      ghost var start, ws0 := calls, nextWorkspace;
      Begins(config, scripts, ws0, start);
      while true
        invariant attempt < |scripts| && Underway(config, scripts, ws0, start, attempt, nextWorkspace, calls)
        decreases |scripts| - attempt
      {
        ghost var ws, before, t := nextWorkspace, calls, TryOf(config, scripts[attempt], nextWorkspace);
        result := RunItemOnce(scripts[attempt]);
        if attempt == config.retries || !Retryable(result) {
          FinishGoes(config, scripts, ws0, start, attempt, ws, before);
          break;
        }
        Retry(result.prepared);
        RetryGoes(config, scripts, ws0, start, attempt, ws, before, t, nextWorkspace, calls);
        attempt := attempt + 1;
      }
      Finish(result);
    }

    method Retry(prepared: Option<nat>)
      modifies `calls
      ensures calls == old(calls) + AfterRetry(config, prepared)
    {
      CleanupWorkspace(prepared);
      if config.pauses {
        calls := calls + [Slept];
      }
    }

    /** The `finally` block: artifacts, then the workspace, if the loop came by them. */
    method Finish(result: Attempt)
      modifies `calls
      ensures calls == old(calls) + AfterLast(config, result)
    {
      var prepared := if result.Interrupted? then None else result.prepared;
      if config.hasCollector && !result.Interrupted? {
        calls := calls + [Collected(prepared)];
      }
      CleanupWorkspace(prepared);
    }
  }

  // ---------- Accounting ----------

  function PreparedIn(calls: seq<Call>): seq<nat> {
    if calls == [] then [] else (if calls[0].Prepared? then [calls[0].workspace] else []) + PreparedIn(calls[1..])
  }

  function CleanedIn(calls: seq<Call>): seq<nat> {
    if calls == [] then [] else (if calls[0].CleanedUp? then [calls[0].workspace] else []) + CleanedIn(calls[1..])
  }

  lemma {:induction false} PreparedAppends(a: seq<Call>, b: seq<Call>)
    ensures PreparedIn(a + b) == PreparedIn(a) + PreparedIn(b)
  {
    if a == [] {
      assert a + b == b;
    } else {
      assert (a + b)[0] == a[0] && (a + b)[1..] == a[1..] + b;
      PreparedAppends(a[1..], b);
    }
  }

  lemma {:induction false} CleanedAppends(a: seq<Call>, b: seq<Call>)
    ensures CleanedIn(a + b) == CleanedIn(a) + CleanedIn(b)
  {
    if a == [] {
      assert a + b == b;
    } else {
      assert (a + b)[0] == a[0] && (a + b)[1..] == a[1..] + b;
      CleanedAppends(a[1..], b);
    }
  }

  lemma InAppends(a: seq<Call>, b: seq<Call>)
    ensures PreparedIn(a + b) == PreparedIn(a) + PreparedIn(b)
    ensures CleanedIn(a + b) == CleanedIn(a) + CleanedIn(b)
  {
    PreparedAppends(a, b);
    CleanedAppends(a, b);
  }

  lemma {:induction false} EmitsNothingElse(n: nat)
    ensures PreparedIn(Emits(n)) == [] && CleanedIn(Emits(n)) == [] && NoTry(Emits(n)) && NoTryAfterShow(Emits(n))
  {
    if n > 0 {
      EmitsNothingElse(n - 1);
      InAppends(Emits(n - 1), [Emitted]);
      NoTryAppends(Emits(n - 1), [Emitted]);
      NoTryIsLater(Emits(n));
    }
  }

  function Listed(o: Option<nat>): seq<nat> {
    if o.Some? then [o.value] else []
  }

  lemma TryIn(t: Try)
    ensures PreparedIn(TryCalls(t)) == Listed(t.attempt.prepared) && CleanedIn(TryCalls(t)) == []
  {
    var first := if t.attempt.prepared.Some? then [Prepared(t.attempt.prepared.value)] else [];
    EmitsNothingElse(t.shown);
    InAppends(first, Emits(t.shown));
    assert PreparedIn(first) == Listed(t.attempt.prepared) && CleanedIn(first) == [];
  }

  /** What is cleaned up of what an attempt prepared. */
  function Swept(c: Config, a: Attempt): seq<nat> {
    if c.keep || a.Interrupted? then [] else Listed(a.prepared)
  }

  lemma AfterwardsIn(c: Config, a: Attempt)
    requires a.prepared.Some? ==> c.hasSetup
    ensures PreparedIn(AfterRetry(c, a.prepared)) == [] == PreparedIn(AfterLast(c, a))
    ensures CleanedIn(AfterLast(c, a)) == Swept(c, a)
    ensures !a.Interrupted? ==> CleanedIn(AfterRetry(c, a.prepared)) == Swept(c, a)
  {
    var prepared := a.prepared;
    var clean, collect := CleanupCalls(c, prepared), if c.hasCollector then [Collected(prepared)] else [];
    InAppends(clean, Pause(c));
    InAppends(collect, clean);
    assert PreparedIn(Pause(c)) == [] == CleanedIn(Pause(c)) && PreparedIn(collect) == [] == CleanedIn(collect);
    assert PreparedIn(clean) == [] && CleanedIn(clean) == if c.keep then [] else Listed(prepared);
  }

  /** An attempt prepares only where there is a setup, and one that may be retried has shown nothing. */
  predicate Sound(c: Config, t: Try) {
    (t.attempt.prepared.Some? ==> c.hasSetup) && (Retryable(t.attempt) ==> t.shown == 0)
  }

  predicate AllSound(c: Config, ts: seq<Try>) {
    ts == [] || (Sound(c, ts[0]) && AllSound(c, ts[1..]))
  }

  /** The attempts prepare workspaces from `least` on, each a later one. */
  predicate InOrder(ts: seq<Try>, least: nat) {
    ts == [] ||
    var prepared := ts[0].attempt.prepared;
    && (prepared.Some? ==> prepared.value >= least)
    && InOrder(ts[1..], if prepared.Some? then prepared.value + 1 else least)
  }

  lemma TryIsSound(c: Config, s: Script, ws: nat)
    ensures Sound(c, TryOf(c, s, ws))
    ensures TryOf(c, s, ws).attempt.prepared == if PreparedBy(c, s) == 1 then Some(ws) else None
  {}

  lemma {:induction false} TriesAreSound(c: Config, scripts: seq<Script>, ws: nat)
    ensures AllSound(c, Tries(c, scripts, ws)) && InOrder(Tries(c, scripts, ws), ws)
  {
    if scripts != [] {
      var rest := Tries(c, scripts[1..], ws + PreparedBy(c, scripts[0]));
      TryIsSound(c, scripts[0], ws);
      TriesAreSound(c, scripts[1..], ws + PreparedBy(c, scripts[0]));
      assert ([TryOf(c, scripts[0], ws)] + rest)[1..] == rest;
    }
  }

  /** The workspaces prepared and cleaned up are those of the first attempt and of the rest. */
  lemma ItemSplits(c: Config, ts: seq<Try>)
    requires ts != [] && Sound(c, ts[0])
    ensures PreparedIn(ItemCalls(c, ts)) ==
      Listed(ts[0].attempt.prepared) + (if TriesAgain(ts) then PreparedIn(ItemCalls(c, ts[1..])) else [])
    ensures CleanedIn(ItemCalls(c, ts)) ==
      Swept(c, ts[0].attempt) + (if TriesAgain(ts) then CleanedIn(ItemCalls(c, ts[1..])) else [])
  {
    var a, t := TryCalls(ts[0]), ts[0].attempt;
    TryIn(ts[0]);
    AfterwardsIn(c, t);
    if TriesAgain(ts) {
      InAppends(AfterRetry(c, t.prepared), ItemCalls(c, ts[1..]));
      InAppends(a, AfterRetry(c, t.prepared) + ItemCalls(c, ts[1..]));
      Drop(PreparedIn(ItemCalls(c, ts[1..])));
      Drop(Swept(c, t) + CleanedIn(ItemCalls(c, ts[1..])));
    } else {
      InAppends(a, AfterLast(c, t));
      Drop(Swept(c, t));
    }
  }

  lemma Drop(xs: seq<nat>)
    ensures [] + xs == xs == xs + []
  {}

  /** What an interrupt leaves behind. */
  function Leaked(last: Attempt): seq<nat> {
    if last.Interrupted? then Listed(last.prepared) else []
  }

  lemma {:induction false} CleanedIsPrepared(c: Config, ts: seq<Try>)
    requires ts != [] && AllSound(c, ts)
    ensures if c.keep then CleanedIn(ItemCalls(c, ts)) == []
            else PreparedIn(ItemCalls(c, ts)) == CleanedIn(ItemCalls(c, ts)) + Leaked(Decisive(ts))
  {
    ItemSplits(c, ts);
    if TriesAgain(ts) {
      CleanedIsPrepared(c, ts[1..]);
    }
  }

  predicate Ascends(ws: seq<nat>, least: nat) {
    ws == [] || (ws[0] >= least && Ascends(ws[1..], ws[0] + 1))
  }

  lemma {:induction false} AscendsIsSorted(ws: seq<nat>, least: nat)
    requires Ascends(ws, least)
    ensures forall k :: 0 <= k < |ws| ==> ws[k] >= least
    ensures forall k, l :: 0 <= k < l < |ws| ==> ws[k] < ws[l]
  {
    if ws != [] {
      AscendsIsSorted(ws[1..], ws[0] + 1);
      assert ws == [ws[0]] + ws[1..];
    }
  }

  lemma AscendsWith(o: Option<nat>, ws: seq<nat>, least: nat)
    requires (o.Some? ==> o.value >= least) && Ascends(ws, if o.Some? then o.value + 1 else least)
    ensures Ascends(Listed(o) + ws, least)
  {
    if o.Some? {
      assert (Listed(o) + ws)[1..] == ws;
    } else {
      assert Listed(o) + ws == ws;
    }
  }

  /** The workspaces of an item come from its attempts, in order. */
  lemma {:induction false} PreparedAscends(c: Config, ts: seq<Try>, least: nat)
    requires ts != [] && AllSound(c, ts) && InOrder(ts, least)
    ensures Ascends(PreparedIn(ItemCalls(c, ts)), least)
    decreases |ts|
  {
    var prepared := ts[0].attempt.prepared;
    ItemSplits(c, ts);
    if TriesAgain(ts) {
      PreparedAscends(c, ts[1..], if prepared.Some? then prepared.value + 1 else least);
      AscendsWith(prepared, PreparedIn(ItemCalls(c, ts[1..])), least);
    } else {
      AscendsWith(prepared, [], least);
    }
  }

  /** The backend breaks off before an event that ends the run. */
  ghost predicate BreaksOff(s: Script) {
    s.broken.Some? && !Finished(s.stream)
  }

  /** The setup, if there is one, comes to its end. */
  predicate SetsUp(c: Config, s: Script) {
    c.hasSetup ==> s.prepare.None? && s.interrupt != Some(Preparing)
  }

  /** The script's attempt fails in a way that may be retried. */
  ghost predicate Retries(c: Config, s: Script) {
    if !SetsUp(c, s) then
      s.interrupt != Some(Preparing) && (if s.prepare.value.SetupError? then s.prepare.value.retryable
                                         else !s.prepare.value.ValueError?)
    else
      && s.interrupt != Some(Backend) && BreaksOff(s) && Showings(Consumed(s.stream)) == 0
      && (s.broken.value.OsError? || s.broken.value.RuntimeError? || s.broken.value.SetupError?)
  }

  /** The script's interrupt comes when the workspace is there and nothing has failed before. */
  ghost predicate Leaves(c: Config, s: Script) {
    && c.hasSetup && SetsUp(c, s) && s.interrupt.Some?
    && match s.interrupt.value
       case Preparing => false
       case Backend => !Finished(s.stream)
       case PatchExtract => c.hasExtractor && !BreaksOff(s)
       case Scoring => !BreaksOff(s) && (c.hasExtractor ==> s.patch.None?)
  }

  lemma TimeoutIffUnfinished(stream: seq<BackendEvent>)
    ensures OutcomeOf(Consumed(stream)).RunTimeout? <==> !Finished(stream)
  {
    ConsumedIsPrefix(stream);
    if !Finished(stream) && stream != [] {
      assert !Ends(stream[|stream| - 1]);
    }
  }

  lemma ScriptDecides(c: Config, s: Script, ws: nat)
    ensures Retryable(AttemptOf(c, s, ws)) <==> Retries(c, s)
    ensures Leaked(AttemptOf(c, s, ws)) == if Leaves(c, s) then [ws] else []
  {
    TimeoutIffUnfinished(s.stream);
  }

  /** Some attempt is interrupted with its workspace there, after attempts that were retried. */
  ghost predicate ItemLeaves(c: Config, scripts: seq<Script>) {
    exists k :: 0 <= k < |scripts| && Leaves(c, scripts[k]) && forall j :: 0 <= j < k ==> Retries(c, scripts[j])
  }

  lemma LeavesNowOrLater(c: Config, scripts: seq<Script>)
    requires scripts != []
    ensures ItemLeaves(c, scripts) <==>
      Leaves(c, scripts[0]) || (Retries(c, scripts[0]) && ItemLeaves(c, scripts[1..]))
  {
    var rest := scripts[1..];
    if ItemLeaves(c, rest) {
      var k :| 0 <= k < |rest| && Leaves(c, rest[k]) && forall j :: 0 <= j < k ==> Retries(c, rest[j]);
      assert Leaves(c, scripts[k + 1]) && forall j :: 0 <= j < k + 1 ==> j == 0 || scripts[j] == rest[j - 1];
    }
    if ItemLeaves(c, scripts) && !Leaves(c, scripts[0]) {
      var k :| 0 <= k < |scripts| && Leaves(c, scripts[k]) && forall j :: 0 <= j < k ==> Retries(c, scripts[j]);
      assert Leaves(c, rest[k - 1]) && forall j :: 0 <= j < k - 1 ==> rest[j] == scripts[j + 1];
    }
  }

  lemma {:induction false} DecisiveLeaves(c: Config, scripts: seq<Script>, ws: nat)
    requires scripts != []
    ensures Tries(c, scripts, ws) != []
    ensures Leaked(Decisive(Tries(c, scripts, ws))) != [] <==> ItemLeaves(c, scripts)
    decreases |scripts|
  {
    var ws', rest := ws + PreparedBy(c, scripts[0]), scripts[1..];
    TriesLength(c, scripts, ws);
    ScriptDecides(c, scripts[0], ws);
    LeavesNowOrLater(c, scripts);
    assert Tries(c, scripts, ws)[1..] == Tries(c, rest, ws');
    if |scripts| > 1 && Retries(c, scripts[0]) {
      DecisiveLeaves(c, rest, ws');
    }
  }

  /** Unless workspaces are kept, every workspace that was prepared for the item is cleaned up
      exactly once, in the order in which they were prepared, if and only if no interrupt comes when
      one is there; that one is left behind.  If they are kept, none is cleaned up. */
  lemma EveryWorkspaceCleanedOnce(c: Config, scripts: seq<Script>, ws: nat)
    requires scripts != []
    ensures Tries(c, scripts, ws) != []
    ensures var calls, last := ItemCalls(c, Tries(c, scripts, ws)), Decisive(Tries(c, scripts, ws));
      && (if c.keep then CleanedIn(calls) == [] else PreparedIn(calls) == CleanedIn(calls) + Leaked(last))
      && (!c.keep ==> (CleanedIn(calls) == PreparedIn(calls) <==> !ItemLeaves(c, scripts)))
      && forall k, l :: 0 <= k < l < |PreparedIn(calls)| ==> PreparedIn(calls)[k] < PreparedIn(calls)[l]
  {
    TriesLength(c, scripts, ws);
    TriesAreSound(c, scripts, ws);
    CleanedIsPrepared(c, Tries(c, scripts, ws));
    DecisiveLeaves(c, scripts, ws);
    PreparedAscends(c, Tries(c, scripts, ws), ws);
    AscendsIsSorted(PreparedIn(ItemCalls(c, Tries(c, scripts, ws))), ws);
  }

  /** An interrupt while the backend runs: the workspace is prepared and never cleaned up. */
  lemma InterruptLeaks()
    ensures var c, s := Config(true, false, true, true, 2, true), Script(None, [], None, None, None, Some(Backend));
      var calls := ItemCalls(c, Tries(c, [s, s, s], 0));
      PreparedIn(calls) == [0] && CleanedIn(calls) == []
  {
    var c, s := Config(true, false, true, true, 2, true), Script(None, [], None, None, None, Some(Backend));
    var ts := Tries(c, [s, s, s], 0);
    assert ts[0] == TryOf(c, s, 0) == Try(Interrupted(Some(0)), 0);
    assert ItemCalls(c, ts) == [Prepared(0)];
    assert [Prepared(0)][1..] == [];
  }

  // ---------- Nothing is tried after a run has shown itself ----------

  predicate NoTry(calls: seq<Call>) {
    calls == [] || (!calls[0].Prepared? && !calls[0].Slept? && NoTry(calls[1..]))
  }

  predicate NoTryAfterShow(calls: seq<Call>) {
    calls == [] || ((calls[0].Emitted? ==> NoTry(calls[1..])) && NoTryAfterShow(calls[1..]))
  }

  lemma {:induction false} NoTryAppends(a: seq<Call>, b: seq<Call>)
    requires NoTry(a) && NoTry(b)
    ensures NoTry(a + b)
  {
    if a == [] {
      assert a + b == b;
    } else {
      assert (a + b)[1..] == a[1..] + b;
      NoTryAppends(a[1..], b);
    }
  }

  lemma {:induction false} NoTryIsLater(calls: seq<Call>)
    requires NoTry(calls)
    ensures NoTryAfterShow(calls)
  {
    if calls != [] {
      NoTryIsLater(calls[1..]);
    }
  }

  predicate Silent(calls: seq<Call>) {
    calls == [] || (!calls[0].Emitted? && Silent(calls[1..]))
  }

  lemma {:induction false} SilentThen(a: seq<Call>, b: seq<Call>)
    requires Silent(a) && NoTryAfterShow(b)
    ensures NoTryAfterShow(a + b)
  {
    if a == [] {
      assert a + b == b;
    } else {
      assert (a + b)[1..] == a[1..] + b;
      SilentThen(a[1..], b);
    }
  }

  lemma RetriedIsSilent(c: Config, t: Try)
    requires Sound(c, t) && Retryable(t.attempt)
    ensures Silent(TryCalls(t)) && Silent(AfterRetry(c, t.attempt.prepared))
  {
    var prepared := t.attempt.prepared;
    assert TryCalls(t) == if prepared.Some? then [Prepared(prepared.value)] else [];
    assert Silent(Pause(c));
    if prepared.Some? {
      assert [CleanedUp(prepared.value)] + Pause(c) == AfterRetry(c, prepared) || AfterRetry(c, prepared) == Pause(c);
      assert ([CleanedUp(prepared.value)] + Pause(c))[1..] == Pause(c);
      assert [Prepared(prepared.value)][1..] == [];
    }
  }

  lemma LastIsQuiet(c: Config, t: Try)
    ensures NoTryAfterShow(TryCalls(t) + AfterLast(c, t.attempt))
  {
    var prepared, after := t.attempt.prepared, AfterLast(c, t.attempt);
    var first := if prepared.Some? then [Prepared(prepared.value)] else [];
    var clean, collect := CleanupCalls(c, prepared), if c.hasCollector then [Collected(prepared)] else [];
    EmitsNothingElse(t.shown);
    assert NoTry(collect) && NoTry(clean);
    NoTryAppends(collect, clean);
    NoTryAppends(Emits(t.shown), after);
    NoTryIsLater(Emits(t.shown) + after);
    assert Silent(first) by {
      assert first == [] || first[1..] == [];
    }
    SilentThen(first, Emits(t.shown) + after);
    assert first + Emits(t.shown) + after == first + (Emits(t.shown) + after);
  }

  lemma {:induction false} ItemIsQuiet(c: Config, ts: seq<Try>)
    requires ts != [] && AllSound(c, ts)
    ensures NoTryAfterShow(ItemCalls(c, ts))
  {
    if TriesAgain(ts) {
      ItemIsQuiet(c, ts[1..]);
      RetriedIsSilent(c, ts[0]);
      SilentThen(AfterRetry(c, ts[0].attempt.prepared), ItemCalls(c, ts[1..]));
      SilentThen(TryCalls(ts[0]), AfterRetry(c, ts[0].attempt.prepared) + ItemCalls(c, ts[1..]));
    } else {
      LastIsQuiet(c, ts[0]);
    }
  }

  lemma {:induction false} NoTryAt(calls: seq<Call>, j: nat)
    requires NoTry(calls) && j < |calls|
    ensures !calls[j].Prepared? && !calls[j].Slept?
  {
    if j > 0 {
      NoTryAt(calls[1..], j - 1);
    }
  }

  lemma {:induction false} QuietAt(calls: seq<Call>, i: nat, j: nat)
    requires NoTryAfterShow(calls) && i < j < |calls| && calls[i].Emitted?
    ensures !calls[j].Prepared? && !calls[j].Slept?
  {
    if i > 0 {
      QuietAt(calls[1..], i - 1, j - 1);
    } else {
      NoTryAt(calls[1..], j - 1);
    }
  }

  /** Once the backend has shown a run's ids, nothing is prepared or tried again: at most the last
      attempt emits metadata. */
  lemma MetadataOnlyInTheLast(c: Config, scripts: seq<Script>, ws: nat, i: nat, j: nat)
    requires Tries(c, scripts, ws) != [] && i < j < |ItemCalls(c, Tries(c, scripts, ws))|
    requires ItemCalls(c, Tries(c, scripts, ws))[i].Emitted?
    ensures !ItemCalls(c, Tries(c, scripts, ws))[j].Prepared? && !ItemCalls(c, Tries(c, scripts, ws))[j].Slept?
  {
    TriesAreSound(c, scripts, ws);
    ItemIsQuiet(c, Tries(c, scripts, ws));
    QuietAt(ItemCalls(c, Tries(c, scripts, ws)), i, j);
  }

  /** The deciding attempt is the first that succeeded or may not be retried, or the last one there is. */
  lemma {:induction false} DecisiveIsFinal(ts: seq<Try>) returns (last: nat)
    requires ts != []
    ensures last < |ts| && Decisive(ts) == ts[last].attempt
    ensures last == |ts| - 1 || !Retryable(Decisive(ts))
    ensures forall k :: 0 <= k < last ==> Retryable(ts[k].attempt)
  {
    if TriesAgain(ts) {
      last := DecisiveIsFinal(ts[1..]);
      last := last + 1;
    } else {
      last := 0;
    }
  }

  /** Text, token usage and outcome come from the events up to the one that ends the run; what a
      backend might still send after that does not count. */
  lemma UsageStopsAtTheEnd(stream: seq<BackendEvent>, more: seq<BackendEvent>)
    requires Finished(stream)
    ensures SummaryOf(Consumed(stream + more)) == SummaryOf(Consumed(stream))
  {
    ConsumedIsPrefix(stream);
    var n := |Consumed(stream)|;
    assert Ends((stream + more)[n - 1]);
    ConsumedIs(stream + more, n);
    assert (stream + more)[..n] == stream[..n] == Consumed(stream);
  }
}
