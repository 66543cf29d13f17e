/** Every connection attempt comes to an end, and what a session keeps and loses on the way. */
module SessionSettles {
  import opened Text
  import opened Session
  import opened SessionRuns

  predicate IsConnecting(p: Phase) {
    p.Fetching? || p.Starting?
  }

  /** Replies that can still arrive: one for each endpoint not yet answered, and one for the subscription. */
  function RepliesLeft(p: Phase): nat {
    if p.Fetching? then (if p.fetch.Endpoint? && p.fetch.tried < p.fetch.urls then p.fetch.urls - p.fetch.tried + 1 else 1)
    else 0
  }

  function TicksLeft(p: Phase): nat {
    if p.Fetching? then MAX_ATTEMPTS
    else if p.Starting? && p.ticks < MAX_ATTEMPTS then MAX_ATTEMPTS - p.ticks
    else 0
  }

  predicate IsReplyTo(p: Phase, e: Event) {
    p.Fetching? && e.HttpReply?
  }

  predicate IsTickOf(p: Phase, e: Event) {
    p.Starting? && e.Tick?
  }

  function Replies(p: Phase, run: Run): nat {
    if run == [] then 0
    else
      var n := |run| - 1;
      Replies(p, run[..n]) + if IsReplyTo(After(p, run[..n]), run[n].0) then 1 else 0
  }

  function Ticks(p: Phase, run: Run): nat {
    if run == [] then 0
    else
      var n := |run| - 1;
      Ticks(p, run[..n]) + if IsTickOf(After(p, run[..n]), run[n].0) then 1 else 0
  }

  predicate StaysConnecting(p: Phase, run: Run) {
    forall n :: 0 <= n <= |run| ==> IsConnecting(After(p, run[..n]))
  }

  /** Each reply and each tick uses one up; nothing gives any back while the attempt lasts. */
  lemma {:induction false} StepUsesUp(p: Phase, e: Event, s: Surroundings)
    requires IsReachable(p) && IsConnecting(p) && IsConnecting(Step(p, e, s).next)
    ensures var q := Step(p, e, s).next;
            && IsReachable(q)
            && (if IsReplyTo(p, e) then RepliesLeft(q) < RepliesLeft(p) else RepliesLeft(q) == RepliesLeft(p))
            && (if IsTickOf(p, e) then TicksLeft(q) < TicksLeft(p) else TicksLeft(q) == TicksLeft(p))
  {
    hide Trim, Tail;
  }

  lemma {:induction false} AttemptIsBounded(p: Phase, run: Run)
    requires IsReachable(p) && StaysConnecting(p, run)
    ensures IsReachable(After(p, run)) && IsConnecting(After(p, run))
    ensures Replies(p, run) + RepliesLeft(After(p, run)) <= RepliesLeft(p)
    ensures Ticks(p, run) + TicksLeft(After(p, run)) <= TicksLeft(p)
    decreases |run|
  {
    hide Step, IsReachable, IsConnecting, RepliesLeft, TicksLeft, IsReplyTo, IsTickOf;
    assert run[..|run|] == run;
    if run != [] {
      var n := |run| - 1;
      forall m | 0 <= m <= n ensures IsConnecting(After(p, run[..n][..m])) {
        assert run[..n][..m] == run[..m];
      }
      AttemptIsBounded(p, run[..n]);
      StepUsesUp(After(p, run[..n]), run[n].0, run[n].1);
    }
  }

  /**
   * From any reachable connecting phase, a run in which as many replies and ticks were taken as are left has
   * settled on the way: connected, or idle again. At most one more reply than configured endpoints, and 480 ticks.
   */
  lemma {:induction false} EveryAttemptSettles(p: Phase, run: Run)
    requires IsReachable(p) && IsConnecting(p)
    requires Replies(p, run) + Ticks(p, run) >= RepliesLeft(p) + TicksLeft(p)
    ensures exists n :: 0 <= n <= |run| && !IsConnecting(After(p, run[..n]))
  {
    hide After, Replies, Ticks;
    if StaysConnecting(p, run) {
      AttemptIsBounded(p, run);
    }
  }

  lemma {:induction false} AttemptStartsSmall(s: Surroundings)
    ensures RepliesLeft(Connect(s).next) <= s.endpoints + 1
    ensures TicksLeft(Connect(s).next) <= MAX_ATTEMPTS
    ensures IsReachable(Connect(s).next)
  {
  }

  /** An attempt is never stuck: the reply awaited or the tick due uses one up or settles it, as does the engine's end. */
  lemma {:induction false} NextMoveCounts(p: Phase, e: Event, s: Surroundings)
    requires IsReachable(p) && IsConnecting(p)
    requires IsReplyTo(p, e) || IsTickOf(p, e) || (p.Starting? && (e.ChildExit? || (e.ChildNotSpawned? && !p.spawned)))
    ensures var q := Step(p, e, s).next;
            || !IsConnecting(q)
            || RepliesLeft(q) < RepliesLeft(p)
            || (RepliesLeft(q) == RepliesLeft(p) && TicksLeft(q) < TicksLeft(p))
  {
    hide Trim, Tail;
  }

  function Chunks(run: Run): string {
    if run == [] then ""
    else
      var (e, _) := run[|run| - 1];
      Chunks(run[..|run| - 1]) + if e.ChildOutput? then e.chunk else ""
  }

  predicate KeepsEngine(effects: seq<Effect>) {
    EngineStopped !in effects && EngineLost !in effects
  }

  lemma {:induction false} OutputOfStep(p: Phase, e: Event, s: Surroundings)
    requires (p.Starting? || p.Connected?) && KeepsEngine(Step(p, e, s).effects)
    ensures var q := Step(p, e, s).next;
            && (q.Starting? || q.Connected?)
            && q.output == p.output + if e.ChildOutput? then e.chunk else ""
  {
    hide Trim, Tail, Connect;
  }

  /** While an engine lives its output is all it was heard to say, however that was cut up and whatever else happened. */
  lemma {:induction false} OutputIsWhole(p: Phase, run: Run)
    requires p.Starting? && p.output == "" && KeepsEngine(Effects(p, run))
    ensures After(p, run).Starting? || After(p, run).Connected?
    ensures After(p, run).output == Chunks(run)
    decreases |run|
  {
    hide Step;
    if run != [] {
      var n := |run| - 1;
      OutputIsWhole(p, run[..n]);
      OutputOfStep(After(p, run[..n]), run[n].0, run[n].1);
    }
  }

  /** Two engines that said the same before they ended fail with the same words, however the output arrived. */
  lemma {:induction false} ChunkingDoesNotMatter(p: Phase, a: Run, b: Run, crashed: bool, code: int, x: string, y: string, s: Surroundings)
    requires p.Starting? && p.output == "" && KeepsEngine(Effects(p, a)) && KeepsEngine(Effects(p, b))
    requires Chunks(a) + x == Chunks(b) + y
    ensures var tail := Trim(Right(Chunks(a) + x, TAIL_SIZE));
            var why := if crashed then Crashed(tail) else Exited(code, tail);
            && EngineFailed(why) in Step(After(p, a), ChildExit(crashed, code, x), s).effects
            && EngineFailed(why) in Step(After(p, b), ChildExit(crashed, code, y), s).effects
  {
    hide Trim, Right;
    OutputIsWhole(p, a);
    OutputIsWhole(p, b);
    var tail := Trim(Right(Chunks(a) + x, TAIL_SIZE));
    var why := if crashed then Crashed(tail) else Exited(code, tail);
    LossIsSaid(After(p, a), why);
    LossIsSaid(After(p, b), why);
  }

  lemma {:induction false} LossIsSaid(p: Phase, why: Failure)
    requires p.Starting? || p.Connected?
    ensures EngineFailed(why) in Lose(p, why).effects
  {
    assert ([EngineLost, EngineFailed(why)] + Undo(p.Connected? && p.redirected))[1] == EngineFailed(why);
    assert Lose(p, why).effects[1] == EngineFailed(why);
  }

  /** Whether a child was reported running since the last start request. */
  predicate IsHeardOf(run: Run) {
    run != [] &&
      var n := |run| - 1;
      var (e, s) := run[n];
      e.ChildSpawned? || (IsHeardOf(run[..n]) && StartRequested !in Step(After(Idle, run[..n]), e, s).effects)
  }

  lemma {:induction false} SpawnedOfStep(p: Phase, e: Event, s: Surroundings)
    ensures var q := Step(p, e, s).next;
            q.Starting? || q.Connected? ==>
              && (q.spawned ==> e.ChildSpawned? || ((p.Starting? || p.Connected?) && p.spawned))
              && (q.spawned <== e.ChildSpawned?)
              && if StartRequested in Step(p, e, s).effects then !q.spawned
                 else (p.Starting? || p.Connected?) && (p.spawned ==> q.spawned)
  {
    hide Trim, Tail;
  }

  lemma {:induction false} SpawnedIsHeardOf(run: Run)
    ensures var p := After(Idle, run); p.Starting? || p.Connected? ==> (p.spawned <==> IsHeardOf(run))
    decreases |run|
  {
    hide Step;
    if run != [] {
      var n := |run| - 1;
      SpawnedIsHeardOf(run[..n]);
      SpawnedOfStep(After(Idle, run[..n]), run[n].0, run[n].1);
    }
  }

  /**
   * In any run that has reached a connection, a retry makes the attempt it asks for exactly when the child
   * was reported running since its launch, or no start failure surfaces in the wait; otherwise it is lost.
   */
  lemma {:induction false} RetryReconnects(run: Run, s: Surroundings)
    requires After(Idle, run).Connected? && !Connect(s).next.Idle?
    ensures var q := After(Idle, run + [(Retry, s)]);
            && (q == Connect(s).next <==> IsHeardOf(run) || !s.spawnFailsInWait)
            && (q.Idle? <==> !IsHeardOf(run) && s.spawnFailsInWait)
  {
    SpawnedIsHeardOf(run);
    AfterOneMore(Idle, run, Retry, s);
    hide After, IsHeardOf, Connect;
  }

  /** Such a run exists: launched, open at the first poll, retried before the child was ever reported running. */
  lemma {:induction false} RetryIsLost(s: Surroundings)
    requires Launches(s) && s.spawnFailsInWait
    ensures After(Idle, [(AutoConnect, s), (Tick(true), s)]).Connected?
    ensures After(Idle, [(AutoConnect, s), (Tick(true), s), (Retry, s)]).Idle? && Connect(s).next.Starting?
  {
    hide After, Effects;
    var run := [(AutoConnect, s), (Tick(true), s)];
    assert run == [] + [(AutoConnect, s)] + [(Tick(true), s)];
    assert [(AutoConnect, s), (Tick(true), s), (Retry, s)] == run + [(Retry, s)];
    AfterNothing();
    AfterOneMore(Idle, [], AutoConnect, s);
    AfterOneMore(Idle, [] + [(AutoConnect, s)], Tick(true), s);
    AfterOneMore(Idle, run, Retry, s);
  }

  lemma {:induction false} AfterNothing()
    ensures After(Idle, []) == Idle && Effects(Idle, []) == []
  {
  }

  function Misses(s: Surroundings, k: nat): Run {
    seq(k, _ => (HttpReply(NoReply), s))
  }

  /** The endpoints are asked in order, each once; only when all have failed is the attempt given up. */
  lemma {:induction false} EndpointsInOrder(urls: nat, k: nat, s: Surroundings)
    requires 0 < urls && k <= urls
    ensures var p := Fetching(Endpoint(0, urls));
            After(p, Misses(s, k)) == if k < urls then Fetching(Endpoint(k, urls)) else Idle
    ensures Effects(Fetching(Endpoint(0, urls)), Misses(s, k))
         == seq(if k < urls then k else urls - 1, _ => Requested)
            + if k < urls then [] else [ReportedError(FetchFailed)]
  {
    if k > 0 {
      EndpointsInOrder(urls, k - 1, s);
      assert Misses(s, k)[..k - 1] == Misses(s, k - 1);
    }
  }
}
