/** What holds of every run of a session, from the moment the client is started. */
module SessionRuns {
  import opened Text
  import opened Session

  /** What an observer of the effects knows: the engine, the desktop, the signals of the latest start, the banner. */
  datatype Observed = Observed(alive: bool, redirected: bool, readies: nat, failures: nat, banner: Notice)

  const AT_LAUNCH := Observed(false, false, 0, 0, Clear)

  function Observe(o: Observed, e: Effect): Observed {
    match e
    case Requested => o
    case StartRequested => o.(readies := 0, failures := 0)
    case EngineLaunched(_) => o.(alive := true)
    case EngineReady => o.(readies := o.readies + 1)
    case EngineFailed(_) => o.(failures := o.failures + 1)
    case EngineStopped => o.(alive := false)
    case EngineLost => o.(alive := false)
    case Redirected(_) => o.(redirected := true)
    case Restored => o.(redirected := false)
    case ReportedConnected => o.(banner := Clear)
    case ReportedDisconnected => o
    case ReportedError(why) => o.(banner := Shown(why))
    case Dismissed => o.(banner := Clear)
  }

  function ObserveAll(o: Observed, effects: seq<Effect>): Observed
    decreases |effects|
  {
    if effects == [] then o else ObserveAll(Observe(o, effects[0]), effects[1..])
  }

  /**
   * The rules of a safe session: the desktop is redirected only at a live engine; an engine is ended in good
   * order only when nothing is redirected at it; after an engine is lost the redirect is undone before
   * anything is reported; one engine at a time; what the user is told is true; a start request is answered
   * by at most one ready.
   */
  predicate Obeys(o: Observed, e: Effect) {
    match e
    case Requested => !o.alive && !o.redirected
    case StartRequested => !o.alive && !o.redirected
    case EngineLaunched(_) => !o.alive && !o.redirected
    case EngineReady => o.alive && !o.redirected && o.readies == 0
    case EngineFailed(why) => !o.alive && !why.InProgress? && !why.AlreadyRunning?
    case EngineStopped => o.alive && !o.redirected
    case EngineLost => o.alive
    case Redirected(_) => o.alive && !o.redirected
    case Restored => o.redirected
    case ReportedConnected => o.alive
    case ReportedDisconnected => !o.alive && !o.redirected
    case ReportedError(why) => !o.alive && !o.redirected && !why.InProgress? && !why.AlreadyRunning?
    case Dismissed => true
  }

  predicate AllObey(o: Observed, effects: seq<Effect>)
    decreases |effects|
  {
    effects == [] || (Obeys(o, effects[0]) && AllObey(Observe(o, effects[0]), effects[1..]))
  }

  /** No start request is answered by more than one failure. */
  predicate FailsOnce(o: Observed, effects: seq<Effect>)
    decreases |effects|
  {
    effects == [] || (IsFirst(o, effects[0]) && FailsOnce(Observe(o, effects[0]), effects[1..]))
  }

  predicate IsFirst(o: Observed, e: Effect) {
    e.EngineFailed? ==> o.failures == 0
  }

  lemma {:induction false} Concat(o: Observed, a: seq<Effect>, b: seq<Effect>)
    ensures ObserveAll(o, a + b) == ObserveAll(ObserveAll(o, a), b)
    ensures AllObey(o, a + b) <==> AllObey(o, a) && AllObey(ObserveAll(o, a), b)
    ensures FailsOnce(o, a + b) <==> FailsOnce(o, a) && FailsOnce(ObserveAll(o, a), b)
    decreases |a|
  {
    hide Observe, Obeys, IsFirst;
    if a == [] {
      assert a + b == b;
    } else {
      assert (a + b)[1..] == a[1..] + b;
      Concat(Observe(o, a[0]), a[1..], b);
    }
  }

  lemma {:induction false} Nothing(o: Observed)
    ensures ObserveAll(o, []) == o && AllObey(o, []) && FailsOnce(o, [])
  {
  }

  lemma {:induction false} One(o: Observed, e: Effect)
    ensures ObserveAll(o, [e]) == Observe(o, e)
    ensures AllObey(o, [e]) <==> Obeys(o, e)
    ensures FailsOnce(o, [e]) <==> IsFirst(o, e)
  {
    hide Observe, Obeys, IsFirst;
    assert [e][1..] == [];
    Nothing(Observe(o, e));
  }

  lemma {:induction false} Two(o: Observed, e: Effect, f: Effect)
    ensures var p := Observe(o, e);
            && ObserveAll(o, [e, f]) == Observe(p, f)
            && (AllObey(o, [e, f]) <==> Obeys(o, e) && Obeys(p, f))
            && (FailsOnce(o, [e, f]) <==> IsFirst(o, e) && IsFirst(p, f))
  {
    hide Observe, Obeys, IsFirst;
    assert [e, f] == [e] + [f];
    One(o, e);
    One(Observe(o, e), f);
    Concat(o, [e], [f]);
  }

  lemma {:induction false} Three(o: Observed, e: Effect, f: Effect, g: Effect)
    ensures var p := Observe(o, e); var q := Observe(p, f);
            && ObserveAll(o, [e, f, g]) == Observe(q, g)
            && (AllObey(o, [e, f, g]) <==> Obeys(o, e) && Obeys(p, f) && Obeys(q, g))
            && (FailsOnce(o, [e, f, g]) <==> IsFirst(o, e) && IsFirst(p, f) && IsFirst(q, g))
  {
    hide Observe, Obeys, IsFirst;
    assert [e, f, g] == [e] + [f, g];
    One(o, e);
    Two(Observe(o, e), f, g);
    Concat(o, [e], [f, g]);
  }

  /** A phase that can be reached: an endpoint is one of those configured and the attempts are not used up. */
  predicate IsReachable(p: Phase) {
    match p
    case Idle => true
    case Fetching(f) => f.Endpoint? ==> f.tried < f.urls
    case Starting(ticks, _, _, _, _) => ticks < MAX_ATTEMPTS
    case Connected(_, _, _, _) => true
  }

  /** What the observer knows is where the session is. */
  predicate Agrees(o: Observed, p: Phase) {
    && (o.alive <==> p.Starting? || p.Connected?)
    && (o.redirected <==> p.Connected? && p.redirected)
    && (p.Starting? ==> o.readies == 0 && o.failures == 0)
    && (p.Connected? ==> o.readies == 1 && o.failures == 0 && o.banner.Clear?)
  }

  /** The one step in which an engine start fails twice. */
  predicate IsDoubleFailure(p: Phase, e: Event, s: Surroundings) {
    p.Starting? && e == Tick(false) && p.ticks + 1 >= MAX_ATTEMPTS && !p.spawned && s.spawnFailsInWait
  }

  ghost predicate IsSafeOutcome(o: Observed, out: Outcome, once: bool) {
    && IsReachable(out.next)
    && AllObey(o, out.effects) && Agrees(ObserveAll(o, out.effects), out.next)
    && (FailsOnce(o, out.effects) <==> once)
  }

  lemma {:induction false} RefuseIsSafe(o: Observed, why: Failure)
    requires Agrees(o, Idle) && !why.InProgress? && !why.AlreadyRunning?
    ensures IsSafeOutcome(o, Refuse(why), true)
  {
    One(o, ReportedError(why));
  }

  lemma {:induction false} LaunchIsSafe(o: Observed, config: Config, s: Surroundings)
    requires Agrees(o, Idle)
    ensures IsSafeOutcome(o, Launch(config, s), true)
  {
    hide ObserveAll, AllObey, FailsOnce;
    RefuseIsSafe(o, EmptyConfig);
    RefuseIsSafe(o, UnusableConfig);
    RefuseIsSafe(o, NoDirectory);
    RefuseIsSafe(o, NotWritten);
    Three(o, StartRequested, EngineFailed(BinaryMissing), ReportedError(BinaryMissing));
    Three(o, StartRequested, EngineFailed(NotSpawned), ReportedError(NotSpawned));
    Two(o, StartRequested, EngineLaunched(s.port));
  }

  lemma {:induction false} ConnectIsSafe(o: Observed, s: Surroundings)
    requires Agrees(o, Idle)
    ensures IsSafeOutcome(o, Connect(s), true)
  {
    hide ObserveAll, AllObey, FailsOnce, Launch;
    LaunchIsSafe(o, s.profile, s);
    RefuseIsSafe(o, NoEndpoints);
    One(o, Requested);
  }

  lemma {:induction false} UndoIsSafe(o: Observed, p: Phase)
    requires p.Connected? && o.redirected == p.redirected
    ensures ObserveAll(o, Undo(p.redirected)) == o.(redirected := false)
    ensures AllObey(o, Undo(p.redirected)) && FailsOnce(o, Undo(p.redirected))
  {
    if p.redirected { One(o, Restored); } else { Nothing(o); }
  }

  lemma {:induction false} EndIsSafe(o: Observed, p: Phase)
    requires p.Connected? && Agrees(o, p)
    ensures IsSafeOutcome(o, Outcome(Idle, Undo(p.redirected) + [EngineStopped, ReportedDisconnected]), true)
  {
    hide ObserveAll, AllObey, FailsOnce, Undo;
    UndoIsSafe(o, p);
    Concat(o, Undo(p.redirected), [EngineStopped, ReportedDisconnected]);
    Two(o.(redirected := false), EngineStopped, ReportedDisconnected);
  }

  lemma {:induction false} DisconnectIsSafe(o: Observed, p: Phase, s: Surroundings, reconnect: bool)
    requires p.Connected? && Agrees(o, p)
    ensures IsSafeOutcome(o, Disconnect(p, s, reconnect), true)
  {
    hide ObserveAll, AllObey, FailsOnce, Undo, Connect;
    if !p.spawned && s.spawnFailsInWait {
      var q := o.(redirected := false);
      UndoIsSafe(o, p);
      var rest := [EngineLost, EngineFailed(NotSpawned), ReportedError(NotSpawned), ReportedDisconnected];
      Concat(o, Undo(p.redirected), rest);
      assert rest == [EngineLost, EngineFailed(NotSpawned), ReportedError(NotSpawned)] + [ReportedDisconnected];
      Three(q, EngineLost, EngineFailed(NotSpawned), ReportedError(NotSpawned));
      var r := ObserveAll(q, [EngineLost, EngineFailed(NotSpawned), ReportedError(NotSpawned)]);
      One(r, ReportedDisconnected);
      Concat(q, [EngineLost, EngineFailed(NotSpawned), ReportedError(NotSpawned)], [ReportedDisconnected]);
    } else {
      var ended := Undo(p.redirected) + [EngineStopped, ReportedDisconnected];
      EndIsSafe(o, p);
      ConnectIsSafe(ObserveAll(o, ended), s);
      Concat(o, ended, Connect(s).effects);
    }
  }

  lemma {:induction false} LoseIsSafe(o: Observed, p: Phase, why: Failure)
    requires (p.Starting? || p.Connected?) && Agrees(o, p) && !why.InProgress? && !why.AlreadyRunning?
    ensures IsSafeOutcome(o, Lose(p, why), true)
  {
    hide ObserveAll, AllObey, FailsOnce;
    var lost := [EngineLost, EngineFailed(why)];
    Two(o, EngineLost, EngineFailed(why));
    var q := ObserveAll(o, lost);
    var undo := Undo(p.Connected? && p.redirected);
    if p.Connected? { UndoIsSafe(q, p); } else { Nothing(q); }
    Concat(o, lost, undo);
    var r := ObserveAll(q, undo);
    if p.Connected? {
      Two(r, ReportedError(why), ReportedDisconnected);
      assert Lose(p, why).effects == lost + undo + [ReportedError(why), ReportedDisconnected];
      Concat(o, lost + undo, [ReportedError(why), ReportedDisconnected]);
    } else {
      One(r, ReportedError(why));
      assert Lose(p, why).effects == lost + undo + [ReportedError(why)];
      Concat(o, lost + undo, [ReportedError(why)]);
    }
  }

  lemma {:induction false} GiveUpIsSafe(o: Observed, p: Phase, s: Surroundings)
    requires p.Starting? && Agrees(o, p)
    ensures IsSafeOutcome(o, GiveUp(p, s), p.spawned || !s.spawnFailsInWait)
  {
    hide ObserveAll, AllObey, FailsOnce, Tail, Trim;
    if !p.spawned && s.spawnFailsInWait {
      var first := [EngineLost, EngineFailed(NotSpawned), ReportedError(NotSpawned)];
      var second := [EngineFailed(NotSpawned), ReportedError(NotSpawned)];
      assert GiveUp(p, s).effects == first + second;
      Three(o, EngineLost, EngineFailed(NotSpawned), ReportedError(NotSpawned));
      Two(ObserveAll(o, first), EngineFailed(NotSpawned), ReportedError(NotSpawned));
      Concat(o, first, second);
    } else {
      var why := NeverReady(p.port, Trim(Tail(p.output)));
      Three(o, EngineStopped, EngineFailed(why), ReportedError(why));
    }
  }

  lemma {:induction false} PollIsSafe(o: Observed, p: Phase, open: bool, s: Surroundings)
    requires p.Starting? && IsReachable(p) && Agrees(o, p)
    ensures IsSafeOutcome(o, Poll(p, open, s), !IsDoubleFailure(p, Tick(open), s))
  {
    hide ObserveAll, AllObey, FailsOnce, GiveUp;
    Nothing(o);
    Two(o, EngineReady, ReportedConnected);
    Three(o, EngineReady, Redirected(p.port), ReportedConnected);
    GiveUpIsSafe(o, p, s);
    assert [EngineReady] + [Redirected(p.port)] + [ReportedConnected] == [EngineReady, Redirected(p.port), ReportedConnected];
    assert [EngineReady] + [] + [ReportedConnected] == [EngineReady, ReportedConnected];
  }

  lemma {:induction false} ReceiveIsSafe(o: Observed, f: Fetch, reply: Reply, s: Surroundings)
    requires IsReachable(Fetching(f)) && Agrees(o, Fetching(f))
    ensures IsSafeOutcome(o, Receive(f, reply, s), true)
  {
    hide ObserveAll, AllObey, FailsOnce, Launch;
    One(o, Requested);
    RefuseIsSafe(o, FetchFailed);
    LaunchIsSafe(o, if reply.Direct? then reply.config else Unusable, s);
  }

  lemma {:induction false} DismissedFirst(o: Observed, out: Outcome, once: bool)
    requires IsSafeOutcome(o.(banner := Clear), out, once)
    ensures IsSafeOutcome(o, out.(effects := [Dismissed] + out.effects), once)
  {
    hide ObserveAll, AllObey, FailsOnce;
    One(o, Dismissed);
    Concat(o, [Dismissed], out.effects);
  }

  lemma {:induction false} IgnoredIsSafe(o: Observed, q: Phase)
    requires IsReachable(q) && Agrees(o, q)
    ensures IsSafeOutcome(o, Outcome(q, []), true)
  {
    Nothing(o);
  }

  lemma {:induction false} RetryIsSafe(o: Observed, p: Phase, s: Surroundings)
    requires IsReachable(p) && Agrees(o, p)
    ensures IsSafeOutcome(o, Step(p, Retry, s), true)
  {
    hide ObserveAll, AllObey, FailsOnce, Connect, Disconnect;
    var c := o.(banner := Clear);
    IgnoredIsSafe(c, p);
    if p.Idle? { ConnectIsSafe(c, s); }
    if p.Connected? { DisconnectIsSafe(c, p, s, true); }
    DismissedFirst(o, if p.Idle? then Connect(s) else if p.Connected? then Disconnect(p, s, true) else Outcome(p, []), true);
  }

  /** Every step obeys the rules; only the double failure answers one start request twice. */
  lemma {:induction false} StepIsSafe(o: Observed, p: Phase, e: Event, s: Surroundings)
    requires IsReachable(p) && Agrees(o, p)
    ensures IsSafeOutcome(o, Step(p, e, s), !IsDoubleFailure(p, e, s))
  {
    hide ObserveAll, AllObey, FailsOnce, Connect, Disconnect, Poll, Receive, Tail, Trim;
    IgnoredIsSafe(o, p);
    match e
    case Toggle =>
      if p.Idle? { ConnectIsSafe(o, s); }
      if p.Connected? { DisconnectIsSafe(o, p, s, false); }
    case Retry => RetryIsSafe(o, p, s);
    case AutoConnect => if p.Idle? { ConnectIsSafe(o, s); }
    case Dismiss =>
      IgnoredIsSafe(o.(banner := Clear), p);
      DismissedFirst(o, Outcome(p, []), true);
      assert [Dismissed] + [] == [Dismissed];
    case HttpReply(reply) => if p.Fetching? { ReceiveIsSafe(o, p.fetch, reply, s); }
    case Tick(open) => if p.Starting? { PollIsSafe(o, p, open, s); }
    case ChildSpawned =>
      if p.Starting? || p.Connected? { IgnoredIsSafe(o, p.(spawned := true)); }
    case ChildOutput(chunk) =>
      if p.Starting? || p.Connected? { IgnoredIsSafe(o, p.(output := p.output + chunk)); }
    case ChildExit(crashed, code, last) =>
      if p.Starting? || p.Connected? {
        var tail := Trim(Tail(p.output + last));
        LoseIsSafe(o, p, if crashed then Crashed(tail) else Exited(code, tail));
      }
    case ChildNotSpawned =>
      if (p.Starting? || p.Connected?) && !p.spawned { LoseIsSafe(o, p, NotSpawned); }
  }

  predicate HasDoubleFailure(run: Run) {
    exists i :: 0 <= i < |run| && IsDoubleFailure(After(Idle, run[..i]), run[i].0, run[i].1)
  }

  lemma {:induction false} DoubleFailureOfInit(run: Run)
    requires run != []
    ensures var n := |run| - 1;
            HasDoubleFailure(run) <==> HasDoubleFailure(run[..n]) || IsDoubleFailure(After(Idle, run[..n]), run[n].0, run[n].1)
  {
    hide IsDoubleFailure, After;
    var n := |run| - 1;
    assert forall i :: 0 <= i < n ==> run[..n][..i] == run[..i] && run[..n][i] == run[i];
  }

  /**
   * Every run, from launch on, obeys the rules at every effect; and every start request is answered by at
   * most one failure exactly when no step of the run is the double failure.
   */
  lemma {:induction false} EveryRunIsSafe(run: Run)
    ensures var effects := Effects(Idle, run);
            && AllObey(AT_LAUNCH, effects)
            && IsReachable(After(Idle, run)) && Agrees(ObserveAll(AT_LAUNCH, effects), After(Idle, run))
            && (FailsOnce(AT_LAUNCH, effects) <==> !HasDoubleFailure(run))
    decreases |run|
  {
    hide Step, ObserveAll, AllObey, FailsOnce, IsDoubleFailure;
    if run == [] {
      Nothing(AT_LAUNCH);
    } else {
      var n := |run| - 1;
      var (e, s) := run[n];
      EveryRunIsSafe(run[..n]);
      DoubleFailureOfInit(run);
      var p, before := After(Idle, run[..n]), Effects(Idle, run[..n]);
      var o := ObserveAll(AT_LAUNCH, before);
      StepIsSafe(o, p, e, s);
      Concat(AT_LAUNCH, before, Step(p, e, s).effects);
    }
  }

  predicate IsNeverSaid(why: Failure, effects: seq<Effect>) {
    ReportedError(why) !in effects && EngineFailed(why) !in effects
  }

  lemma {:induction false} RulesRefuseNothing(o: Observed, effects: seq<Effect>, why: Failure)
    requires AllObey(o, effects) && (why.InProgress? || why.AlreadyRunning?)
    ensures IsNeverSaid(why, effects)
    decreases |effects|
  {
    if effects != [] {
      RulesRefuseNothing(Observe(o, effects[0]), effects[1..], why);
      assert effects == [effects[0]] + effects[1..];
    }
  }

  /** No run ever takes a guard against a second attempt or a second engine. */
  lemma {:induction false} NeverRefused(run: Run)
    ensures IsNeverSaid(InProgress, Effects(Idle, run)) && IsNeverSaid(AlreadyRunning, Effects(Idle, run))
  {
    EveryRunIsSafe(run);
    hide AllObey, Effects;
    RulesRefuseNothing(AT_LAUNCH, Effects(Idle, run), InProgress);
    RulesRefuseNothing(AT_LAUNCH, Effects(Idle, run), AlreadyRunning);
  }

  /** Surroundings in which an engine is launched from the user's own profile. */
  predicate Launches(s: Surroundings) {
    && s.profile.Usable? && s.directoryMade && s.filesWritten && s.binaryFound && s.spawnAccepted
  }

  lemma {:induction false} AfterOneMore(p: Phase, run: Run, e: Event, s: Surroundings)
    ensures After(p, run + [(e, s)]) == Step(After(p, run), e, s).next
    ensures Effects(p, run + [(e, s)]) == Effects(p, run) + Step(After(p, run), e, s).effects
  {
    hide Step;
    assert (run + [(e, s)])[..|run|] == run;
  }

  /** The launch of an engine that stays silent, polled k times in vain. */
  function SilentRun(s: Surroundings, k: nat): (run: Run)
    ensures |run| == k + 1
  {
    [(AutoConnect, s)] + seq(k, _ => (Tick(false), s))
  }

  lemma {:induction false} SilentRunWaits(s: Surroundings, k: nat)
    requires Launches(s) && k < MAX_ATTEMPTS
    ensures After(Idle, SilentRun(s, k)) == Starting(k, false, "", s.port, s.wantsProxy)
    decreases k
  {
    if k == 0 {
      assert SilentRun(s, 0) == [] + [(AutoConnect, s)];
      AfterOneMore(Idle, [], AutoConnect, s);
    } else {
      SilentRunWaits(s, k - 1);
      assert SilentRun(s, k) == SilentRun(s, k - 1) + [(Tick(false), s)];
      AfterOneMore(Idle, SilentRun(s, k - 1), Tick(false), s);
    }
  }

  /**
   * The double failure happens: an engine that is never heard of again after its launch fails its one start
   * request twice exactly when its start failure surfaces in the wait that ends it.
   */
  lemma {:induction false} SilentEngineFails(s: Surroundings)
    requires Launches(s)
    ensures var run := SilentRun(s, MAX_ATTEMPTS);
            && After(Idle, run).Idle?
            && (HasDoubleFailure(run) <==> s.spawnFailsInWait)
            && (FailsOnce(AT_LAUNCH, Effects(Idle, run)) <==> !s.spawnFailsInWait)
  {
    hide FailsOnce, Effects, Trim;
    var n := MAX_ATTEMPTS - 1;
    var run := SilentRun(s, MAX_ATTEMPTS);
    SilentRunWaits(s, n);
    assert run == SilentRun(s, n) + [(Tick(false), s)] && run[..|run| - 1] == SilentRun(s, n);
    AfterOneMore(Idle, SilentRun(s, n), Tick(false), s);
    forall i | 0 <= i < |run| - 1 ensures !IsDoubleFailure(After(Idle, run[..i]), run[i].0, run[i].1) {
      if i > 0 {
        assert run[..i] == SilentRun(s, i - 1);
        SilentRunWaits(s, i - 1);
      }
    }
    hide After;
    EveryRunIsSafe(run);
  }
}
