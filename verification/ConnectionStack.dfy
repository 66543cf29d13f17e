/** The three layers of a connection, each calling the next and being called back by it. */
module ConnectionStack {
  import opened Text
  import opened Session
  import opened SessionRuns
  import opened Redirection
  import Proxy = SystemProxyModel
  import Desk = DesktopProxy

  datatype ModelStatus = Disconnected | Connecting | Connected | Disconnecting
  datatype CoreStatus = Idle | Downloading | Starting | Running | Stopping | Error
  datatype EngineState = Stopped | Starting | Running | Stopping | Failed
  datatype Child = NotRunning | Spawning | Alive

  /** What the outside answers while one event is handled: profiles, settings, files, tools and the engine. */
  datatype World = World(
    profile: Config, isReserved: string -> bool,
    directoryMade: bool, filesWritten: bool, binaryFound: bool, spawnAccepted: bool,
    mixedPort: nat, systemProxy: bool,
    fileOpens: bool, commands: nat -> Desk.Outcome,
    spawnFailsInWait: bool, lastWords: string)

  /** Everything observable the layers did, in order. */
  class Trace {
    ghost var effects: seq<Effect>

    constructor ()
      ensures effects == []
    {
      effects := [];
    }

    ghost function Seen(): Observed
      reads this
    {
      ObserveAll(AT_LAUNCH, effects)
    }

    ghost method Emit(e: Effect)
      modifies this
      ensures effects == old(effects) + [e]
      ensures Seen() == Observe(old(Seen()), e)
    {
      Concat(AT_LAUNCH, effects, [e]);
      One(Seen(), e);
      effects := effects + [e];
    }
  }

  /** The endpoints a request can be sent to: trimmed, not blank, not reserved. */
  function Configured(urls: seq<string>, isReserved: string -> bool): seq<string> {
    if urls == [] then []
    else
      var t := Trim(Last(urls));
      Configured(Init(urls), isReserved) + if t == "" || isReserved(t) then [] else [t]
  }

  /** A request is sent to nothing but usable addresses, and to every one of them that was given. */
  lemma {:induction false} ConfiguredExactly(urls: seq<string>, isReserved: string -> bool, u: string)
    ensures u in Configured(urls, isReserved) <==>
            u != "" && !isReserved(u) && exists i :: 0 <= i < |urls| && Trim(urls[i]) == u
    ensures |Configured(urls, isReserved)| <= |urls|
    decreases |urls|
  {
    hide Trim;
    if urls != [] {
      var n := |urls| - 1;
      ConfiguredExactly(Init(urls), isReserved, u);
      assert forall i :: 0 <= i < n ==> Init(urls)[i] == urls[i];
    }
  }

  /** Where the usable addresses come from: every usable one that was given, trimmed, in order. */
  predicate AreUsable(usable: seq<string>, from: seq<nat>, urls: seq<string>, isReserved: string -> bool) {
    && |from| == |usable|
    && (forall j, k :: 0 <= j < k < |from| ==> from[j] < from[k])
    && (forall j :: 0 <= j < |from| ==> from[j] < |urls| && usable[j] == Trim(urls[from[j]]))
    && (forall i :: 0 <= i < |urls| ==> (i in from <==> Trim(urls[i]) != "" && !isReserved(Trim(urls[i]))))
  }

  lemma {:induction false} ConfiguredInOrder(urls: seq<string>, isReserved: string -> bool) returns (from: seq<nat>)
    ensures AreUsable(Configured(urls, isReserved), from, urls, isReserved)
    decreases |urls|
  {
    hide Trim, AreUsable;
    from := [];
    if urls == [] {
      NoneUsable(isReserved);
    } else {
      var t := Trim(Last(urls));
      var before := ConfiguredInOrder(Init(urls), isReserved);
      OneMoreUrl(Configured(Init(urls), isReserved), before, urls, isReserved);
      from := if t == "" || isReserved(t) then before else before + [|urls| - 1];
      assert Configured(Init(urls), isReserved) + [] == Configured(Init(urls), isReserved);
    }
  }

  lemma {:induction false} NoneUsable(isReserved: string -> bool)
    ensures AreUsable([], [], [], isReserved)
  {
  }

  lemma {:induction false} OneMoreUrl(usable: seq<string>, from: seq<nat>, urls: seq<string>, isReserved: string -> bool)
    requires urls != [] && AreUsable(usable, from, Init(urls), isReserved)
    ensures var t := Trim(Last(urls));
            if t == "" || isReserved(t) then AreUsable(usable, from, urls, isReserved)
            else AreUsable(usable + [t], from + [|urls| - 1], urls, isReserved)
  {
    hide Trim;
    var n := |urls| - 1;
    forall i | 0 <= i < n ensures i in from <==> Trim(urls[i]) != "" && !isReserved(Trim(urls[i])) {
      assert Init(urls)[i] == urls[i];
    }
    assert n !in from;
    assert (from + [n])[|from|] == n && forall x :: x in from + [n] <==> x in from || x == n;
  }

  method ConfiguredEndpoints(urls: seq<string>, isReserved: string -> bool) returns (usable: seq<string>)
    ensures usable == Configured(urls, isReserved)
  {
    usable := [];
    assert urls[..0] == [];
    for i := 0 to |urls|
      invariant usable == Configured(urls[..i], isReserved)
    {
      assert Init(urls[..i + 1]) == urls[..i] && Last(urls[..i + 1]) == urls[i];
      var trimmed := Trim(urls[i]);
      if trimmed == "" || isReserved(trimmed) {
        continue;
      }
      usable := usable + [trimmed];
    }
    assert urls[..|urls|] == urls;
  }

  /** What a failed signal sets off: the desktop is put back, then the failure is reported, then the end of a connection. */
  function Failing(why: Failure, applied: bool, wasRunning: bool): seq<Effect> {
    [EngineFailed(why)] + Reporting(why, applied, wasRunning)
  }

  function Reporting(why: Failure, applied: bool, wasRunning: bool): seq<Effect> {
    Undo(applied) + [ReportedError(why)] + if wasRunning then [ReportedDisconnected] else []
  }

  lemma {:induction false} FailingAfter(t: seq<Effect>, e: Effect, why: Failure)
    ensures t + [e] + Failing(why, false, false) == t + [e, EngineFailed(why), ReportedError(why)]
  {
    assert Failing(why, false, false) == [EngineFailed(why), ReportedError(why)];
  }

  lemma {:induction false} SpawnInSteps(t: seq<Effect>, port: nat, wantsProxy: bool, binaryFound: bool, spawnAccepted: bool)
    ensures var out := Spawn(port, wantsProxy, binaryFound, spawnAccepted);
            if binaryFound && spawnAccepted then
              && out.next == Phase.Starting(0, false, "", port, wantsProxy)
              && t + out.effects == t + [StartRequested] + [EngineLaunched(port)]
            else
              && out.next.Idle?
              && t + out.effects
                 == t + [StartRequested] + Failing(if binaryFound then NotSpawned else BinaryMissing, false, false)
  {
    FailingAfter(t, StartRequested, NotSpawned);
    FailingAfter(t, StartRequested, BinaryMissing);
  }

  lemma {:induction false} DisconnectInSteps(t: seq<Effect>, p: Phase, s: Surroundings, reconnect: bool)
    requires p.Connected?
    ensures var out := Disconnect(p, s, reconnect);
            if !p.spawned && s.spawnFailsInWait then
              && out.next.Idle?
              && t + out.effects
                 == t + Undo(p.redirected) + [EngineLost] + Failing(NotSpawned, false, false) + [ReportedDisconnected]
            else
              && out.next == (if reconnect then Connect(s).next else Phase.Idle)
              && t + out.effects == t + Undo(p.redirected) + [EngineStopped] + [ReportedDisconnected]
                                    + if reconnect then Connect(s).effects else []
  {
    hide Connect;
    FailingAfter(t + Undo(p.redirected), EngineLost, NotSpawned);
  }

  lemma {:induction false} EndIsIdle(p: Phase, s: Surroundings)
    requires p.Connected?
    ensures Disconnect(p, s, false).next.Idle?
  {
  }

  lemma {:induction false} TickInSteps(t: seq<Effect>, p: Phase, open: bool, s: Surroundings)
    ensures var out := Step(p, Tick(open), s); var e := t + out.effects;
      if !p.Starting? then out.next == p && e == t
      else if open then
        var redirected := p.wantsProxy && s.redirects;
        && out.next == Phase.Connected(p.spawned, p.output, p.port, redirected)
        && e == t + [EngineReady] + (if redirected then [Redirected(p.port)] else []) + [ReportedConnected]
      else if p.ticks + 1 < MAX_ATTEMPTS then
        out.next == p.(ticks := p.ticks + 1) && e == t
      else
        && out.next.Idle?
        && e == t + if !p.spawned && s.spawnFailsInWait then
                      [EngineLost] + Failing(NotSpawned, false, false) + Failing(NotSpawned, false, false)
                    else
                      [EngineStopped] + Failing(NeverReady(p.port, Trim(Tail(p.output))), false, false)
  {
    hide Trim, Tail;
  }

  lemma {:induction false} LoseInSteps(t: seq<Effect>, p: Phase, why: Failure)
    requires p.Starting? || p.Connected?
    ensures Lose(p, why).next.Idle?
    ensures t + Lose(p, why).effects
         == t + [EngineLost] + Failing(why, p.Connected? && p.redirected, p.Connected?)
  {
    hide Undo;
    var undo := Undo(p.Connected? && p.redirected);
    assert [EngineLost, EngineFailed(why)] + undo == [EngineLost] + ([EngineFailed(why)] + undo);
  }

  /** Supervises the engine as a child process. */
  class CoreProcess {
    const trace: Trace
    var listener: VpnCore?
    var state: EngineState
    var process: Child
    var polling: bool
    var attempts: nat
    var tail: string
    var lastError: Notice
    var proxyPort: nat
    /** All that the child has written since its start. */
    ghost var output: string

    constructor (trace: Trace)
      ensures this.trace == trace && listener == null
      ensures state.Stopped? && process.NotRunning? && tail == Tail(output)
    {
      this.trace, listener := trace, null;
      state, process, polling, attempts := EngineState.Stopped, NotRunning, false, 0;
      tail, lastError, proxyPort, output := "", Clear, 0, "";
    }

    ghost predicate Rests()
      reads this
    {
      (state.Stopped? || state.Failed?) && process.NotRunning?
    }

    ghost predicate Wired()
      reads this, listener, if listener == null then {} else listener.Above()
    {
      listener != null && listener.core == this && listener.Wired()
    }

    ghost predicate Steady()
      reads *
    {
      Wired() && listener.listener.Steady()
    }

    /** The child wrote something; only the end of it is kept. */
    method DrainOutput(chunk: string)
      requires tail == Tail(output)
      modifies this`tail, this`output
      ensures tail == Tail(output) && output == old(output) + chunk
    {
      RightOfConcat(output, chunk, TAIL_SIZE);
      if chunk == "" {
        assert output + chunk == output;
        return;
      }
      tail, output := tail + chunk, output + chunk;
      if |tail| > TAIL_SIZE {
        tail := Right(tail, TAIL_SIZE);
      }
    }

    /** emit failed(m_lastError) */
    method SignalFailed(w: World)
      requires Steady() && lastError.Shown?
      modifies listener.Parts(), listener.listener`status, listener.listener`reconnect, listener.listener`notice
      modifies listener.listener.free`pending
      ensures unchanged(this) && unchanged(listener`listener, listener`mixedPort, listener`wantSystemProxy)
      ensures unchanged(listener.listener.free)
      ensures listener.HasFailed(lastError.why)
      ensures trace.effects == old(trace.effects)
           + Failing(lastError.why, old(listener.proxy.applied), old(listener.coreStatus.Running?))
      decreases if listener.listener.reconnect then 1 else 0, 4
    {
      hide InHand, ObserveAll;
      trace.Emit(EngineFailed(lastError.why));
      listener.HandleEngineFailure(lastError.why, w);
    }

    /** QProcess::errorOccurred(FailedToStart) */
    method HandleStartError(w: World)
      requires Steady() && process.NotRunning?
      modifies listener.Parts(), listener.listener`status, listener.listener`reconnect, listener.listener`notice
      modifies listener.listener.free`pending
      ensures unchanged(this`listener, this`process, this`polling, this`tail, this`output, this`proxyPort, this`attempts)
      ensures unchanged(listener`listener, listener`mixedPort, listener`wantSystemProxy) && unchanged(listener.listener.free)
      ensures state.Failed? && lastError == Shown(NotSpawned) && listener.HasFailed(NotSpawned)
      ensures trace.effects == old(trace.effects)
           + Failing(NotSpawned, old(listener.proxy.applied), old(listener.coreStatus.Running?))
      decreases if listener.listener.reconnect then 1 else 0, 5
    {
      hide InHand, ObserveAll;
      lastError := Shown(NotSpawned);
      state := Failed;
      SignalFailed(w);
    }

    /** QProcess::finished, the child having ended in order or not. */
    method HandleFinished(crashed: bool, code: int, last: string, w: World)
      requires Steady() && process.NotRunning?
      modifies listener.Parts(), listener.listener`status, listener.listener`reconnect, listener.listener`notice
      modifies listener.listener.free`pending
      ensures unchanged(this`listener, this`process, this`proxyPort, this`attempts) && !polling
      ensures unchanged(listener`listener, listener`mixedPort, listener`wantSystemProxy) && unchanged(listener.listener.free)
      ensures output == old(output) + last && Steady()
      ensures old(state.Stopping? || state.Stopped?) ==>
        && state.Stopped? && unchanged(this`lastError, listener, listener.proxy, listener.proxy.desktop, listener.listener, trace)
      ensures !old(state.Stopping? || state.Stopped?) ==>
        && state.Failed?
        && var tail := Trim(Tail(output)); var why := if crashed then Crashed(tail) else Exited(code, tail);
           && lastError == Shown(why) && listener.HasFailed(why)
           && trace.effects == old(trace.effects)
              + Failing(why, old(listener.proxy.applied), old(listener.coreStatus.Running?))
      decreases if listener.listener.reconnect then 1 else 0, 5
    {
      hide InHand, ObserveAll, Trim, Right;
      polling := false;
      DrainOutput(last);
      if state.Stopping? || state.Stopped? {
        state := EngineState.Stopped;
        return;
      }
      lastError := Shown(if crashed then Crashed(Trim(tail)) else Exited(code, Trim(tail)));
      state := Failed;
      SignalFailed(w);
    }

    method Start(port: nat, w: World)
      requires Steady()
      requires !state.Starting? && !state.Running? ==>
        && process.NotRunning? && listener.coreStatus.Starting? && listener.mixedPort == port && !listener.proxy.applied
        && listener.listener.status.Connecting? && !listener.listener.reconnect && listener.listener.free.pending == []
      modifies listener.Parts(), listener.listener`status, listener.listener`reconnect, listener.listener`notice
      modifies listener.listener.free`pending
      ensures unchanged(this`listener) && Steady() && unchanged(listener`listener)
      ensures old(state.Starting? || state.Running?) ==>
        && unchanged(this`state, this`process) && listener.HasFailed(AlreadyRunning)
        && trace.effects == old(trace.effects) + [StartRequested]
           + Failing(AlreadyRunning, old(listener.proxy.applied), old(listener.coreStatus.Running?))
      ensures !old(state.Starting? || state.Running?) ==>
        && listener.listener.Joint()
        && var out := Spawn(port, old(listener.wantSystemProxy), w.binaryFound, w.spawnAccepted);
           listener.listener.Now() == out.next && trace.effects == old(trace.effects) + out.effects
      decreases if listener.listener.reconnect then 1 else 0, 7
    {
      hide InHand, ObserveAll, ConnectionModel.Joint, ConnectionModel.Now, Failing, Spawn;
      SpawnInSteps(trace.effects, port, listener.wantSystemProxy, w.binaryFound, w.spawnAccepted);
      trace.Emit(StartRequested);
      if state.Starting? || state.Running? {
        lastError := Shown(AlreadyRunning);
        SignalFailed(w);
        return;
      }
      if !w.binaryFound {
        lastError := Shown(BinaryMissing);
        state := Failed;
        SignalFailed(w);
        listener.listener.IdleIsJoint();
        return;
      }
      ResetRun(port);
      StartChild(port, w);
      polling := true;
      if w.spawnAccepted {
        listener.listener.StartingIsJoint();
      } else {
        listener.listener.IdleIsJoint();
      }
    }

    /** Nothing of an earlier engine is kept. */
    method ResetRun(port: nat)
      modifies this`proxyPort, this`attempts, this`tail, this`output, this`lastError, this`state
      ensures proxyPort == port && attempts == 0 && tail == output == Tail(output) == "" && lastError.Clear?
      ensures state.Starting?
    {
      proxyPort, attempts, tail, output, lastError := port, 0, "", "", Clear;
      state := EngineState.Starting;
    }

    /** QProcess::start, which may fail at once. */
    method StartChild(port: nat, w: World)
      requires Steady() && process.NotRunning?
      modifies listener.Parts(), listener.listener`status, listener.listener`reconnect, listener.listener`notice
      modifies listener.listener.free`pending
      ensures unchanged(this`listener, this`proxyPort, this`attempts, this`tail, this`output)
      ensures unchanged(listener`listener, listener`mixedPort, listener`wantSystemProxy) && unchanged(listener.listener.free)
      ensures Steady()
      ensures w.spawnAccepted ==>
        && process.Spawning? && unchanged(this`state, listener, listener.proxy, listener.proxy.desktop, listener.listener)
        && trace.effects == old(trace.effects) + [EngineLaunched(port)]
      ensures !w.spawnAccepted ==>
        && process.NotRunning? && state.Failed? && listener.HasFailed(NotSpawned)
        && trace.effects == old(trace.effects)
           + Failing(NotSpawned, old(listener.proxy.applied), old(listener.coreStatus.Running?))
      decreases if listener.listener.reconnect then 1 else 0, 6
    {
      hide InHand, ObserveAll;
      if w.spawnAccepted {
        process := Spawning;
        trace.Emit(EngineLaunched(port));
      } else {
        HandleStartError(w);
      }
    }

    /** The wait for the child to end; a start that has still to fail fails in it. */
    method WaitForFinished(last: string, w: World)
      requires Steady() && state.Stopping? && process != NotRunning
      requires !listener.proxy.applied && !listener.coreStatus.Running?
      modifies listener.Parts(), listener.listener`status, listener.listener`reconnect, listener.listener`notice
      modifies listener.listener.free`pending
      ensures Steady() && process.NotRunning? && !listener.proxy.applied
      ensures unchanged(this`listener, this`proxyPort, this`attempts)
      ensures unchanged(listener`listener, listener`mixedPort, listener`wantSystemProxy) && unchanged(listener.listener.free)
      ensures old(process.Spawning?) && w.spawnFailsInWait ==>
        && lastError == Shown(NotSpawned) && listener.HasFailed(NotSpawned) && polling == old(polling)
        && trace.effects == old(trace.effects) + [EngineLost] + Failing(NotSpawned, false, false)
      ensures !(old(process.Spawning?) && w.spawnFailsInWait) ==>
        && unchanged(this`lastError, listener, listener.proxy, listener.proxy.desktop, listener.listener) && !polling
        && trace.effects == old(trace.effects) + [EngineStopped]
      decreases if listener.listener.reconnect then 1 else 0, 6
    {
      hide InHand, ObserveAll;
      var fails := process.Spawning? && w.spawnFailsInWait;
      process := NotRunning;
      if fails {
        trace.Emit(EngineLost);
        HandleStartError(w);
      } else {
        trace.Emit(EngineStopped);
        HandleFinished(false, 0, last, w);
      }
    }

    method Stop(w: World)
      requires Steady() && !listener.proxy.applied && !listener.coreStatus.Running?
      modifies listener.Parts(), listener.listener`status, listener.listener`reconnect, listener.listener`notice
      modifies listener.listener.free`pending
      ensures Steady() && state.Stopped? && process.NotRunning? && !polling && !listener.proxy.applied
      ensures unchanged(this`listener, this`proxyPort, this`attempts)
      ensures unchanged(listener`listener, listener`mixedPort, listener`wantSystemProxy) && unchanged(listener.listener.free)
      ensures old(process.Spawning?) && w.spawnFailsInWait ==>
        && lastError == Shown(NotSpawned) && listener.HasFailed(NotSpawned)
        && trace.effects == old(trace.effects) + [EngineLost] + Failing(NotSpawned, false, false)
      ensures !(old(process.Spawning?) && w.spawnFailsInWait) ==>
        && unchanged(this`lastError, listener, listener.proxy, listener.proxy.desktop, listener.listener)
        && trace.effects == old(trace.effects) + if old(process.NotRunning?) then [] else [EngineStopped]
      decreases if listener.listener.reconnect then 1 else 0, 7
    {
      hide InHand, ObserveAll;
      polling := false;
      if process.NotRunning? {
        state := EngineState.Stopped;
        return;
      }
      state := EngineState.Stopping;
      WaitForFinished(w.lastWords, w);
      state := EngineState.Stopped;
    }

    /** The readiness timer, which is silent unless it runs. */
    method Ticked(open: bool, w: World)
      requires Wired() && listener.listener.Joint()
      modifies listener.Parts(), listener.listener`status, listener.listener`reconnect, listener.listener`notice
      modifies listener.listener.free`pending
      ensures unchanged(this`listener) && listener != null && unchanged(listener`listener)
      ensures listener.listener != null && listener.listener.Joint()
      ensures var out := Step(old(listener.listener.Now()), Tick(open), old(listener.listener.Facts(w)));
              listener.listener.Now() == out.next && trace.effects == old(trace.effects) + out.effects
    {
      hide InHand, ObserveAll, Redirects, Configured, Poll;
      if polling {
        PollReadiness(open, w);
      }
    }

    /** A child that ended cannot become ready; its end is reported elsewhere. */
    predicate IsDead()
      reads this
    {
      state.Starting? && process.NotRunning?
    }

    method PollReadiness(open: bool, w: World)
      requires Wired() && (IsDead() || listener.listener.Joint())
      modifies listener.Parts(), listener.listener`status, listener.listener`reconnect, listener.listener`notice
      modifies listener.listener.free`pending
      ensures unchanged(this`listener) && listener != null && unchanged(listener`listener) && listener.listener != null
      ensures old(IsDead()) ==>
        && !polling
        && unchanged(this`state, this`process, this`attempts, this`tail, this`lastError, this`output, listener, listener.listener, trace)
      ensures !old(IsDead()) ==>
        && listener.listener.Joint()
        && var out := Step(old(listener.listener.Now()), Tick(open), old(listener.listener.Facts(w)));
           listener.listener.Now() == out.next && trace.effects == old(trace.effects) + out.effects
    {
      hide InHand, ObserveAll, Redirects, Configured, Trim, Tail, Step, Failing, Undo;
      if !IsDead() {
        TickInSteps(trace.effects, listener.listener.Now(), open, listener.listener.Facts(w));
      }
      if state != EngineState.Starting {
        polling := false;
        return;
      }
      if process.NotRunning? {
        polling := false;
        return;
      }
      if open {
        BecomeReady(w);
        return;
      }
      attempts := attempts + 1;
      if attempts >= MAX_ATTEMPTS {
        TimeOut(w);
      }
    }

    /** The port is open. */
    method BecomeReady(w: World)
      requires Steady() && !listener.proxy.applied
      modifies this`polling, this`state, listener`coreStatus, listener.proxy, listener.proxy.desktop, trace
      modifies listener.listener`status, listener.listener`notice
      ensures Steady() && state.Running? && listener.coreStatus.Running?
      ensures listener.listener.status.Connected? && listener.listener.notice.Clear?
      ensures var redirected := listener.wantSystemProxy
                && Redirects(listener.proxy.backend, listener.mixedPort, w.fileOpens, w.commands);
        && listener.proxy.applied == redirected
        && trace.effects == old(trace.effects) + [EngineReady]
           + (if redirected then [Redirected(listener.mixedPort)] else []) + [ReportedConnected]
    {
      hide InHand, ObserveAll, Redirects;
      polling := false;
      state := EngineState.Running;
      trace.Emit(EngineReady);
      listener.HandleEngineReady(w);
    }

    /** The last attempt was in vain; the message is composed before the engine is ended. */
    method TimeOut(w: World)
      requires Steady() && process != NotRunning && listener.coreStatus.Starting? && !listener.proxy.applied
      modifies listener.Parts(), listener.listener`status, listener.listener`reconnect, listener.listener`notice
      modifies listener.listener.free`pending
      ensures unchanged(this`listener) && Steady() && unchanged(listener`listener)
      ensures unchanged(listener.listener.free)
      ensures state.Failed? && process.NotRunning? && !listener.proxy.applied && listener.coreStatus.Error?
      ensures listener.listener.status.Disconnected? && !listener.listener.reconnect
      ensures trace.effects == old(trace.effects)
        + if old(process.Spawning?) && w.spawnFailsInWait then
            [EngineLost] + Failing(NotSpawned, false, false) + Failing(NotSpawned, false, false)
          else
            [EngineStopped] + Failing(NeverReady(old(proxyPort), Trim(Tail(old(output)))), false, false)
    {
      hide InHand, ObserveAll, Trim, Right, Failing, ConnectionModel.Joint, ConnectionModel.Now;
      polling := false;
      lastError := Shown(NeverReady(proxyPort, Trim(tail)));
      Stop(w);
      state := Failed;
      SignalFailed(w);
    }

    /** QProcess: the child runs. */
    method Started(ghost w: World)
      requires Wired() && listener.listener.Joint()
      modifies this`process
      ensures unchanged(this`listener) && listener != null && unchanged(listener`listener)
      ensures listener.listener != null && listener.listener.Joint()
      ensures var out := Step(old(listener.listener.Now()), ChildSpawned, old(listener.listener.Facts(w)));
              listener.listener.Now() == out.next && trace.effects == old(trace.effects) + out.effects
    {
      hide InHand, ObserveAll, Redirects, Configured;
      if process.Spawning? {
        process := Alive;
      }
    }

    /** QProcess: the child wrote something. */
    method Wrote(chunk: string, ghost w: World)
      requires Wired() && listener.listener.Joint()
      modifies this`tail, this`output
      ensures unchanged(this`listener) && listener != null && unchanged(listener`listener)
      ensures listener.listener != null && listener.listener.Joint()
      ensures var out := Step(old(listener.listener.Now()), ChildOutput(chunk), old(listener.listener.Facts(w)));
              listener.listener.Now() == out.next && trace.effects == old(trace.effects) + out.effects
    {
      hide InHand, ObserveAll, Redirects, Configured, Right;
      if process != NotRunning {
        DrainOutput(chunk);
      }
    }

    /** QProcess: the child ended by itself. */
    method Ended(crashed: bool, code: int, last: string, w: World)
      requires Wired() && listener.listener.Joint()
      modifies listener.Parts(), listener.listener`status, listener.listener`reconnect, listener.listener`notice
      modifies listener.listener.free`pending
      ensures unchanged(this`listener) && listener != null && unchanged(listener`listener)
      ensures listener.listener != null && listener.listener.Joint()
      ensures var out := Step(old(listener.listener.Now()), ChildExit(crashed, code, last), old(listener.listener.Facts(w)));
              listener.listener.Now() == out.next && trace.effects == old(trace.effects) + out.effects
    {
      hide InHand, ObserveAll, Redirects, Configured, Right, Trim, Lose, Failing;
      if process != NotRunning {
        ghost var tail := Trim(Tail(output + last));
        LoseInSteps(trace.effects, listener.listener.Now(), if crashed then Crashed(tail) else Exited(code, tail));
        process := NotRunning;
        trace.Emit(EngineLost);
        HandleFinished(crashed, code, last, w);
      }
    }

    /** QProcess: the child could not be started after all. */
    method StartFailed(w: World)
      requires Wired() && listener.listener.Joint()
      modifies listener.Parts(), listener.listener`status, listener.listener`reconnect, listener.listener`notice
      modifies listener.listener.free`pending
      ensures unchanged(this`listener) && listener != null && unchanged(listener`listener)
      ensures listener.listener != null && listener.listener.Joint()
      ensures var out := Step(old(listener.listener.Now()), ChildNotSpawned, old(listener.listener.Facts(w)));
              listener.listener.Now() == out.next && trace.effects == old(trace.effects) + out.effects
    {
      hide InHand, ObserveAll, Redirects, Configured, Lose, Failing;
      if process.Spawning? {
        LoseInSteps(trace.effects, listener.listener.Now(), NotSpawned);
        process := NotRunning;
        trace.Emit(EngineLost);
        HandleStartError(w);
      }
    }
  }

  /** Prepares the configuration, drives the engine and owns the desktop redirect. */
  class VpnCore {
    const trace: Trace
    const core: CoreProcess
    const proxy: Proxy.SystemProxy
    ghost const user: Desk.Settings
    var listener: ConnectionModel?
    var coreStatus: CoreStatus
    var mixedPort: nat
    var wantSystemProxy: bool
    var lastError: Notice

    constructor (trace: Trace, core: CoreProcess, proxy: Proxy.SystemProxy, ghost user: Desk.Settings)
      requires core.listener == null
      modifies core`listener
      ensures this.trace == trace && this.core == core && this.proxy == proxy && this.user == user
      ensures listener == null && core.listener == this && coreStatus.Idle? && mixedPort == 0
    {
      this.trace, this.core, this.proxy, this.user := trace, core, proxy, user;
      listener, coreStatus, mixedPort, wantSystemProxy, lastError := null, CoreStatus.Idle, 0, true, Clear;
      new;
      core.listener := this;
    }

    /** This layer and all below it. */
    ghost function Parts(): set<object> {
      {this, core, proxy, proxy.desktop, trace}
    }

    ghost function Above(): set<object>
      reads this
    {
      {this, core} + if listener == null then {} else {listener, listener.vpn, listener.vpn.core, listener.free}
    }

    ghost predicate Wired()
      reads Above()
    {
      listener != null && listener.vpn == this && listener.Wired()
    }

    ghost predicate Steady()
      reads *
    {
      Wired() && listener.Steady()
    }

    /** SystemProxy::revert, announced when there is something to put back. */
    method UndoRedirect()
      requires Steady()
      modifies proxy, proxy.desktop, trace
      ensures Steady() && !proxy.applied && proxy.desktop.file.Absent?
      ensures trace.effects == old(trace.effects) + Undo(old(proxy.applied))
    {
      hide InHand, ObserveAll;
      ghost var was := proxy.applied;
      RevertProxy(proxy, user, mixedPort);
      if was {
        trace.Emit(Restored);
      }
    }

    method Fail(why: Failure)
      requires Steady()
      modifies this`lastError, this`coreStatus, listener`status, listener`reconnect, listener`notice, trace
      ensures Steady() && coreStatus.Error? && lastError == Shown(why)
      ensures listener.status.Disconnected? && !listener.reconnect && listener.notice == Shown(why)
      ensures trace.effects == old(trace.effects) + [ReportedError(why)]
    {
      hide InHand;
      lastError := Shown(why);
      coreStatus := CoreStatus.Error;
      listener.OnVpnError(why);
    }

    /** An engine has failed: the desktop must not be left pointing at it. */
    method HandleEngineFailure(why: Failure, w: World)
      requires Steady()
      modifies Parts(), listener`status, listener`reconnect, listener`notice, listener.free`pending
      ensures unchanged(core, this`listener, this`mixedPort, this`wantSystemProxy) && HasFailed(why)
      ensures unchanged(listener.free)
      ensures trace.effects == old(trace.effects) + Reporting(why, old(proxy.applied), old(coreStatus.Running?))
      decreases if listener.reconnect then 1 else 0, 3
    {
      hide InHand, ObserveAll;
      UndoRedirect();
      var wasConnected := coreStatus.Running?;
      Fail(why);
      if wasConnected {
        listener.OnVpnDisconnected(w);
      }
    }

    ghost predicate IsBusy()
      reads this
    {
      coreStatus.Running? || coreStatus.Starting? || coreStatus.Downloading?
    }

    method ConnectVpnWithConfig(config: Config, w: World)
      requires Steady()
      requires !IsBusy() ==> listener.Rests() && listener.status.Connecting? && !listener.reconnect
      modifies Parts(), listener`status, listener`reconnect, listener`notice, listener.free`pending
      ensures unchanged(this`listener) && Steady()
      ensures old(IsBusy()) ==>
        && unchanged(core, proxy, proxy.desktop, this`coreStatus, this`mixedPort, this`wantSystemProxy, listener.free)
        && lastError == Shown(InProgress) && listener.status.Disconnected? && !listener.reconnect
        && trace.effects == old(trace.effects) + [ReportedError(InProgress)]
      ensures !old(IsBusy()) ==>
        && listener.Joint()
        && var out := Launch(config, old(listener.Facts(w)));
           listener.Now() == out.next && trace.effects == old(trace.effects) + out.effects
      decreases if listener.reconnect then 1 else 0, 9
    {
      hide InHand, ObserveAll, Redirects, Configured;
      if coreStatus.Running? || coreStatus.Starting? || coreStatus.Downloading? {
        lastError := Shown(InProgress);
        listener.OnVpnError(InProgress);
        return;
      }
      if config.Blank? {
        Fail(EmptyConfig);
        return;
      }
      LaunchEngine(config, w);
    }

    method LaunchEngine(config: Config, w: World)
      requires Steady() && listener.Rests() && listener.status.Connecting? && !listener.reconnect && !config.Blank?
      modifies Parts(), listener`status, listener`reconnect, listener`notice, listener.free`pending
      ensures unchanged(this`listener) && listener.Joint()
      ensures var out := Launch(config, old(listener.Facts(w)));
              listener.Now() == out.next && trace.effects == old(trace.effects) + out.effects
      decreases 0, 8
    {
      hide InHand, ObserveAll, Redirects, Configured, Spawn, ConnectionModel.Joint, ConnectionModel.Now;
      coreStatus := CoreStatus.Starting;
      if config.Unusable? {
        Fail(UnusableConfig);
        listener.IdleIsJoint();
        return;
      }
      if !w.directoryMade {
        Fail(NoDirectory);
        listener.IdleIsJoint();
        return;
      }
      TakeSettings(w);
      if !w.filesWritten {
        Fail(NotWritten);
        listener.IdleIsJoint();
        return;
      }
      core.Start(mixedPort, w);
    }

    /** Port and proxy wish as set at the moment of the launch; nothing is redirected at the port they replace. */
    method TakeSettings(w: World)
      requires Steady() && !proxy.applied
      modifies this`wantSystemProxy, this`mixedPort
      ensures Steady() && wantSystemProxy == w.systemProxy && mixedPort == w.mixedPort
    {
      hide InHand, ObserveAll;
      AnyPort(proxy, user, mixedPort, w.mixedPort);
      wantSystemProxy := w.systemProxy;
      mixedPort := w.mixedPort;
    }

    /** The proxy is applied only once the engine is listening. */
    method HandleEngineReady(w: World)
      requires Steady() && !proxy.applied
      modifies this`coreStatus, proxy, proxy.desktop, listener`status, listener`notice, trace
      ensures Steady() && coreStatus.Running? && listener.status.Connected? && listener.notice.Clear?
      ensures var redirected := wantSystemProxy && old(Redirects(proxy.backend, mixedPort, w.fileOpens, w.commands));
        && proxy.applied == redirected
        && trace.effects == old(trace.effects) + (if redirected then [Redirected(mixedPort)] else []) + [ReportedConnected]
    {
      hide InHand, ObserveAll, Redirects, Desk.RoutesTo;
      if wantSystemProxy {
        var applied := ApplyProxy(proxy, user, mixedPort, w.fileOpens, w.commands);
        if applied {
          trace.Emit(Redirected(mixedPort));
        }
      }
      coreStatus := CoreStatus.Running;
      listener.OnVpnConnected();
    }

    /** The connection as it stands, for one that is to be ended. */
    ghost function Standing(): (p: Phase)
      reads this, core, proxy
      ensures p.Connected?
    {
      Phase.Connected(core.process.Alive?, core.output, mixedPort, proxy.applied)
    }

    method DisconnectVpn(w: World)
      requires Steady()
      requires coreStatus.Running? || coreStatus.Starting? ==>
        core.process != NotRunning && listener.free.pending == []
      modifies Parts(), listener`status, listener`reconnect, listener`notice, listener.free`pending
      ensures unchanged(this`listener)
      ensures !old(coreStatus.Running? || coreStatus.Starting?) ==>
        unchanged(this, core, proxy, proxy.desktop, listener, listener.free, trace)
      ensures old(coreStatus.Running? || coreStatus.Starting?) ==>
        && listener.Joint()
        && var out := Disconnect(old(Standing()), old(listener.Facts(w)), old(listener.reconnect));
           listener.Now() == out.next && trace.effects == old(trace.effects) + out.effects
      decreases if listener.reconnect then 1 else 0, 9
    {
      hide InHand, ObserveAll, Redirects, Configured, ConnectionModel.Joint, ConnectionModel.Now, Connect, Disconnect, Undo, Failing;
      if coreStatus != CoreStatus.Running && coreStatus != CoreStatus.Starting {
        return;
      }
      coreStatus := CoreStatus.Stopping;
      Teardown(w);
      DisconnectInSteps(old(trace.effects), old(Standing()), old(listener.Facts(w)), old(listener.reconnect));
      ReportStopped(w);
    }

    /** Everything has ended; the report of it may start the next attempt. */
    method ReportStopped(w: World)
      requires Steady() && core.Rests() && listener.free.pending == [] && !proxy.applied
      modifies Parts(), listener`status, listener`reconnect, listener`notice, listener.free`pending
      ensures unchanged(this`listener) && listener.Joint()
      ensures var next := if old(listener.reconnect) then Connect(old(listener.Facts(w))) else Outcome(Phase.Idle, []);
              listener.Now() == next.next && trace.effects == old(trace.effects) + [ReportedDisconnected] + next.effects
      decreases if listener.reconnect then 1 else 0, 3
    {
      hide InHand, ObserveAll, Redirects, Configured, ConnectionModel.Joint, ConnectionModel.Now, Connect;
      coreStatus := CoreStatus.Idle;
      ghost var again := listener.reconnect;
      listener.OnVpnDisconnected(w);
      if !again {
        listener.IdleIsJoint();
      }
    }

    /** The desktop is put back before the engine goes away. */
    method Teardown(w: World)
      requires Steady() && !coreStatus.Running?
      modifies Parts(), listener`status, listener`reconnect, listener`notice, listener.free`pending
      ensures Steady() && core.state.Stopped? && core.process.NotRunning? && !proxy.applied
      ensures unchanged(this`listener, this`mixedPort, this`wantSystemProxy) && unchanged(listener.free)
      ensures old(core.process.Spawning?) && w.spawnFailsInWait ==>
        && HasFailed(NotSpawned)
        && trace.effects == old(trace.effects) + Undo(old(proxy.applied)) + [EngineLost] + Failing(NotSpawned, false, false)
      ensures !(old(core.process.Spawning?) && w.spawnFailsInWait) ==>
        && unchanged(listener, this)
        && trace.effects == old(trace.effects) + Undo(old(proxy.applied))
           + if old(core.process.NotRunning?) then [] else [EngineStopped]
      decreases if listener.reconnect then 1 else 0, 8
    {
      hide InHand, ObserveAll;
      UndoRedirect();
      core.Stop(w);
    }

    ghost predicate HasFailed(why: Failure)
      reads *
    {
      && Steady() && !proxy.applied && coreStatus.Error? && lastError == Shown(why)
      && listener.status.Disconnected? && !listener.reconnect && listener.notice == Shown(why)
    }
  }

  /** Looks the free nodes up, one endpoint after the other. */
  class FreeProfiles {
    const trace: Trace
    var listener: ConnectionModel?
    var urls: seq<string>
    /** Requests sent and not answered. */
    var pending: seq<Fetch>

    constructor (trace: Trace, urls: seq<string>)
      ensures this.trace == trace && this.urls == urls && listener == null && pending == []
    {
      this.trace, this.urls, listener, pending := trace, urls, null, [];
    }

    ghost predicate Steady()
      reads *
    {
      listener != null && listener.free == this && listener.Steady()
    }

    /** Sends a request to the index-th address; without one every address has failed. */
    method TryGet(f: Fetch)
      requires Steady() && pending == []
      modifies this`pending, listener`status, listener`reconnect, listener`notice, trace
      ensures Steady()
      ensures f.Endpoint? && f.tried >= f.urls ==>
        && pending == []
        && (old(listener.status) == Connecting ==>
              && listener.status.Disconnected? && !listener.reconnect
              && trace.effects == old(trace.effects) + [ReportedError(FetchFailed)])
      ensures f.Sublink? || f.tried < f.urls ==>
        && pending == [f] && unchanged(listener) && trace.effects == old(trace.effects) + [Requested]
    {
      hide InHand, ObserveAll;
      if f.Endpoint? && f.tried >= f.urls {
        listener.OnFetchError(FetchFailed);
        return;
      }
      pending := pending + [f];
      trace.Emit(Requested);
    }

    method Fetch(w: World)
      requires Steady() && pending == [] && listener.status == Connecting
      modifies this`pending, listener`status, listener`reconnect, listener`notice, trace
      ensures Steady()
      ensures var n := |Configured(urls, w.isReserved)|;
        if n == 0 then
          && listener.status.Disconnected? && !listener.reconnect && pending == []
          && trace.effects == old(trace.effects) + [ReportedError(NoEndpoints)]
        else
          && unchanged(listener) && pending == [Endpoint(0, n)] && trace.effects == old(trace.effects) + [Requested]
    {
      hide InHand, ObserveAll;
      var usable := ConfiguredEndpoints(urls, w.isReserved);
      if usable == [] {
        listener.OnFetchError(NoEndpoints);
        return;
      }
      TryGet(Endpoint(0, |usable|));
    }

    /** A reply arrives for a request that was sent. */
    method Answered(reply: Reply, w: World)
      requires listener != null && listener.free == this && listener.Joint()
      modifies this`pending, listener`status, listener`reconnect, listener`notice, listener.vpn.Parts()
      ensures unchanged(this`listener) && listener.Joint()
      ensures var out := Step(old(listener.Now()), HttpReply(reply), old(listener.Facts(w)));
              listener.Now() == out.next && trace.effects == old(trace.effects) + out.effects
    {
      hide InHand, ObserveAll, Redirects, Configured, Receive;
      if pending != [] {
        HandleReply(reply, w);
      }
    }

    /** The answer to the oldest request. */
    method HandleReply(reply: Reply, w: World)
      requires listener != null && listener.free == this && listener.Joint() && pending != []
      modifies this`pending, listener`status, listener`reconnect, listener`notice, listener.vpn.Parts()
      ensures unchanged(this`listener) && listener.Joint()
      ensures var out := Step(old(listener.Now()), HttpReply(reply), old(listener.Facts(w)));
              listener.Now() == out.next && trace.effects == old(trace.effects) + out.effects
    {
      hide InHand, ObserveAll, Redirects, Configured, Launch;
      var request := pending[0];
      pending := pending[1..];
      assert pending == [];
      if reply.NoReply? {
        // The subscription is a list of one address, which is now used up.
        TryGet(if request.Endpoint? then Endpoint(request.tried + 1, request.urls) else Endpoint(1, 1));
        return;
      }
      if request.Endpoint? && reply.Index? {
        TryGet(Sublink);
        return;
      }
      listener.OnFetched(if reply.Direct? then reply.config else Unusable, w);
    }
  }

  /** What the user sees: one button, one status, one banner. */
  class ConnectionModel {
    const trace: Trace
    const vpn: VpnCore
    const free: FreeProfiles
    var status: ModelStatus
    var reconnect: bool
    var notice: Notice

    ghost predicate Wired()
      reads vpn, vpn.core, free
    {
      && vpn.listener == this && free.listener == this && vpn.core.listener == vpn
      && vpn.trace == trace && free.trace == trace && vpn.core.trace == trace
    }

    /** What holds whenever one layer calls another: the effects announced so far are what is really the case. */
    ghost predicate Steady()
      reads this, vpn, vpn.core, free, vpn.proxy, vpn.proxy.desktop, trace
    {
      && Wired()
      && InHand(vpn.proxy, vpn.user, vpn.mixedPort)
      && vpn.core.tail == Tail(vpn.core.output)
      && trace.Seen().banner == notice
      && trace.Seen().redirected == vpn.proxy.applied
      && trace.Seen().alive == (vpn.core.process != NotRunning)
    }

    /** No attempt is under way and no engine runs. */
    ghost predicate Rests()
      reads vpn, vpn.core, free, vpn.proxy
    {
      && (vpn.coreStatus.Idle? || vpn.coreStatus.Error?) && vpn.core.Rests()
      && free.pending == [] && !vpn.proxy.applied
    }

    /** The surroundings an event meets. */
    ghost function Facts(w: World): (s: Surroundings)
      reads vpn, free
      ensures s.profile == w.profile && s.endpoints == |Configured(free.urls, w.isReserved)|
      ensures s.directoryMade == w.directoryMade && s.filesWritten == w.filesWritten
      ensures s.binaryFound == w.binaryFound && s.spawnAccepted == w.spawnAccepted
      ensures s.redirects == Redirects(vpn.proxy.backend, vpn.mixedPort, w.fileOpens, w.commands)
      ensures s.port == w.mixedPort && s.wantsProxy == w.systemProxy && s.spawnFailsInWait == w.spawnFailsInWait
    {
      Surroundings(w.profile, |Configured(free.urls, w.isReserved)|,
        w.directoryMade, w.filesWritten, w.binaryFound, w.spawnAccepted, w.mixedPort, w.systemProxy,
        Redirects(vpn.proxy.backend, vpn.mixedPort, w.fileOpens, w.commands), w.spawnFailsInWait)
    }

    /** Where the session is, read off the three layers. */
    ghost function Now(): Phase
      reads this, vpn, vpn.core, free, vpn.proxy
    {
      var core := vpn.core;
      if status.Connecting? && |free.pending| == 1 then Fetching(free.pending[0])
      else if core.state.Starting? then
        Phase.Starting(core.attempts, core.process.Alive?, core.output, vpn.mixedPort, vpn.wantSystemProxy)
      else if core.state.Running? then
        Phase.Connected(core.process.Alive?, core.output, vpn.mixedPort, vpn.proxy.applied)
      else Phase.Idle
    }

    /** How the states of the layers relate between any two events. */
    ghost predicate Joint()
      reads this, vpn, vpn.core, free, vpn.proxy, vpn.proxy.desktop, trace
    {
      var core := vpn.core;
      && Steady() && !reconnect
      && match status
         case Disconnected => Rests()
         case Connecting =>
           && !vpn.proxy.applied
           && (   (|free.pending| == 1 && (vpn.coreStatus.Idle? || vpn.coreStatus.Error?) && core.Rests())
               || (free.pending == [] && vpn.coreStatus.Starting? && core.state.Starting? && core.process != NotRunning
                   && core.polling && core.attempts < MAX_ATTEMPTS && core.proxyPort == vpn.mixedPort))
         case Connected =>
           && free.pending == [] && vpn.coreStatus.Running? && core.state.Running? && core.process != NotRunning
           && notice.Clear?
         case Disconnecting => false
    }

    /** What the joint invariant says of each layer. */
    lemma {:induction false} LayersAgree()
      requires Joint()
      ensures status.Connected? <==> vpn.coreStatus.Running?
      ensures vpn.coreStatus.Running? <==> vpn.core.state.Running?
      ensures status.Connecting? <==> (|free.pending| == 1) != vpn.coreStatus.Starting?
      ensures vpn.coreStatus.Starting? <==> vpn.core.state.Starting?
      ensures |free.pending| <= 1 && (free.pending != [] || vpn.coreStatus.Starting? ==> status.Connecting?)
      ensures !status.Disconnecting? && !vpn.coreStatus.Stopping? && !vpn.coreStatus.Downloading? && !vpn.core.state.Stopping?
      ensures vpn.core.process.NotRunning? <==> !vpn.core.state.Starting? && !vpn.core.state.Running?
      ensures !reconnect && (status.Connected? ==> notice.Clear?)
      ensures vpn.proxy.applied ==>
        && status.Connected? && vpn.core.process != NotRunning
        && Desk.RoutesTo(vpn.proxy.backend, vpn.proxy.desktop.live, "127.0.0.1", vpn.mixedPort)
      ensures trace.Seen().redirected == vpn.proxy.applied
      ensures trace.Seen().alive == (vpn.core.process != NotRunning)
      ensures !vpn.proxy.applied ==> Desk.Same(vpn.proxy.desktop.live, vpn.user)
    {
    }

    /** What the session shows is what the layers hold. */
    lemma {:induction false} NowShows()
      requires Joint()
      ensures Now().Idle? <==> status.Disconnected?
      ensures Now().Fetching? <==> status.Connecting? && |free.pending| == 1
      ensures Now().Starting? <==> status.Connecting? && vpn.core.state.Starting?
      ensures Now().Connected? <==> status.Connected?
      ensures Now().Fetching? ==> free.pending == [Now().fetch]
      ensures Now().Starting? ==> Now().ticks == vpn.core.attempts && Now().wantsProxy == vpn.wantSystemProxy
      ensures Now().Connected? ==> Now().redirected == vpn.proxy.applied
      ensures Now().Starting? || Now().Connected? ==>
        && Now().port == vpn.mixedPort && Now().output == vpn.core.output && (Now().spawned <==> vpn.core.process.Alive?)
    {
    }

    lemma {:induction false} JointIsSteady()
      requires Joint()
      ensures Steady() && vpn.Wired() && vpn.core.Wired() && free.listener == this
      ensures vpn.trace == trace && free.trace == trace && vpn.core.trace == trace
      ensures InHand(vpn.proxy, vpn.user, vpn.mixedPort)
    {
      hide InHand;
    }

    lemma {:induction false} IdleIsJoint()
      requires Steady() && Rests() && status.Disconnected? && !reconnect
      ensures Joint() && Now().Idle?
    {
      hide InHand;
    }

    lemma {:induction false} StartingIsJoint()
      requires Steady() && status.Connecting? && !reconnect && !vpn.proxy.applied && free.pending == []
      requires vpn.coreStatus.Starting? && vpn.core.state.Starting? && vpn.core.process != NotRunning
      requires vpn.core.polling && vpn.core.attempts < MAX_ATTEMPTS && vpn.core.proxyPort == vpn.mixedPort
      ensures Joint()
      ensures Now() == Phase.Starting(vpn.core.attempts, vpn.core.process.Alive?, vpn.core.output, vpn.mixedPort, vpn.wantSystemProxy)
    {
      hide InHand;
    }

    method OnVpnError(why: Failure)
      requires Steady()
      modifies this`status, this`reconnect, this`notice, trace
      ensures Steady() && status.Disconnected? && !reconnect && notice == Shown(why)
      ensures trace.effects == old(trace.effects) + [ReportedError(why)]
    {
      hide InHand, ObserveAll;
      trace.Emit(ReportedError(why));
      reconnect := false;
      status := Disconnected;
      notice := Shown(why);
    }

    method OnVpnConnected()
      requires Steady()
      modifies this`status, this`notice, trace
      ensures Steady() && status.Connected? && notice.Clear?
      ensures trace.effects == old(trace.effects) + [ReportedConnected]
    {
      hide InHand, ObserveAll;
      trace.Emit(ReportedConnected);
      notice := Clear;
      status := ModelStatus.Connected;
    }

    /** A connection has ended; a retry connects again at once. */
    method OnVpnDisconnected(w: World)
      requires Steady() && (reconnect ==> Rests())
      modifies this`status, this`reconnect, this`notice, free`pending, vpn.Parts()
      ensures Steady() && !reconnect
      ensures !old(reconnect) ==>
        && status.Disconnected? && notice == old(notice)
        && unchanged(vpn, vpn.core, vpn.proxy, vpn.proxy.desktop, free)
        && trace.effects == old(trace.effects) + [ReportedDisconnected]
      ensures old(reconnect) ==>
        && Joint() && Now() == Connect(old(Facts(w))).next
        && trace.effects == old(trace.effects) + [ReportedDisconnected] + Connect(old(Facts(w))).effects
      decreases if reconnect then 1 else 0, 2
    {
      hide InHand, ObserveAll;
      trace.Emit(ReportedDisconnected);
      status := Disconnected;
      if reconnect {
        reconnect := false;
        status := Connecting;
        StartConnect(w);
      }
    }

    method StartConnect(w: World)
      requires Steady() && Rests() && !reconnect && status.Connecting?
      modifies this`status, this`reconnect, this`notice, free`pending, vpn.Parts()
      ensures Joint() && Now() == Connect(old(Facts(w))).next
      ensures trace.effects == old(trace.effects) + Connect(old(Facts(w))).effects
      decreases 0, 10
    {
      hide InHand, ObserveAll, Redirects;
      if !w.profile.Blank? {
        vpn.ConnectVpnWithConfig(w.profile, w);
        return;
      }
      ConnectFree(w);
    }

    method ConnectFree(w: World)
      requires Steady() && Rests() && !reconnect && status.Connecting?
      modifies this`status, this`reconnect, this`notice, free`pending, trace
      ensures Joint()
      ensures var s := old(Facts(w)); var n := s.endpoints;
              var out := if n == 0 then Refuse(NoEndpoints) else Outcome(Fetching(Endpoint(0, n)), [Requested]);
              Now() == out.next && trace.effects == old(trace.effects) + out.effects
    {
      hide InHand, ObserveAll, Redirects, Configured;
      free.Fetch(w);
    }

    /** fetch's error callback. */
    method OnFetchError(why: Failure)
      requires Steady()
      modifies this`status, this`reconnect, this`notice, trace
      ensures Steady()
      ensures old(status) == Connecting ==>
        status.Disconnected? && !reconnect && trace.effects == old(trace.effects) + [ReportedError(why)]
      ensures old(status) != Connecting ==> unchanged(this, trace)
    {
      hide InHand, ObserveAll;
      if status != Connecting {
        return;
      }
      OnVpnError(why);
    }

    /** fetch's success callback. */
    method OnFetched(config: Config, w: World)
      requires Steady()
      requires status == Connecting ==> Rests() && !reconnect
      modifies this`status, this`reconnect, this`notice, free`pending, vpn.Parts()
      ensures Steady()
      ensures old(status) != Connecting ==> unchanged(this, vpn, vpn.core, free, vpn.proxy, vpn.proxy.desktop, trace)
      ensures old(status) == Connecting ==>
        && Joint()
        && var out := Launch(config, old(Facts(w)));
           Now() == out.next && trace.effects == old(trace.effects) + out.effects
    {
      hide InHand, ObserveAll, Redirects, Configured, Launch;
      if status != Connecting {
        return;
      }
      vpn.ConnectVpnWithConfig(config, w);
    }

    method ToggleConnection(w: World)
      requires Joint()
      modifies this`status, this`reconnect, this`notice, free`pending, vpn.Parts()
      ensures Joint()
      ensures var out := Step(old(Now()), Toggle, old(Facts(w)));
              Now() == out.next && trace.effects == old(trace.effects) + out.effects
      ensures old(status.Connected?) ==> status.Disconnected? && vpn.core.process.NotRunning? && !vpn.proxy.applied
      ensures old(status.Connecting?) ==>
        status.Connecting? && unchanged(vpn, vpn.core, vpn.proxy, vpn.proxy.desktop, free, trace)
    {
      hide InHand, ObserveAll, Redirects, Configured, Connect, Disconnect;
      if status.Connected? {
        EndIsIdle(Now(), Facts(w));
      }
      match status
      case Disconnected =>
        status := Connecting;
        StartConnect(w);
      case Connected =>
        status := Disconnecting;
        vpn.DisconnectVpn(w);
      case Connecting =>
      case Disconnecting =>
    }

    method RetryConnection(w: World)
      requires Joint()
      modifies this`status, this`reconnect, this`notice, free`pending, vpn.Parts()
      ensures Joint()
      ensures var out := Step(old(Now()), Retry, old(Facts(w)));
              Now() == out.next && trace.effects == old(trace.effects) + out.effects
    {
      hide InHand, ObserveAll, Redirects, Configured, Connect, Disconnect;
      DismissSessionNotice();
      match status
      case Connected =>
        reconnect := true;
        status := Disconnecting;
        vpn.DisconnectVpn(w);
      case Disconnected =>
        status := Connecting;
        StartConnect(w);
      case Connecting =>
      case Disconnecting =>
    }

    method AutoConnectAtLaunch(w: World)
      requires Joint()
      modifies this`status, this`reconnect, this`notice, free`pending, vpn.Parts()
      ensures Joint()
      ensures var out := Step(old(Now()), AutoConnect, old(Facts(w)));
              Now() == out.next && trace.effects == old(trace.effects) + out.effects
    {
      hide InHand, ObserveAll, Redirects, Configured, Connect, Disconnect;
      if status != Disconnected {
        return;
      }
      status := Connecting;
      StartConnect(w);
    }

    method DismissSessionNotice()
      requires Steady()
      modifies this`notice, trace
      ensures Steady() && notice.Clear?
      ensures old(Joint()) ==> Joint() && Now() == old(Now())
      ensures trace.effects == old(trace.effects) + [Dismissed]
    {
      hide InHand, ObserveAll;
      trace.Emit(Dismissed);
      notice := Clear;
    }

    constructor (vpn: VpnCore, free: FreeProfiles)
      requires vpn.trace == free.trace == vpn.core.trace && vpn.core.listener == vpn
      requires vpn.trace.effects == []
      requires vpn.core.tail == Tail(vpn.core.output) && vpn.core.process.NotRunning? && !vpn.proxy.applied
      requires InHand(vpn.proxy, vpn.user, vpn.mixedPort)
      modifies vpn`listener, free`listener
      ensures this.vpn == vpn && this.free == free && trace == vpn.trace && Steady()
      ensures status.Disconnected? && !reconnect
    {
      trace, this.vpn, this.free := vpn.trace, vpn, free;
      status, reconnect, notice := Disconnected, false, Clear;
      new;
      vpn.listener, free.listener := this, this;
    }
  }
}
