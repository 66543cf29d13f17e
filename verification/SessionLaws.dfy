/** What a session does for its user, event by event, over every run: where it ends up and what is seen to happen. */
module SessionLaws {
  import opened Text
  import opened Session
  import opened SessionRuns
  import opened SessionSettles

  /** Where the session is after one more event. */
  function Then(run: Run, e: Event, s: Surroundings): Phase {
    After(Idle, run + [(e, s)])
  }

  /** What one more event adds to what was seen to happen. */
  function Added(run: Run, e: Event, s: Surroundings): seq<Effect> {
    AfterOneMore(Idle, run, e, s);
    Effects(Idle, run + [(e, s)])[|Effects(Idle, run)|..]
  }

  lemma {:induction false} AddedByStep(run: Run, e: Event, s: Surroundings)
    ensures Then(run, e, s) == Step(After(Idle, run), e, s).next
    ensures Added(run, e, s) == Step(After(Idle, run), e, s).effects
  {
    hide Step;
    AfterOneMore(Idle, run, e, s);
  }

  function If(condition: bool, effects: seq<Effect>): seq<Effect> {
    if condition then effects else []
  }

  /** The button ends a connection: desktop first, then the engine; it never starts anything. */
  lemma {:induction false} ButtonDisconnects(run: Run, s: Surroundings)
    requires After(Idle, run).Connected?
    ensures Then(run, Toggle, s).Idle?
    ensures var lost := !IsHeardOf(run) && s.spawnFailsInWait;
      Added(run, Toggle, s) ==
        If(After(Idle, run).redirected, [Restored])
        + (if lost then [EngineLost, EngineFailed(NotSpawned), ReportedError(NotSpawned)] else [EngineStopped])
        + [ReportedDisconnected]
    ensures StartRequested !in Added(run, Toggle, s) && Requested !in Added(run, Toggle, s)
  {
    AddedByStep(run, Toggle, s);
    SpawnedIsHeardOf(run);
    hide After, Effects, IsHeardOf, Connect;
  }

  /** A retry of a connection is the button pressed twice, the second press left out when the start failure was seen. */
  lemma {:induction false} RetryIsTwoPresses(run: Run, s: Surroundings)
    requires After(Idle, run).Connected?
    ensures var ended := run + [(Toggle, s)]; var lost := !IsHeardOf(run) && s.spawnFailsInWait;
      && Then(run, Retry, s) == (if lost then Phase.Idle else Then(ended, Toggle, s))
      && Added(run, Retry, s) == [Dismissed] + Added(run, Toggle, s) + if lost then [] else Added(ended, Toggle, s)
  {
    AddedByStep(run, Toggle, s);
    AddedByStep(run, Retry, s);
    AddedByStep(run + [(Toggle, s)], Toggle, s);
    SpawnedIsHeardOf(run);
    hide After, Effects, IsHeardOf, Connect;
  }

  /** While an attempt is under way the user's buttons do nothing; nothing connects a connection again by itself. */
  lemma {:induction false} ButtonsWait(run: Run, s: Surroundings)
    ensures var p := After(Idle, run);
      && (p.Fetching? || p.Starting? ==>
            && Then(run, Toggle, s) == p && Added(run, Toggle, s) == []
            && Then(run, Retry, s) == p && Added(run, Retry, s) == [Dismissed])
      && (!p.Idle? ==> Then(run, AutoConnect, s) == p && Added(run, AutoConnect, s) == [])
      && Then(run, Dismiss, s) == p && Added(run, Dismiss, s) == [Dismissed]
  {
    AddedByStep(run, Toggle, s);
    AddedByStep(run, Retry, s);
    AddedByStep(run, AutoConnect, s);
    AddedByStep(run, Dismiss, s);
    hide After, Effects, Connect, Disconnect;
  }

  /** What comes of a configuration: a new engine on the port of the settings, or the first thing that is in its way. */
  predicate IsLaunch(config: Config, s: Surroundings, next: Phase, added: seq<Effect>) {
    if config.Usable? && s.directoryMade && s.filesWritten && s.binaryFound && s.spawnAccepted then
      next == Starting(0, false, "", s.port, s.wantsProxy) && added == [StartRequested, EngineLaunched(s.port)]
    else
      && next.Idle?
      && (config.Blank? ==> added == [ReportedError(EmptyConfig)])
      && (config.Unusable? ==> added == [ReportedError(UnusableConfig)])
      && (config.Usable? ==>
            && (!s.directoryMade ==> added == [ReportedError(NoDirectory)])
            && (s.directoryMade && !s.filesWritten ==> added == [ReportedError(NotWritten)])
            && (s.directoryMade && s.filesWritten ==>
                  if s.binaryFound then added == [StartRequested, EngineFailed(NotSpawned), ReportedError(NotSpawned)]
                  else added == [StartRequested, EngineFailed(BinaryMissing), ReportedError(BinaryMissing)]))
  }

  predicate IsConnectEvent(e: Event) {
    e.Toggle? || e.Retry? || e.AutoConnect?
  }

  /** From idle, the button, a retry and the automatic connect do the same: the user's profile, else the free nodes. */
  lemma {:induction false} IdleConnects(run: Run, e: Event, s: Surroundings)
    requires After(Idle, run).Idle? && IsConnectEvent(e)
    ensures var first := If(e.Retry?, [Dismissed]);
      && first <= Added(run, e, s)
      && var rest := Added(run, e, s)[|first|..];
         if !s.profile.Blank? then IsLaunch(s.profile, s, Then(run, e, s), rest)
         else if s.endpoints == 0 then Then(run, e, s).Idle? && rest == [ReportedError(NoEndpoints)]
         else Then(run, e, s) == Fetching(Endpoint(0, s.endpoints)) && rest == [Requested]
  {
    AddedByStep(run, e, s);
    hide After, Effects;
  }

  /** Each answer to a request: the next endpoint, the subscription it names, a launch, or the end of the attempt. */
  lemma {:induction false} ReplyIsFollowed(run: Run, reply: Reply, s: Surroundings)
    requires After(Idle, run).Fetching?
    ensures var f := After(Idle, run).fetch; var next, added := Then(run, HttpReply(reply), s), Added(run, HttpReply(reply), s);
      match reply
      case NoReply =>
        if f.Endpoint? && f.tried + 1 < f.urls then next == Fetching(Endpoint(f.tried + 1, f.urls)) && added == [Requested]
        else next.Idle? && added == [ReportedError(FetchFailed)]
      case Index =>
        if f.Endpoint? then next == Fetching(Sublink) && added == [Requested]
        else next.Idle? && added == [ReportedError(UnusableConfig)]
      case Direct(config) => IsLaunch(config, s, next, added)
  {
    AddedByStep(run, HttpReply(reply), s);
    hide After, Effects;
  }

  /** Each readiness poll: a connection, redirected when that is wished and works; another wait; or the time-out. */
  lemma {:induction false} TickIsAnswered(run: Run, open: bool, s: Surroundings)
    requires After(Idle, run).Starting?
    ensures var p := After(Idle, run); var next, added := Then(run, Tick(open), s), Added(run, Tick(open), s);
      if open then
        && next == Connected(p.spawned, p.output, p.port, p.wantsProxy && s.redirects)
        && added == [EngineReady] + If(p.wantsProxy && s.redirects, [Redirected(p.port)]) + [ReportedConnected]
      else if p.ticks < 479 then next == p.(ticks := p.ticks + 1) && added == []
      else
        && next.Idle?
        && added ==
             if !IsHeardOf(run) && s.spawnFailsInWait then
               [EngineLost, EngineFailed(NotSpawned), ReportedError(NotSpawned), EngineFailed(NotSpawned), ReportedError(NotSpawned)]
             else
               var why := NeverReady(p.port, Trim(Right(p.output, 4096)));
               [EngineStopped, EngineFailed(why), ReportedError(why)]
  {
    AddedByStep(run, Tick(open), s);
    SpawnedIsHeardOf(run);
    hide After, Effects, IsHeardOf, Trim, Right;
  }

  /** The end of an engine by itself: put back, reported with the end of its output, idle. */
  lemma {:induction false} LossIsReported(run: Run, e: Event, s: Surroundings)
    requires After(Idle, run).Starting? || After(Idle, run).Connected?
    requires e.ChildExit? || (e.ChildNotSpawned? && !IsHeardOf(run))
    ensures var p := After(Idle, run);
      var tail := Trim(Right(p.output + (if e.ChildExit? then e.last else ""), 4096));
      var why := if e.ChildNotSpawned? then NotSpawned else if e.crashed then Crashed(tail) else Exited(e.code, tail);
      && Then(run, e, s).Idle?
      && Added(run, e, s) ==
           [EngineLost, EngineFailed(why)] + If(p.Connected? && p.redirected, [Restored]) + [ReportedError(why)]
           + If(p.Connected?, [ReportedDisconnected])
  {
    AddedByStep(run, e, s);
    SpawnedIsHeardOf(run);
    hide After, Effects, IsHeardOf, Trim, Right;
  }

  /** News of the engine that changes nothing else: it runs, or it wrote something. */
  lemma {:induction false} NewsIsKept(run: Run, chunk: string, s: Surroundings)
    requires After(Idle, run).Starting? || After(Idle, run).Connected?
    ensures var p := After(Idle, run);
      && Then(run, ChildSpawned, s) == p.(spawned := true) && Added(run, ChildSpawned, s) == []
      && Then(run, ChildOutput(chunk), s) == p.(output := p.output + chunk) && Added(run, ChildOutput(chunk), s) == []
  {
    AddedByStep(run, ChildSpawned, s);
    AddedByStep(run, ChildOutput(chunk), s);
    hide After, Effects;
  }

  /** An event for which nobody waits. */
  predicate IsStray(p: Phase, e: Event) {
    || (e.HttpReply? && !p.Fetching?)
    || (e.Tick? && !p.Starting?)
    || (e.ChildNotSpawned? && (p.Starting? || p.Connected?) && p.spawned)
    || ((e.ChildSpawned? || e.ChildOutput? || e.ChildExit? || e.ChildNotSpawned?) && (p.Idle? || p.Fetching?))
  }

  lemma {:induction false} StraysAreIgnored(run: Run, e: Event, s: Surroundings)
    requires IsStray(After(Idle, run), e)
    ensures Then(run, e, s) == After(Idle, run) && Added(run, e, s) == []
  {
    AddedByStep(run, e, s);
    hide After, Effects;
  }
}
