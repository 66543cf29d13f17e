/**
 * One connection session as the user sees it: a single state machine that the three layers of the client
 * together implement. Each event gives the next phase and the effects it has, in order.
 */
module Session {
  import opened Text

  /** Readiness is polled every 250 ms for at most two minutes. */
  const MAX_ATTEMPTS := 480
  /** How much of the engine's output a failure message carries. */
  const TAIL_SIZE := 4096

  /** A configuration handed to the engine. */
  datatype Config = Blank | Unusable | Usable

  /** The answer to a request for free nodes: a failure, an index naming a subscription, or a configuration. */
  datatype Reply = NoReply | Index | Direct(config: Config)

  /** The request that is outstanding: the `tried`-th endpoint of `urls`, or the subscription itself. */
  datatype Fetch = Endpoint(tried: nat, urls: nat) | Sublink

  datatype Failure =
    | EmptyConfig | UnusableConfig | NoDirectory | NotWritten | BinaryMissing | NotSpawned
    | Crashed(tail: string) | Exited(code: int, tail: string) | NeverReady(port: nat, tail: string)
    | NoEndpoints | FetchFailed | InProgress | AlreadyRunning

  /** The banner the user sees, or a layer's record of its last error. */
  datatype Notice = Clear | Shown(why: Failure)

  datatype Phase =
    | Idle
    | Fetching(fetch: Fetch)
    | Starting(ticks: nat, spawned: bool, output: string, port: nat, wantsProxy: bool)
    | Connected(spawned: bool, output: string, port: nat, redirected: bool)

  /** Everything the session reads from outside while it handles one event. */
  datatype Surroundings = Surroundings(
    profile: Config, endpoints: nat,
    directoryMade: bool, filesWritten: bool, binaryFound: bool, spawnAccepted: bool,
    port: nat, wantsProxy: bool,
    redirects: bool, spawnFailsInWait: bool)

  datatype Event =
    | Toggle | Retry | AutoConnect | Dismiss
    | HttpReply(reply: Reply)
    | Tick(open: bool)
    | ChildSpawned
    | ChildOutput(chunk: string)
    | ChildExit(crashed: bool, code: int, last: string)
    | ChildNotSpawned

  datatype Effect =
    | Requested
    | StartRequested | EngineLaunched(port: nat) | EngineReady | EngineFailed(why: Failure)
    | EngineStopped | EngineLost
    | Redirected(port: nat) | Restored
    | ReportedConnected | ReportedDisconnected | ReportedError(why: Failure) | Dismissed

  datatype Outcome = Outcome(next: Phase, effects: seq<Effect>)

  function Tail(output: string): string {
    Right(output, TAIL_SIZE)
  }

  function Refuse(why: Failure): Outcome {
    Outcome(Idle, [ReportedError(why)])
  }

  /** A new engine process, when there is a program to run and it can be started. */
  function Spawn(port: nat, wantsProxy: bool, binaryFound: bool, spawnAccepted: bool): Outcome {
    if !binaryFound then Outcome(Idle, [StartRequested, EngineFailed(BinaryMissing), ReportedError(BinaryMissing)])
    else if !spawnAccepted then Outcome(Idle, [StartRequested, EngineFailed(NotSpawned), ReportedError(NotSpawned)])
    else Outcome(Starting(0, false, "", port, wantsProxy), [StartRequested, EngineLaunched(port)])
  }

  /** A configuration is checked, written out and handed to a new engine process. */
  function Launch(config: Config, s: Surroundings): Outcome {
    if config.Blank? then Refuse(EmptyConfig)
    else if config.Unusable? then Refuse(UnusableConfig)
    else if !s.directoryMade then Refuse(NoDirectory)
    else if !s.filesWritten then Refuse(NotWritten)
    else Spawn(s.port, s.wantsProxy, s.binaryFound, s.spawnAccepted)
  }

  /** The user's own profile wins; otherwise the free nodes are fetched. */
  function Connect(s: Surroundings): Outcome {
    if !s.profile.Blank? then Launch(s.profile, s)
    else if s.endpoints == 0 then Refuse(NoEndpoints)
    else Outcome(Fetching(Endpoint(0, s.endpoints)), [Requested])
  }

  function Undo(redirected: bool): seq<Effect> {
    if redirected then [Restored] else []
  }

  /** The orderly end: desktop first, then the engine. A start failure may still surface during the wait. */
  function Disconnect(p: Phase, s: Surroundings, reconnect: bool): Outcome
    requires p.Connected?
  {
    if !p.spawned && s.spawnFailsInWait then
      Outcome(Idle, Undo(p.redirected)
        + [EngineLost, EngineFailed(NotSpawned), ReportedError(NotSpawned), ReportedDisconnected])
    else
      var ended := Undo(p.redirected) + [EngineStopped, ReportedDisconnected];
      if reconnect then Outcome(Connect(s).next, ended + Connect(s).effects) else Outcome(Idle, ended)
  }

  /** The engine fails on its own: the desktop is put back before anything is reported. */
  function Lose(p: Phase, why: Failure): Outcome
    requires p.Starting? || p.Connected?
  {
    Outcome(Idle, [EngineLost, EngineFailed(why)] + Undo(p.Connected? && p.redirected) + [ReportedError(why)]
                  + if p.Connected? then [ReportedDisconnected] else [])
  }

  /** The last attempt was in vain. A start failure that surfaces while the engine is being ended takes the message's place. */
  function GiveUp(p: Phase, s: Surroundings): Outcome
    requires p.Starting?
  {
    if !p.spawned && s.spawnFailsInWait then
      Outcome(Idle, [EngineLost, EngineFailed(NotSpawned), ReportedError(NotSpawned),
                     EngineFailed(NotSpawned), ReportedError(NotSpawned)])
    else
      var why := NeverReady(p.port, Trim(Tail(p.output)));
      Outcome(Idle, [EngineStopped, EngineFailed(why), ReportedError(why)])
  }

  function Poll(p: Phase, open: bool, s: Surroundings): Outcome
    requires p.Starting?
  {
    if open then
      var redirected := p.wantsProxy && s.redirects;
      Outcome(Connected(p.spawned, p.output, p.port, redirected),
        [EngineReady] + (if redirected then [Redirected(p.port)] else []) + [ReportedConnected])
    else if p.ticks + 1 < MAX_ATTEMPTS then Outcome(p.(ticks := p.ticks + 1), [])
    else GiveUp(p, s)
  }

  function Receive(f: Fetch, reply: Reply, s: Surroundings): Outcome {
    if reply.NoReply? then
      if f.Endpoint? && f.tried + 1 < f.urls then Outcome(Fetching(Endpoint(f.tried + 1, f.urls)), [Requested])
      else Refuse(FetchFailed)
    else if f.Endpoint? && reply.Index? then Outcome(Fetching(Sublink), [Requested])
    else Launch(if reply.Direct? then reply.config else Unusable, s)
  }

  function Step(p: Phase, e: Event, s: Surroundings): Outcome {
    match e
    case Toggle =>
      if p.Idle? then Connect(s) else if p.Connected? then Disconnect(p, s, false) else Outcome(p, [])
    case Retry =>
      var o := if p.Idle? then Connect(s) else if p.Connected? then Disconnect(p, s, true) else Outcome(p, []);
      o.(effects := [Dismissed] + o.effects)
    case Dismiss => Outcome(p, [Dismissed])
    case AutoConnect =>
      if p.Idle? then Connect(s) else Outcome(p, [])
    case HttpReply(reply) =>
      if p.Fetching? then Receive(p.fetch, reply, s) else Outcome(p, [])
    case Tick(open) =>
      if p.Starting? then Poll(p, open, s) else Outcome(p, [])
    case ChildSpawned =>
      if p.Starting? || p.Connected? then Outcome(p.(spawned := true), []) else Outcome(p, [])
    case ChildOutput(chunk) =>
      if p.Starting? || p.Connected? then Outcome(p.(output := p.output + chunk), []) else Outcome(p, [])
    case ChildExit(crashed, code, last) =>
      if p.Starting? || p.Connected? then
        var tail := Trim(Tail(p.output + last));
        Lose(p, if crashed then Crashed(tail) else Exited(code, tail))
      else Outcome(p, [])
    case ChildNotSpawned =>
      if (p.Starting? || p.Connected?) && !p.spawned then Lose(p, NotSpawned) else Outcome(p, [])
  }

  /** A run: events with the surroundings each one meets. */
  type Run = seq<(Event, Surroundings)>

  function After(p: Phase, run: Run): Phase {
    if run == [] then p
    else
      var (e, s) := run[|run| - 1];
      Step(After(p, run[..|run| - 1]), e, s).next
  }

  function Effects(p: Phase, run: Run): seq<Effect> {
    if run == [] then []
    else
      var (e, s) := run[|run| - 1];
      Effects(p, run[..|run| - 1]) + Step(After(p, run[..|run| - 1]), e, s).effects
  }
}
