/** The client from launch to exit: its layers driven by any sequence of events keep in step with a session. */
module ClientRuns {
  import opened Session
  import opened SessionRuns
  import opened ConnectionStack
  import opened Redirection
  import Proxy = SystemProxyModel
  import Safety = CrashSafety
  import Desk = DesktopProxy

  lemma {:induction false} DismissStep(p: Phase, s: Surroundings)
    ensures Step(p, Dismiss, s) == Outcome(p, [Dismissed])
  {
  }

  lemma {:induction false} SafeAtAnyStep(d: Desk.Disk, ops: seq<Desk.Op>, n: nat, user: Desk.Settings)
    requires Safety.SafeThroughout(d, ops, user) && n <= |ops|
    ensures Safety.Safe(Desk.PerformAll(d, ops[..n]), user)
    decreases n
  {
    hide Safety.Safe, Desk.Perform;
    if n > 0 {
      SafeAtAnyStep(Desk.Perform(d, ops[0]), ops[1..], n - 1, user);
      assert ops[..n][0] == ops[0] && ops[..n][1..] == ops[1..][..n - 1];
    }
  }

  method Assemble(desktop: Proxy.Desktop, backend: Desk.Backend, urls: seq<string>, ghost user: Desk.Settings)
    returns (model: ConnectionModel)
    requires desktop.Valid() && Desk.IsRealistic(user) && Safety.AtRest(desktop.State(), user, false)
    requires Safety.SafeThroughout(desktop.origin, desktop.log, user)
    ensures model.Joint() && model.Now().Idle? && model.trace.effects == []
    ensures model.vpn.proxy.desktop == desktop && model.vpn.user == user
    ensures fresh(model.vpn.Parts() + {model, model.free, model.trace} - {desktop})
  {
    hide Desk.IsRealistic, Safety.Safe, Safety.SafeThroughout, Tail;
    var trace := new Trace();
    var proxy := new Proxy.SystemProxy(backend, desktop);
    var core := new CoreProcess(trace);
    var vpn := new VpnCore(trace, core, proxy, user);
    var free := new FreeProfiles(trace, urls);
    model := new ConnectionModel(vpn, free);
    model.IdleIsJoint();
  }

  /** The running client and everything it drives. */
  class Client {
    const model: ConnectionModel
    const desktop: Proxy.Desktop
    /** The events so far, each with the surroundings it met. */
    ghost var run: Run

    /** Recovery comes before anything can connect. */
    constructor (desktop: Proxy.Desktop, backend: Desk.Backend, urls: seq<string>, ghost user: Desk.Settings)
      requires desktop.Valid() && Desk.IsRealistic(user) && Safety.SafeThroughout(desktop.origin, desktop.log, user)
      modifies desktop
      ensures InStep() && run == [] && this.desktop == desktop && model.vpn.user == user
      ensures Desk.Same(desktop.live, user) && desktop.file.Absent?
      ensures fresh(Parts() - {desktop})
    {
      hide Desk.IsRealistic, Safety.Safe, Desk.Same, Desk.PerformAll, Desk.RecoverOps, Safety.SafeThroughout;
      Safety.SafeAtEnd(desktop.origin, desktop.log, user);
      Safety.RecoveryIsSafe(desktop.State(), user);
      Safety.SafeConcat(desktop.origin, desktop.log, Desk.RecoverOps(desktop.file), user);
      var _ := Proxy.RecoverFromPreviousRun(desktop, true);
      var assembled := Assemble(desktop, backend, urls, user);
      this.desktop, model, run := desktop, assembled, [];
    }

    ghost function Parts(): set<object> {
      model.vpn.Parts() + {model, model.free, model.trace}
    }

    /** The layers are where the events so far lead, and did what these events have as effects. */
    ghost predicate InStep()
      reads this, Parts()
    {
      && model.vpn.proxy.desktop == desktop
      && model.Joint() && model.Now() == After(Phase.Idle, run) && model.trace.effects == Effects(Phase.Idle, run)
    }

    /** Any event, delivered to the layer it concerns; one with no receiver is no event. */
    method Handle(e: Event, w: World)
      requires InStep()
      modifies this`run, Parts()
      ensures InStep() && run == old(run) + [(e, old(model.Facts(w)))]
    {
      hide InHand, ObserveAll, Redirects, Configured, Step, ConnectionModel.Joint, ConnectionModel.Now;
      ghost var s := model.Facts(w);
      AfterOneMore(Phase.Idle, run, e, s);
      Deliver(e, w);
      run := run + [(e, s)];
    }

    method Deliver(e: Event, w: World)
      requires model.Joint()
      modifies Parts()
      ensures model.Joint()
      ensures var out := Step(old(model.Now()), e, old(model.Facts(w)));
              model.Now() == out.next && model.trace.effects == old(model.trace.effects) + out.effects
    {
      hide InHand, ObserveAll, Redirects, Configured, Step, ConnectionModel.Joint, ConnectionModel.Now;
      model.JointIsSteady();
      DismissStep(model.Now(), model.Facts(w));
      match e
      case Toggle => model.ToggleConnection(w);
      case Retry => model.RetryConnection(w);
      case AutoConnect => model.AutoConnectAtLaunch(w);
      case Dismiss => model.DismissSessionNotice();
      case HttpReply(reply) => model.free.Answered(reply, w);
      case Tick(open) => model.vpn.core.Ticked(open, w);
      case ChildSpawned => model.vpn.core.Started(w);
      case ChildOutput(chunk) => model.vpn.core.Wrote(chunk, w);
      case ChildExit(crashed, code, last) => model.vpn.core.Ended(crashed, code, last, w);
      case ChildNotSpawned => model.vpn.core.StartFailed(w);
    }

    /** At any moment of any run: every rule was obeyed, and neither guard against a second start was ever taken. */
    lemma {:induction false} EverySessionIsSafe()
      requires InStep()
      ensures AllObey(AT_LAUNCH, model.trace.effects)
      ensures Agrees(model.trace.Seen(), model.Now())
      ensures FailsOnce(AT_LAUNCH, model.trace.effects) <==> !HasDoubleFailure(run)
      ensures forall why: Failure :: why.InProgress? || why.AlreadyRunning? ==> IsNeverSaid(why, model.trace.effects)
    {
      EveryRunIsSafe(run);
      NeverRefused(run);
    }

    /** Kill the client after any single step of any run: the next launch puts every setting back. */
    lemma {:induction false} EveryMomentIsRecoverable(n: nat)
      requires InStep() && n <= |desktop.log|
      ensures var d := Desk.PerformAll(desktop.origin, desktop.log[..n]); var e := Desk.PerformAll(d, Desk.RecoverOps(d.file));
              Desk.Same(e.live, model.vpn.user) && e.file.Absent?
    {
      hide Desk.PerformAll, Desk.RecoverOps, Desk.Same, Desk.Perform, Safety.Safe, ObserveAll, Step;
      SafeAtAnyStep(desktop.origin, desktop.log, n, model.vpn.user);
      Safety.RecoveryIsSafe(Desk.PerformAll(desktop.origin, desktop.log[..n]), model.vpn.user);
    }

    /** The revert at exit leaves the user's settings and no file, wherever the session stands; every step of it is safe. */
    method Quit()
      requires InStep()
      modifies model.vpn.proxy, desktop, model.trace
      ensures Desk.Same(desktop.live, model.vpn.user) && desktop.file.Absent?
      ensures Safety.SafeThroughout(desktop.origin, desktop.log, model.vpn.user)
    {
      hide Desk.IsRealistic, Desk.Same, Safety.SafeThroughout, Desk.RoutesTo, ObserveAll, Step;
      model.JointIsSteady();
      model.vpn.UndoRedirect();
    }
  }
}
