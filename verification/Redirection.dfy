/** The desktop as the connection stack relies on it: redirected to one port of ours, or as the user left it. */
module Redirection {
  import opened Decimal
  import opened DesktopProxy
  import opened CrashSafety
  import opened Switchover
  import opened SystemProxyModel

  const LOOPBACK := "127.0.0.1"

  /** The machine was safe at every moment so far; while applied, every setting of the backend routes to the port. */
  ghost predicate InHand(proxy: SystemProxy, user: Settings, port: nat)
    reads proxy, proxy.desktop
  {
    && proxy.desktop.Valid() && IsRealistic(user)
    && AtRest(proxy.desktop.State(), user, proxy.applied)
    && SafeThroughout(proxy.desktop.origin, proxy.desktop.log, user)
    && (proxy.applied ==>
          && !proxy.backend.Unsupported?
          && proxy.desktop.file.saved.backend == proxy.backend
          && RoutesTo(proxy.backend, proxy.desktop.live, LOOPBACK, port))
  }

  lemma {:induction false} AnyPort(proxy: SystemProxy, user: Settings, port: nat, other: nat)
    requires InHand(proxy, user, port) && !proxy.applied
    ensures InHand(proxy, user, other)
  {
  }

  function Outcomes(backend: Backend, port: nat, commands: nat -> Outcome): seq<Outcome> {
    First(|ApplySets(backend, LOOPBACK, port)|, commands)
  }

  /** What the caller of apply is told, for a desktop that is not redirected yet. */
  predicate Redirects(backend: Backend, port: nat, fileOpens: bool, commands: nat -> Outcome) {
    !backend.Unsupported? && fileOpens && AllDone(Outcomes(backend, port, commands))
  }

  lemma {:induction false} FilingLeavesLive(d: Disk, saved: Saved, sets: seq<Op>)
    ensures PerformAll(d, [Truncate, Write(saved)] + sets + []) == PerformAll(Disk(d.live, Complete(saved)), sets)
  {
    hide Perform;
    var ops := [Truncate, Write(saved)] + sets;
    assert ops + [] == ops;
    PerformConcat(d, [Truncate, Write(saved)], sets);
    assert [Truncate, Write(saved)] == [Truncate] + [Write(saved)];
    PerformConcat(d, [Truncate], [Write(saved)]);
    FilingSteps(d, saved);
  }

  lemma {:induction false} FilingSteps(d: Disk, saved: Saved)
    ensures PerformAll(PerformAll(d, [Truncate]), [Write(saved)]) == Disk(d.live, Complete(saved))
  {
    var torn := Perform(d, Truncate);
    assert PerformAll(d, [Truncate]) == PerformAll(torn, []) == torn;
    var filed := Perform(torn, Write(saved));
    assert PerformAll(torn, [Write(saved)]) == PerformAll(filed, []) == filed;
  }

  /** A redirect that succeeded routes to the port. */
  lemma {:induction false} ApplyRedirects(d: Disk, b: Backend, host: string, port: nat, outcomes: seq<Outcome>)
    requires !b.Unsupported? && |outcomes| == |ApplySets(b, host, port)| && AllDone(outcomes)
    ensures var live := PerformAll(d, ApplyOps(b, Capture(b, d.live, {}), host, port, outcomes)).live;
            RoutesTo(b, live, host, port)
  {
    hide ApplySets, Capture, Perform, PerformAll, RoutesTo, Landed;
    var sets, saved := ApplySets(b, host, port), Capture(b, d.live, {});
    ApplySetsCovered(b, host, port);
    LandedIsCovered(b, sets, outcomes);
    FilingLeavesLive(d, saved, sets);
    var filed := Disk(d.live, Complete(saved));
    SwitchOverRedirects(filed, b, host, port, outcomes);
  }

  /** One event, and then nothing but its steps, to the last. */
  function Undisturbed(e: Event, steps: nat): seq<Event> {
    [e] + Repeat(steps)
  }

  lemma {:induction false} RunsToTheEnd(w: World, e: Event)
    requires CanHappen(w, e) && Next(w, e).app.Up? && Next(w, e).app.plan != []
    ensures var v := Next(w, e); var end := RunAll(w, Undisturbed(e, |v.app.plan|));
            && end.disk == PerformAll(v.disk, v.app.plan) && end.user == v.user
            && end.app == v.app.(plan := [], applied := v.app.after)
  {
    hide Perform, Next, CanHappen;
    var v := Next(w, e);
    PlanIsPerformed(v);
    assert Undisturbed(e, |v.app.plan|)[1..] == Repeat(|v.app.plan|);
  }

  /** In the runs, an apply left alone redirects exactly when all its commands succeed, and otherwise changes nothing. */
  lemma {:induction false} ApplyEvent(w: World, host: string, port: nat, outcomes: seq<Outcome>)
    requires Invariant(w) && CanHappen(w, BeginApply(host, port, outcomes, true))
    ensures var b := w.app.backend; var e := BeginApply(host, port, outcomes, true);
            var end := RunAll(w, Undisturbed(e, |Next(w, e).app.plan|));
            && IsResting(end.app) && end.app.applied == AllDone(outcomes) && end.user == w.user
            && if AllDone(outcomes) then RoutesTo(b, end.disk.live, host, port) && end.disk.file.Complete?
               else Same(end.disk.live, w.user) && !end.disk.file.Complete?
  {
    var b, e, d := w.app.backend, BeginApply(host, port, outcomes, true), w.disk;
    var ops := ApplyOps(b, Capture(b, d.live, {}), host, port, outcomes);
    PlanOfApply(w, host, port, outcomes);
    RunsToTheEnd(w, e);
    RestsAtRest(w);
    ApplyIsSafe(d, b, host, port, outcomes, w.user);
    if AllDone(outcomes) {
      ApplyRedirects(d, b, host, port, outcomes);
    }
    hide Next, CanHappen, RunAll, PerformAll, ApplyOps, RoutesTo, Same, Invariant;
  }

  lemma {:induction false} RestsAtRest(w: World)
    requires Invariant(w) && IsResting(w.app)
    ensures IsRealistic(w.user) && AtRest(w.disk, w.user, w.app.applied)
    ensures w.app.applied ==> w.disk.file.saved.backend == w.app.backend
  {
    hide Safe, SafeThroughout;
  }

  lemma {:induction false} PlanOfApply(w: World, host: string, port: nat, outcomes: seq<Outcome>)
    requires CanHappen(w, BeginApply(host, port, outcomes, true))
    ensures var v := Next(w, BeginApply(host, port, outcomes, true)); var b := w.app.backend;
            && v.app == Up(b, false, ApplyOps(b, Capture(b, w.disk.live, {}), host, port, outcomes), AllDone(outcomes))
            && v.disk == w.disk && v.user == w.user && v.app.plan != []
  {
    hide Landed, RestoreSets, Capture, ApplySets;
  }

  /** In the runs, a revert left alone leaves the user's settings, no file and nothing applied. */
  lemma {:induction false} RevertEvent(w: World)
    requires Invariant(w) && CanHappen(w, BeginRevert)
    ensures var end := RunAll(w, Undisturbed(BeginRevert, |Next(w, BeginRevert).app.plan|));
            && IsResting(end.app) && !end.app.applied && end.user == w.user
            && Same(end.disk.live, w.user) && end.disk.file.Absent?
  {
    PlanOfRevert(w);
    RunsToTheEnd(w, BeginRevert);
    RestsAtRest(w);
    RevertIsSafe(w.disk, w.app.backend, w.app.applied, w.user);
    hide Next, CanHappen, RunAll, PerformAll, RevertOps, Same, Invariant;
  }

  lemma {:induction false} PlanOfRevert(w: World)
    requires CanHappen(w, BeginRevert)
    ensures var v := Next(w, BeginRevert);
            && v.app == Up(w.app.backend, w.app.applied, RevertOps(w.app.backend, w.app.applied, w.disk.file), false)
            && v.disk == w.disk && v.user == w.user && v.app.plan != []
  {
    hide RestoreSets;
  }

  /** SystemProxy::apply for a desktop that is not redirected. */
  method ApplyProxy(proxy: SystemProxy, ghost user: Settings, port: nat, fileOpens: bool, commands: nat -> Outcome) returns (ok: bool)
    requires InHand(proxy, user, port) && !proxy.applied
    modifies proxy, proxy.desktop
    ensures InHand(proxy, user, port)
    ensures ok == proxy.applied == Redirects(proxy.backend, port, fileOpens, commands)
    ensures ok ==> RoutesTo(proxy.backend, proxy.desktop.live, "127.0.0.1", port)
  {
    hide ApplySets, Capture, Perform, PerformAll, RoutesTo, Landed, ApplyOps, Safe, IsRealistic;
    hide SafeThroughout, RestoreSets;
    var outcomes := Outcomes(proxy.backend, port, commands);
    ghost var d, log := proxy.desktop.State(), proxy.desktop.log;
    ok := proxy.Apply(LOOPBACK, port, fileOpens, outcomes);
    if !proxy.backend.Unsupported? && fileOpens {
      ApplyIsSafe(d, proxy.backend, LOOPBACK, port, outcomes, user);
      CaptureBackend(proxy.backend, d.live, {});
      SafeConcat(proxy.desktop.origin, log, ApplyOps(proxy.backend, Capture(proxy.backend, d.live, {}), LOOPBACK, port, outcomes), user);
      if ok {
        ApplyRedirects(d, proxy.backend, LOOPBACK, port, outcomes);
      }
    } else {
      NothingPerformed(d);
      assert proxy.desktop.log == log;
    }
  }

  lemma {:induction false} NothingPerformed(d: Disk)
    ensures PerformAll(d, []) == d
  {
  }

  /** SystemProxy::revert, at any time. */
  method RevertProxy(proxy: SystemProxy, ghost user: Settings, ghost port: nat)
    requires InHand(proxy, user, port)
    modifies proxy, proxy.desktop
    ensures InHand(proxy, user, port) && !proxy.applied && proxy.desktop.file.Absent?
  {
    hide Perform, PerformAll, RevertOps, RoutesTo, Safe, IsRealistic, SafeThroughout;
    RevertIsSafe(proxy.desktop.State(), proxy.backend, proxy.applied, user);
    SafeConcat(proxy.desktop.origin, proxy.desktop.log, RevertOps(proxy.backend, proxy.applied, proxy.desktop.file), user);
    proxy.Revert();
  }
}
