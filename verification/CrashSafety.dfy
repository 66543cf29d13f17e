/** Whole runs of the client over the desktop's proxy settings, with kills between any two steps. */
module CrashSafety {
  import opened DesktopProxy

  /** The saved values restore the user's settings of their backend. */
  ghost predicate Faithful(saved: Saved, user: Settings) {
    && !saved.backend.Unsupported?
    && forall k :: Owns(saved.backend, k) ==>
         k in saved.values && Meaning(k, saved.values[k]) == Setting(user, k)
  }

  /** A complete file holds the user's settings; without one the live settings are the user's. */
  ghost predicate Safe(d: Disk, user: Settings) {
    if d.file.Complete? then
      && Faithful(d.file.saved, user)
      && (forall k :: !Owns(d.file.saved.backend, k) ==> Setting(d.live, k) == Setting(user, k))
    else Same(d.live, user)
  }

  /** Safe now and after each of the operations, so a kill may fall anywhere. */
  ghost predicate SafeThroughout(d: Disk, ops: seq<Op>, user: Settings)
    decreases |ops|
  {
    Safe(d, user) && (ops != [] ==> SafeThroughout(Perform(d, ops[0]), ops[1..], user))
  }

  lemma {:induction false} SafeConcat(d: Disk, a: seq<Op>, b: seq<Op>, user: Settings)
    requires SafeThroughout(d, a, user) && SafeThroughout(PerformAll(d, a), b, user)
    ensures SafeThroughout(d, a + b, user)
    ensures PerformAll(d, a + b) == PerformAll(PerformAll(d, a), b)
    decreases |a|
  {
    hide Safe, Perform;
    if a == [] {
      assert a + b == b;
    } else {
      SafeConcat(Perform(d, a[0]), a[1..], b, user);
      assert (a + b)[1..] == a[1..] + b;
    }
  }

  /** A write to a setting of the backend whose values are on file. */
  ghost predicate IsCoveredSet(op: Op, b: Backend) {
    op.Set? && Owns(b, op.key)
  }

  ghost predicate AllCovered(ops: seq<Op>, b: Backend) {
    forall i :: 0 <= i < |ops| ==> IsCoveredSet(ops[i], b)
  }

  /** While a complete file exists, writes to its backend's settings leave the machine safe. */
  lemma {:induction false} CoveredSetsAreSafe(d: Disk, ops: seq<Op>, user: Settings)
    requires d.file.Complete? && Safe(d, user) && AllCovered(ops, d.file.saved.backend)
    ensures SafeThroughout(d, ops, user) && PerformAll(d, ops).file == d.file
    ensures Safe(PerformAll(d, ops), user)
    decreases |ops|
  {
    if ops != [] {
      assert IsCoveredSet(ops[0], d.file.saved.backend);
      CoveredSetsAreSafe(Perform(d, ops[0]), ops[1..], user);
    }
  }

  /** What a list of writes leaves in a key: the last value written, or the old one. */
  function LastWrite(ops: seq<Op>, k: Key, old_: string): string
    decreases |ops|
  {
    if ops == [] then old_
    else LastWrite(ops[1..], k, if ops[0].Set? && ops[0].key == k then ops[0].value else old_)
  }

  lemma {:induction false} PerformAllReads(d: Disk, ops: seq<Op>, k: Key)
    ensures Read(PerformAll(d, ops).live, k) == LastWrite(ops, k, Read(d.live, k))
    decreases |ops|
  {
    if ops != [] {
      PerformAllReads(Perform(d, ops[0]), ops[1..], k);
    }
  }

  lemma {:induction false} LastWriteConcat(a: seq<Op>, b: seq<Op>, k: Key, old_: string)
    ensures LastWrite(a + b, k, old_) == LastWrite(b, k, LastWrite(a, k, old_))
    decreases |a|
  {
    if a == [] {
      assert a + b == b;
    } else {
      assert (a + b)[1..] == a[1..] + b;
      LastWriteConcat(a[1..], b, k, if a[0].Set? && a[0].key == k then a[0].value else old_);
    }
  }

  /** What a restore leaves in a key. */
  function Restored(b: Backend, values: map<Key, string>, k: Key, old_: string): string {
    if !Owns(b, k) then old_
    else if k.Mode? then (if Read(values, k) == "" then "none" else Read(values, k))
    else if k.IgnoreHosts? || k.Port? then (if Read(values, k) == "" then old_ else Read(values, k))
    else Meaning(k, Read(values, k))
  }

  lemma {:induction false} LastWriteOfOne(a: Op, k: Key, old_: string)
    requires a.Set?
    ensures LastWrite([a], k, old_) == if a.key == k then a.value else old_
  {
    assert [a][1..] == [];
  }

  lemma {:induction false} LastWriteOfTwo(a: Op, b: Op, k: Key, old_: string)
    requires a.Set? && b.Set?
    ensures LastWrite([a], k, old_) == if a.key == k then a.value else old_
    ensures LastWrite([a, b], k, old_) == if b.key == k then b.value else if a.key == k then a.value else old_
  {
    hide LastWrite;
    LastWriteOfOne(a, k, old_);
    LastWriteOfOne(b, k, if a.key == k then a.value else old_);
    assert [a] + [b] == [a, b];
    LastWriteConcat([a], [b], k, old_);
  }

  lemma {:induction false} ChannelRestored(values: map<Key, string>, c: Channel, k: Key, old_: string)
    requires Host(c) in values
    ensures AllCovered(RestoreChannel(values, c), GSettings)
    ensures LastWrite(RestoreChannel(values, c), k, old_)
         == if k == Host(c) || k == Port(c) then Restored(GSettings, values, k, old_) else old_
  {
    var host, port := Set(Host(c), values[Host(c)]), Set(Port(c), Read(values, Port(c)));
    LastWriteOfTwo(host, port, k, old_);
    assert RestoreChannel(values, c) == if port.value == "" then [host] else [host, port];
  }

  lemma {:induction false} GSettingsRestored(values: map<Key, string>, k: Key, old_: string)
    requires forall k :: Owns(GSettings, k) ==> k in values
    ensures AllCovered(RestoreSets(GSettings, values), GSettings)
    ensures LastWrite(RestoreSets(GSettings, values), k, old_) == Restored(GSettings, values, k, old_)
  {
    var a, b, c := RestoreChannel(values, Http), RestoreChannel(values, Https), RestoreChannel(values, Socks);
    var d := IfNotEmpty(IgnoreHosts, Read(values, IgnoreHosts));
    var e := [Set(Mode, if Read(values, Mode) == "" then "none" else Read(values, Mode))];
    var h := LastWrite(a, k, old_);
    ChannelRestored(values, Http, k, old_);
    var i := LastWrite(b, k, h);
    ChannelRestored(values, Https, k, h);
    var j := LastWrite(c, k, i);
    ChannelRestored(values, Socks, k, i);
    hide RestoreChannel;
    LastWriteConcat(a, b, k, old_);
    LastWriteConcat(a + b, c, k, old_);
    LastWriteConcat(a + b + c, d, k, old_);
    LastWriteConcat(a + b + c + d, e, k, old_);
    LastWriteOfTwo(Set(IgnoreHosts, Read(values, IgnoreHosts)), e[0], k, j);
    LastWriteOfTwo(e[0], e[0], k, LastWrite(d, k, j));
    if k.Host? || k.Port? {
      match k.channel
      case Http =>
      case Https =>
      case Socks =>
    }
  }

  lemma {:induction false} KdeRestored(values: map<Key, string>, k: Key, old_: string)
    ensures AllCovered(RestoreSets(Kde, values), Kde)
    ensures LastWrite(RestoreSets(Kde, values), k, old_) == Restored(Kde, values, k, old_)
  {
    var s := RestoreSets(Kde, values);
    assert s == [s[0], s[1]] + [s[2], s[3]] + [s[4]];
    LastWriteConcat([s[0], s[1]] + [s[2], s[3]], [s[4]], k, old_);
    LastWriteConcat([s[0], s[1]], [s[2], s[3]], k, old_);
    LastWriteOfTwo(s[0], s[1], k, old_);
    var h := LastWrite([s[0], s[1]], k, old_);
    LastWriteOfTwo(s[2], s[3], k, h);
    LastWriteOfTwo(s[4], s[4], k, LastWrite([s[2], s[3]], k, h));
    if k.KdeProxy? {
      match k.channel
      case Http =>
      case Https =>
      case Socks =>
    }
  }

  /** A restore only writes settings of its backend, and leaves each as `Restored` says. */
  lemma {:induction false} RestoreWrites(b: Backend, values: map<Key, string>, k: Key, old_: string)
    requires !b.Unsupported? && forall k :: Owns(b, k) ==> k in values
    ensures AllCovered(RestoreSets(b, values), b)
    ensures LastWrite(RestoreSets(b, values), k, old_) == Restored(b, values, k, old_)
  {
    match b
    case GSettings => GSettingsRestored(values, k, old_);
    case Kde => KdeRestored(values, k, old_);
  }

  /** Restoring from a faithful file, wherever an earlier attempt stopped, puts every setting back. */
  lemma {:induction false} RestoreCompletes(d: Disk, user: Settings)
    requires IsRealistic(user) && d.file.Complete? && Safe(d, user)
    ensures var ops := RestoreSets(d.file.saved.backend, d.file.saved.values);
            && SafeThroughout(d, ops + [Remove], user)
            && Same(PerformAll(d, ops + [Remove]).live, user)
            && PerformAll(d, ops + [Remove]).file.Absent?
  {
    hide RestoreSets, PerformAll, Perform, LastWrite;
    var saved := d.file.saved;
    var ops := RestoreSets(saved.backend, saved.values);
    RestoreWrites(saved.backend, saved.values, Mode, "");
    CoveredSetsAreSafe(d, ops, user);
    var e := PerformAll(d, ops);
    forall k ensures Setting(e.live, k) == Setting(user, k) {
      RestoreWrites(saved.backend, saved.values, k, Read(d.live, k));
      PerformAllReads(d, ops, k);
      assert Owns(saved.backend, k) ==> Meaning(k, saved.values[k]) == Setting(user, k);
    }
    RemoveLast(e, user);
    SafeConcat(d, ops, [Remove], user);
  }

  lemma {:induction false} RemoveLast(d: Disk, user: Settings)
    requires Safe(d, user) && Same(d.live, user)
    ensures SafeThroughout(d, [Remove], user)
    ensures PerformAll(d, [Remove]) == d.(file := Absent)
  {
    var r := Perform(d, Remove);
    assert [Remove][1..] == [];
    assert SafeThroughout(r, [], user);
  }

  lemma {:induction false} LandedIsCovered(b: Backend, sets: seq<Op>, outcomes: seq<Outcome>)
    requires |sets| == |outcomes| && AllCovered(sets, b)
    ensures AllCovered(Landed(sets, outcomes), b)
    ensures AllDone(outcomes) ==> Landed(sets, outcomes) == sets
    decreases |sets|
  {
    if sets != [] {
      assert IsCoveredSet(sets[0], b);
      assert forall i :: 0 <= i < |sets[1..]| ==> sets[1..][i] == sets[i + 1];
      LandedIsCovered(b, sets[1..], outcomes[1..]);
      assert AllDone(outcomes) ==> AllDone(outcomes[1..]);
      assert sets == [sets[0]] + sets[1..];
    }
  }

  lemma {:induction false} ApplySetsCovered(b: Backend, host: string, port: nat)
    ensures AllCovered(ApplySets(b, host, port), b)
  {
    hide Decimal.Print;
  }

  /** At rest the file is complete exactly while our redirection is in place. */
  ghost predicate AtRest(d: Disk, user: Settings, applied: bool) {
    Safe(d, user) && (applied <==> d.file.Complete?)
  }

  lemma {:induction false} FilingIsSafe(d: Disk, b: Backend, user: Settings)
    requires !b.Unsupported? && Safe(d, user) && !d.file.Complete?
    ensures var saved := Capture(b, d.live, {}); var ops := [Truncate, Write(saved)];
            && SafeThroughout(d, ops, user)
            && PerformAll(d, ops) == Disk(d.live, Complete(saved))
            && Safe(PerformAll(d, ops), user)
  {
    var saved := Capture(b, d.live, {});
    forall k ensures Owns(b, k) ==> k in saved.values && saved.values[k] == Read(d.live, k) {
      CaptureReads(b, d.live, {}, k);
    }
    hide Capture;
    var torn := d.(file := Torn);
    var filed := Disk(d.live, Complete(saved));
    assert Faithful(saved, user);
    assert Safe(torn, user) && Safe(filed, user);
    TwoSteps(d, Truncate, Write(saved), user);
  }

  lemma {:induction false} TwoSteps(d: Disk, a: Op, b: Op, user: Settings)
    requires Safe(d, user) && Safe(Perform(d, a), user) && Safe(Perform(Perform(d, a), b), user)
    ensures SafeThroughout(d, [a, b], user) && PerformAll(d, [a, b]) == Perform(Perform(d, a), b)
  {
    hide Safe, Perform;
    var e := Perform(d, a);
    var f := Perform(e, b);
    assert [b][1..] == [] && [a, b][1..] == [b];
    assert SafeThroughout(f, [], user) && PerformAll(f, []) == f;
    assert SafeThroughout(e, [b], user) && PerformAll(e, [b]) == f;
  }

  lemma {:induction false} FilingThenSets(d: Disk, b: Backend, sets: seq<Op>, user: Settings)
    requires !b.Unsupported? && AtRest(d, user, false) && AllCovered(sets, b)
    ensures var saved := Capture(b, d.live, {}); var ops := [Truncate, Write(saved)] + sets; var e := PerformAll(d, ops);
            && SafeThroughout(d, ops, user) && Safe(e, user) && e.file == Complete(saved)
  {
    var saved := Capture(b, d.live, {});
    FilingIsSafe(d, b, user);
    hide Capture, Safe;
    var filed := PerformAll(d, [Truncate, Write(saved)]);
    CoveredSetsAreSafe(filed, sets, user);
    SafeConcat(d, [Truncate, Write(saved)], sets, user);
  }

  lemma {:induction false} CaptureBackend(b: Backend, live: Settings, unread: set<Key>)
    ensures Capture(b, live, unread).backend == b
  {
  }

  lemma {:induction false} SafeAtEnd(d: Disk, ops: seq<Op>, user: Settings)
    requires SafeThroughout(d, ops, user)
    ensures Safe(PerformAll(d, ops), user)
    decreases |ops|
  {
    hide Safe, Perform;
    if ops != [] {
      SafeAtEnd(Perform(d, ops[0]), ops[1..], user);
    }
  }

  /** Every step of apply is safe, whichever of its commands fail, and it ends at rest. */
  lemma {:induction false} ApplyIsSafe(d: Disk, b: Backend, host: string, port: nat, outcomes: seq<Outcome>, user: Settings)
    requires IsRealistic(user) && !b.Unsupported? && |outcomes| == |ApplySets(b, host, port)|
    requires AtRest(d, user, false)
    ensures var ops := ApplyOps(b, Capture(b, d.live, {}), host, port, outcomes); var e := PerformAll(d, ops);
            && SafeThroughout(d, ops, user)
            && AtRest(e, user, AllDone(outcomes))
            && (AllDone(outcomes) ==> e.file == Complete(Capture(b, d.live, {})))
  {
    hide Capture, ApplySets, Landed, RestoreSets, Safe, SafeThroughout, Same, IsRealistic, PerformAll, Perform, AllDone, AllCovered;
    var saved, sets := Capture(b, d.live, {}), ApplySets(b, host, port);
    ApplySetsCovered(b, host, port);
    LandedIsCovered(b, sets, outcomes);
    var start := [Truncate, Write(saved)] + Landed(sets, outcomes);
    FilingThenSets(d, b, Landed(sets, outcomes), user);
    var e := PerformAll(d, start);
    var undo := RestoreSets(b, saved.values) + [Remove];
    RestoreCompletes(e, user);
    CaptureBackend(b, d.live, {});
    SafeConcat(d, start, undo, user);
    SafeAtEnd(e, undo, user);
    assert start + [] == start;
    assert start + undo == [Truncate, Write(saved)] + Landed(sets, outcomes) + (RestoreSets(b, saved.values) + [Remove]);
  }

  /** Every step of revert is safe, and it ends at rest without a file. */
  lemma {:induction false} RevertIsSafe(d: Disk, b: Backend, applied: bool, user: Settings)
    requires IsRealistic(user) && AtRest(d, user, applied)
    requires applied ==> d.file.saved.backend == b
    ensures var ops := RevertOps(b, applied, d.file);
            SafeThroughout(d, ops, user) && AtRest(PerformAll(d, ops), user, false) && PerformAll(d, ops).file.Absent?
  {
    if applied {
      RestoreCompletes(d, user);
    } else {
      RemoveLast(d, user);
      assert [] + [Remove] == [Remove];
    }
  }

  /** Every step of recovery is safe from any safe disk, and it ends at rest with the user's settings. */
  lemma {:induction false} RecoveryIsSafe(d: Disk, user: Settings)
    requires IsRealistic(user) && Safe(d, user)
    ensures var ops := RecoverOps(d.file);
            && SafeThroughout(d, ops, user)
            && AtRest(PerformAll(d, ops), user, false)
            && Same(PerformAll(d, ops).live, user) && PerformAll(d, ops).file.Absent?
  {
    if d.file.Complete? {
      RestoreCompletes(d, user);
    } else if d.file.Torn? {
      RemoveLast(d, user);
    }
  }

  /** The client process: not running, or running with the operations it has still to perform. */
  datatype App = Down | Up(backend: Backend, applied: bool, plan: seq<Op>, after: bool)

  datatype World = World(disk: Disk, app: App, user: Settings)

  datatype Event =
    | Launch(backend: Backend)
    | BeginApply(host: string, port: nat, outcomes: seq<Outcome>, opens: bool)
    | BeginRevert
    | PerformNext
    | Kill
    | UserEdit(settings: Settings)

  predicate IsResting(app: App) {
    app.Up? && app.plan == []
  }

  /** The user edits settings only while no restore file is complete: see `EditIsClobbered`. */
  ghost predicate CanHappen(w: World, e: Event) {
    match e
    case Launch(_) => w.app.Down?
    case BeginApply(host, port, outcomes, _) =>
      && IsResting(w.app) && !w.app.applied && !w.app.backend.Unsupported?
      && |outcomes| == |ApplySets(w.app.backend, host, port)|
    case BeginRevert => IsResting(w.app)
    case PerformNext => w.app.Up? && w.app.plan != []
    case Kill => w.app.Up?
    case UserEdit(s) => (w.app.Down? || IsResting(w.app)) && !w.disk.file.Complete? && IsRealistic(s)
  }

  /** One event; an event that cannot happen changes nothing. */
  ghost function Next(w: World, e: Event): World {
    if !CanHappen(w, e) then w else
      match e
      case Launch(b) => Proceed(w, Up(b, false, RecoverOps(w.disk.file), false))
      case BeginApply(host, port, outcomes, opens) =>
        if opens then
          Proceed(w, w.app.(
            plan := ApplyOps(w.app.backend, Capture(w.app.backend, w.disk.live, {}), host, port, outcomes),
            after := AllDone(outcomes)))
        else w
      case BeginRevert =>
        Proceed(w, w.app.(plan := RevertOps(w.app.backend, w.app.applied, w.disk.file), after := false))
      case PerformNext =>
        Proceed(w.(disk := Perform(w.disk, w.app.plan[0])), w.app.(plan := w.app.plan[1..]))
      case Kill => w.(app := Down)
      case UserEdit(s) => w.(disk := w.disk.(live := s), user := s)
  }

  /** When nothing is left to perform, the call returns and the flag takes its new value. */
  function Proceed(w: World, app: App): World
    requires app.Up?
  {
    w.(app := if app.plan == [] then app.(applied := app.after) else app)
  }

  ghost function RunAll(w: World, events: seq<Event>): World
    decreases |events|
  {
    if events == [] then w else RunAll(Next(w, events[0]), events[1..])
  }

  /** The complete file, if any, was written by this very backend while the client runs at rest. */
  ghost predicate Invariant(w: World) {
    && IsRealistic(w.user)
    && match w.app
       case Down => Safe(w.disk, w.user)
       case Up(b, applied, plan, after) =>
         && SafeThroughout(w.disk, plan, w.user)
         && AtRest(PerformAll(w.disk, plan), w.user, after)
         && (after ==> PerformAll(w.disk, plan).file.saved.backend == b)
         && (plan == [] ==> applied == after)
  }

  lemma {:induction false} StartIsSafe(user: Settings)
    requires IsRealistic(user)
    ensures Invariant(World(Disk(user, Absent), Down, user))
  {
  }

  lemma {:induction false} ProceedKeeps(w: World, app: App)
    requires IsRealistic(w.user) && app.Up?
    requires SafeThroughout(w.disk, app.plan, w.user)
    requires AtRest(PerformAll(w.disk, app.plan), w.user, app.after)
    requires app.after ==> PerformAll(w.disk, app.plan).file.saved.backend == app.backend
    ensures Invariant(Proceed(w, app))
  {
    hide Safe;
  }

  /** Every event keeps the invariant. */
  lemma {:induction false} NextKeepsInvariant(w: World, e: Event)
    requires Invariant(w)
    ensures Invariant(Next(w, e))
  {
    if CanHappen(w, e) {
      var d, user := w.disk, w.user;
      match e
      case Launch(b) =>
        RecoveryIsSafe(d, user);
        ProceedKeeps(w, Up(b, false, RecoverOps(d.file), false));
      case BeginApply(host, port, outcomes, opens) =>
        if opens {
          hide Capture, ApplySets, ApplyOps, Safe, Perform;
          ApplyIsSafe(d, w.app.backend, host, port, outcomes, user);
          CaptureBackend(w.app.backend, d.live, {});
          ProceedKeeps(w, w.app.(
            plan := ApplyOps(w.app.backend, Capture(w.app.backend, d.live, {}), host, port, outcomes),
            after := AllDone(outcomes)));
        }
      case BeginRevert =>
        hide RevertOps, Safe, Perform;
        RevertIsSafe(d, w.app.backend, w.app.applied, user);
        ProceedKeeps(w, w.app.(plan := RevertOps(w.app.backend, w.app.applied, d.file), after := false));
      case PerformNext =>
        hide Safe, Perform;
        ProceedKeeps(w.(disk := Perform(d, w.app.plan[0])), w.app.(plan := w.app.plan[1..]));
      case Kill =>
        hide Perform;
      case UserEdit(s) =>
    }
  }

  /**
   * Over every run: whatever is applied, reverted, recovered, refused or killed, and wherever, a complete
   * restore file holds the user's settings and otherwise the live settings are the user's.
   */
  lemma {:induction false} EveryRunIsSafe(w: World, events: seq<Event>)
    requires Invariant(w)
    ensures Invariant(RunAll(w, events)) && Safe(RunAll(w, events).disk, RunAll(w, events).user)
    decreases |events|
  {
    if events == [] {
      if w.app.Up? { hide Safe; assert SafeThroughout(w.disk, w.app.plan, w.user); }
    } else {
      hide Invariant, Next, Safe;
      NextKeepsInvariant(w, events[0]);
      EveryRunIsSafe(Next(w, events[0]), events[1..]);
    }
  }

  function Repeat(n: nat): (events: seq<Event>)
    ensures |events| == n && forall i :: 0 <= i < n ==> events[i].PerformNext?
  {
    seq(n, i => PerformNext)
  }

  /** Left alone, a process performs its whole plan. */
  lemma {:induction false} PlanIsPerformed(w: World)
    requires w.app.Up? && w.app.plan != []
    ensures RunAll(w, Repeat(|w.app.plan|)).disk == PerformAll(w.disk, w.app.plan)
    ensures RunAll(w, Repeat(|w.app.plan|)).app == w.app.(plan := [], applied := w.app.after)
    ensures RunAll(w, Repeat(|w.app.plan|)).user == w.user
    decreases |w.app.plan|
  {
    hide Perform;
    var n := |w.app.plan|;
    var w1 := Next(w, PerformNext);
    assert Repeat(n)[1..] == Repeat(n - 1);
    if n > 1 {
      PlanIsPerformed(w1);
    } else {
      assert Repeat(0) == [];
    }
  }

  /** The events of one launch that is left to finish its recovery. */
  function RecoveryRun(w: World, b: Backend): seq<Event> {
    [Launch(b)] + Repeat(|RecoverOps(w.disk.file)|)
  }

  /** After any number of crashes, one completed recovery leaves every setting original and no file. */
  lemma {:induction false} RecoveryRestores(user: Settings, events: seq<Event>, b: Backend)
    requires IsRealistic(user)
    requires RunAll(World(Disk(user, Absent), Down, user), events).app.Down?
    ensures var w := RunAll(World(Disk(user, Absent), Down, user), events);
            var end := RunAll(w, RecoveryRun(w, b));
            Same(end.disk.live, w.user) && end.disk.file.Absent?
  {
    var w0 := World(Disk(user, Absent), Down, user);
    StartIsSafe(user);
    EveryRunIsSafe(w0, events);
    var w := RunAll(w0, events);
    LaunchRestores(w, b);
  }

  lemma {:induction false} LaunchRestores(w: World, b: Backend)
    requires Invariant(w) && w.app.Down?
    ensures Same(RunAll(w, RecoveryRun(w, b)).disk.live, w.user) && RunAll(w, RecoveryRun(w, b)).disk.file.Absent?
  {
    RecoveryIsSafe(w.disk, w.user);
    var ops := RecoverOps(w.disk.file);
    hide RecoverOps, Safe, SafeThroughout, Same, Perform;
    var w1 := Next(w, Launch(b));
    assert RecoveryRun(w, b)[1..] == Repeat(|ops|);
    assert RunAll(w, RecoveryRun(w, b)) == RunAll(w1, Repeat(|ops|));
    if ops != [] {
      PlanIsPerformed(w1);
    } else {
      assert Repeat(0) == [];
    }
  }

  /** What a recovery leaves in one setting, whatever was there before. */
  lemma {:induction false} RecoveredSetting(live: Settings, saved: Saved, user: Settings, k: Key)
    requires IsRealistic(user) && Faithful(saved, user)
    ensures Setting(PerformAll(Disk(live, Complete(saved)), RecoverOps(Complete(saved))).live, k)
         == if Owns(saved.backend, k) then Setting(user, k) else Setting(live, k)
  {
    hide RestoreSets, PerformAll, LastWrite;
    var b, values, d := saved.backend, saved.values, Disk(live, Complete(saved));
    var ops := RestoreSets(b, values);
    PerformAllReads(d, ops + [Remove], k);
    LastWriteConcat(ops, [Remove], k, Read(live, k));
    RemoveWritesNothing(k, LastWrite(ops, k, Read(live, k)));
    RestoreWrites(b, values, k, Read(live, k));
  }

  lemma {:induction false} RemoveWritesNothing(k: Key, old_: string)
    ensures LastWrite([Remove], k, old_) == old_
  {
    assert [Remove][1..] == [];
  }

  /**
   * Why the user's edits are kept out of the runs while a file is complete: recovery undoes every edit of a
   * setting the file covers and leaves every other, so an edit survives exactly when it left the former alone.
   */
  lemma {:induction false} EditIsClobbered(d: Disk, user: Settings, edited: Settings)
    requires IsRealistic(user) && d.file.Complete? && Safe(d, user)
    ensures var b := d.file.saved.backend; var end := PerformAll(d.(live := edited), RecoverOps(d.file)).live;
            && (forall k :: Setting(end, k) == if Owns(b, k) then Setting(user, k) else Setting(edited, k))
            && (Same(end, edited) <==> forall k :: Owns(b, k) ==> Setting(edited, k) == Setting(user, k))
  {
    hide RecoverOps, PerformAll, Owns, Setting, Faithful;
    var b, e := d.file.saved.backend, d.(live := edited);
    assert e == Disk(edited, Complete(d.file.saved));
    var end := PerformAll(e, RecoverOps(d.file)).live;
    forall k ensures Setting(end, k) == if Owns(b, k) then Setting(user, k) else Setting(edited, k) {
      RecoveredSetting(edited, d.file.saved, user, k);
    }
  }
}
