/** The object that redirects the desktop, as written; it performs exactly the operations the runs consist of. */
module SystemProxyModel {
  import opened DesktopProxy
  import Switchover

  lemma {:induction false} PerformConcat(d: Disk, a: seq<Op>, b: seq<Op>)
    ensures PerformAll(d, a + b) == PerformAll(PerformAll(d, a), b)
    decreases |a|
  {
    hide Perform;
    if a == [] {
      assert a + b == b;
    } else {
      assert (a + b)[1..] == a[1..] + b;
      PerformConcat(Perform(d, a[0]), a[1..], b);
    }
  }

  lemma {:induction false} PerformOneMore(d: Disk, ops: seq<Op>, op: Op)
    ensures PerformAll(d, ops + [op]) == Perform(PerformAll(d, ops), op)
  {
    hide Perform;
    PerformConcat(d, ops, [op]);
    var e := PerformAll(d, ops);
    assert [op][1..] == [];
    assert PerformAll(Perform(e, op), []) == Perform(e, op);
  }

  /** The machine-wide state, with a log of every atomic step taken on it. */
  class Desktop {
    var live: Settings
    var file: StateFile
    ghost const origin: Disk
    ghost var log: seq<Op>

    ghost function State(): Disk
      reads this
    {
      Disk(live, file)
    }

    ghost predicate Valid()
      reads this
    {
      State() == PerformAll(origin, log)
    }

    constructor (live: Settings)
      ensures Valid() && State() == Disk(live, Absent) && log == []
    {
      this.live, file, origin, log := live, Absent, Disk(live, Absent), [];
    }

    method Truncate()
      requires Valid()
      modifies this
      ensures Valid() && log == old(log) + [Op.Truncate]
    {
      PerformOneMore(origin, log, Op.Truncate);
      file, log := Torn, log + [Op.Truncate];
    }

    method Write(saved: Saved)
      requires Valid()
      modifies this
      ensures Valid() && log == old(log) + [Op.Write(saved)]
    {
      PerformOneMore(origin, log, Op.Write(saved));
      file, log := Complete(saved), log + [Op.Write(saved)];
    }

    method Remove()
      requires Valid()
      modifies this
      ensures Valid() && log == old(log) + [Op.Remove]
    {
      PerformOneMore(origin, log, Op.Remove);
      file, log := Absent, log + [Op.Remove];
    }

    /** Runs the settings tool once. */
    method Set(key: Key, value: string, outcome: Outcome) returns (ok: bool)
      requires Valid()
      modifies this
      ensures Valid() && file == old(file)
      ensures ok <==> outcome.Done?
      ensures log == old(log) + if outcome.Lost? then [] else [Op.Set(key, value)]
    {
      if !outcome.Lost? {
        PerformOneMore(origin, log, Op.Set(key, value));
        live, log := live[key := value], log + [Op.Set(key, value)];
      }
      ok := outcome.Done?;
    }
  }

  lemma {:induction false} LandedOneMore(sets: seq<Op>, outcomes: seq<Outcome>, i: nat)
    requires |sets| == |outcomes| && i < |sets|
    ensures Landed(sets[..i + 1], outcomes[..i + 1])
         == Landed(sets[..i], outcomes[..i]) + if outcomes[i].Lost? then [] else [sets[i]]
    decreases |sets|
  {
    if i == 0 {
      assert sets[..1][1..] == [] && outcomes[..1][1..] == [];
    } else {
      LandedOneMore(sets[1..], outcomes[1..], i - 1);
      assert sets[..i + 1][1..] == sets[1..][..i] && outcomes[..i + 1][1..] == outcomes[1..][..i];
      assert sets[..i][1..] == sets[1..][..i - 1] && outcomes[..i][1..] == outcomes[1..][..i - 1];
    }
  }

  lemma {:induction false} LandedNothing()
    ensures Landed([], []) == []
  {
  }

  lemma {:induction false} SetsAreSets(b: Backend, host: string, port: nat, i: nat)
    requires i < |ApplySets(b, host, port)|
    ensures ApplySets(b, host, port)[i].Set?
  {
  }

  /** What one call of apply performs; nothing when it refuses or has nothing to do. */
  function ApplyPlan(b: Backend, applied: bool, d: Disk, host: string, port: nat, opens: bool, outcomes: seq<Outcome>): seq<Op>
    requires |outcomes| == |ApplySets(b, host, port)|
  {
    if b.Unsupported? || applied || !opens then []
    else ApplyOps(b, Capture(b, d.live, {}), host, port, outcomes)
  }

  lemma {:induction false} CommandedOneMore(sets: seq<Op>, op: Op, commands: nat -> Outcome)
    ensures Commanded(sets + [op], commands) == Commanded(sets, commands) + if commands(|sets|).Lost? then [] else [op]
    ensures AllSucceed(|sets| + 1, commands) <==> AllSucceed(|sets|, commands) && commands(|sets|).Done?
  {
    var n := |sets|;
    var all, outcomes, before := sets + [op], First(n + 1, commands), First(n, commands);
    LandedOneMore(all, outcomes, n);
    assert all[..n] == sets && all[..n + 1] == all && |all| == n + 1;
    assert outcomes == before + [commands(n)];
    assert outcomes[..n] == before && outcomes[..n + 1] == outcomes;
    hide Landed;
    assert forall i :: 0 <= i < n ==> before[i] == outcomes[i];
  }

  /** Commands that all succeed do all they are told. */
  lemma {:induction false} AllLand(sets: seq<Op>)
    ensures Commanded(sets, _ => Done) == sets
  {
    AllDoneLand(sets, First(|sets|, _ => Done));
  }

  lemma {:induction false} AllDoneLand(sets: seq<Op>, outcomes: seq<Outcome>)
    requires |sets| == |outcomes| && AllDone(outcomes)
    ensures Landed(sets, outcomes) == sets
  {
    if sets != [] {
      assert outcomes[0].Done?;
      assert forall i :: 0 <= i < |outcomes[1..]| ==> outcomes[1..][i] == outcomes[i + 1];
      AllDoneLand(sets[1..], outcomes[1..]);
      assert sets == [sets[0]] + sets[1..];
    }
  }

  /** A run of settings commands, each attempted even after one failed. */
  class Batch {
    const desktop: Desktop
    const commands: nat -> Outcome
    var issued: nat
    var ok: bool
    ghost const start: seq<Op>
    ghost const file: StateFile
    /** The commands so far. */
    ghost var sets: seq<Op>

    ghost predicate Valid()
      reads this, desktop
    {
      && desktop.Valid() && desktop.file == file
      && desktop.log == start + Commanded(sets, commands)
      && issued == |sets| && (ok <==> AllSucceed(|sets|, commands))
    }

    constructor (desktop: Desktop, commands: nat -> Outcome)
      requires desktop.Valid()
      ensures this.desktop == desktop && this.commands == commands && start == desktop.log && file == desktop.file
      ensures Valid() && sets == []
    {
      this.desktop, this.commands, issued, ok := desktop, commands, 0, true;
      start, file, sets := desktop.log, desktop.file, [];
    }

    method Set(key: Key, value: string)
      requires Valid()
      modifies this, desktop
      ensures Valid() && sets == old(sets) + [Op.Set(key, value)]
    {
      hide Perform, Commanded, AllSucceed;
      CommandedOneMore(sets, Op.Set(key, value), commands);
      var done := desktop.Set(key, value, commands(issued));
      ok := ok && done;
      issued, sets := issued + 1, sets + [Op.Set(key, value)];
    }
  }

  method RestoreOneChannel(batch: Batch, values: map<Key, string>, c: Channel)
    requires batch.Valid()
    modifies batch, batch.desktop
    ensures batch.Valid() && batch.sets == old(batch.sets) + RestoreChannel(values, c)
  {
    hide Perform, Commanded, AllSucceed;
    if Host(c) in values {
      batch.Set(Host(c), values[Host(c)]);
    }
    if Read(values, Port(c)) != "" {
      batch.Set(Port(c), Read(values, Port(c)));
    }
  }

  ghost function ChannelSets(values: map<Key, string>, n: nat): seq<Op>
    requires n <= 3
  {
    if n == 0 then [] else ChannelSets(values, n - 1) + RestoreChannel(values, CHANNELS[n - 1])
  }

  lemma {:induction false} AllChannelSets(values: map<Key, string>)
    ensures ChannelSets(values, 3)
         == RestoreChannel(values, Http) + RestoreChannel(values, Https) + RestoreChannel(values, Socks)
  {
    hide RestoreChannel;
    assert ChannelSets(values, 1) == RestoreChannel(values, Http);
    assert ChannelSets(values, 2) == RestoreChannel(values, Http) + RestoreChannel(values, Https);
  }

  method RestoreGSettings(desktop: Desktop, values: map<Key, string>, commands: nat -> Outcome) returns (ok: bool)
    requires desktop.Valid()
    modifies desktop
    ensures desktop.Valid() && desktop.file == old(desktop.file)
    ensures desktop.log == old(desktop.log) + Commanded(RestoreSets(GSettings, values), commands)
    ensures ok <==> AllSucceed(|RestoreSets(GSettings, values)|, commands)
  {
    hide RestoreChannel, Perform, Commanded, AllSucceed;
    var batch := new Batch(desktop, commands);
    for i := 0 to 3
      invariant batch.Valid() && batch.sets == ChannelSets(values, i)
    {
      RestoreOneChannel(batch, values, CHANNELS[i]);
    }
    AllChannelSets(values);
    if Read(values, IgnoreHosts) != "" {
      batch.Set(IgnoreHosts, Read(values, IgnoreHosts));
    }
    batch.Set(Mode, if Read(values, Mode) == "" then "none" else Read(values, Mode));
    assert batch.sets == RestoreSets(GSettings, values);
    ok := batch.ok;
  }

  method RestoreKde(desktop: Desktop, values: map<Key, string>, commands: nat -> Outcome) returns (ok: bool)
    requires desktop.Valid()
    modifies desktop
    ensures desktop.Valid() && desktop.file == old(desktop.file)
    ensures desktop.log == old(desktop.log) + Commanded(RestoreSets(Kde, values), commands)
    ensures ok <==> AllSucceed(|RestoreSets(Kde, values)|, commands)
  {
    hide Perform, Commanded, AllSucceed;
    var batch := new Batch(desktop, commands);
    batch.Set(KdeProxy(Http), Read(values, KdeProxy(Http)));
    batch.Set(KdeProxy(Https), Read(values, KdeProxy(Https)));
    batch.Set(KdeProxy(Socks), Read(values, KdeProxy(Socks)));
    batch.Set(NoProxyFor, Read(values, NoProxyFor));
    batch.Set(ProxyType, if Read(values, ProxyType) == "" then "0" else Read(values, ProxyType));
    assert batch.sets == RestoreSets(Kde, values);
    ok := batch.ok;
  }

  /** A restore as the protocol relies on it: its commands are taken to succeed. */
  method Restore(desktop: Desktop, backend: Backend, values: map<Key, string>)
    requires desktop.Valid()
    modifies desktop
    ensures desktop.Valid() && desktop.file == old(desktop.file)
    ensures desktop.log == old(desktop.log) + RestoreSets(backend, values)
  {
    hide RestoreSets, Perform, Commanded, AllSucceed;
    AllLand(RestoreSets(backend, values));
    NothingToRestore(values);
    match backend
    case GSettings => var _ := RestoreGSettings(desktop, values, _ => Done);
    case Kde => var _ := RestoreKde(desktop, values, _ => Done);
    case Unsupported => assert desktop.log + [] == desktop.log;
  }

  lemma {:induction false} NothingToRestore(values: map<Key, string>)
    ensures RestoreSets(Unsupported, values) == []
  {
  }

  /** Called once at launch, before anything can connect; it works from the file alone. */
  method RecoverFromPreviousRun(desktop: Desktop, opens: bool) returns (found: bool)
    requires desktop.Valid()
    modifies desktop
    ensures desktop.Valid()
    ensures var plan := RecoveryPlan(old(desktop.file), opens);
            desktop.log == old(desktop.log) + plan && desktop.State() == PerformAll(old(desktop.State()), plan)
    ensures found <==> opens && !old(desktop.file).Absent?
  {
    hide RestoreSets, Perform;
    PerformConcat(desktop.origin, desktop.log, RecoveryPlan(desktop.file, opens));
    if desktop.file.Absent? {
      return false;
    }
    if !opens {
      desktop.Remove();
      return false;
    }
    if desktop.file.Complete? {
      Restore(desktop, desktop.file.saved.backend, desktop.file.saved.values);
    }
    desktop.Remove();
    return true;
  }

  /** A file that exists and cannot be opened is removed unread. */
  function RecoveryPlan(file: StateFile, opens: bool): seq<Op> {
    if opens || file.Absent? then RecoverOps(file) else [Remove]
  }

  class SystemProxy {
    const backend: Backend
    const desktop: Desktop
    var applied: bool

    constructor (backend: Backend, desktop: Desktop)
      ensures this.backend == backend && this.desktop == desktop && !applied
    {
      this.backend, this.desktop, applied := backend, desktop, false;
    }

    /** applyGSettings and applyKde: every write is attempted, even after one failed. */
    method Redirect(host: string, port: nat, outcomes: seq<Outcome>) returns (ok: bool)
      requires desktop.Valid() && |outcomes| == |ApplySets(backend, host, port)|
      modifies desktop
      ensures desktop.Valid() && desktop.file == old(desktop.file)
      ensures desktop.log == old(desktop.log) + Landed(ApplySets(backend, host, port), outcomes)
      ensures ok <==> AllDone(outcomes)
      ensures ok && !backend.Unsupported? ==> RoutesTo(backend, desktop.live, host, port)
    {
      hide ApplySets, Perform, Landed, RoutesTo;
      PerformConcat(desktop.origin, desktop.log, Landed(ApplySets(backend, host, port), outcomes));
      if !backend.Unsupported? {
        Switchover.SwitchOverRedirects(desktop.State(), backend, host, port, outcomes);
      }
      LandedNothing();
      var sets := ApplySets(backend, host, port);
      ok := true;
      for i := 0 to |sets|
        invariant desktop.Valid() && desktop.file == old(desktop.file)
        invariant desktop.log == old(desktop.log) + Landed(sets[..i], outcomes[..i])
        invariant ok <==> AllDone(outcomes[..i])
      {
        SetsAreSets(backend, host, port, i);
        LandedOneMore(sets, outcomes, i);
        var done := desktop.Set(sets[i].key, sets[i].value, outcomes[i]);
        ok := ok && done;
      }
      assert sets[..|sets|] == sets && outcomes[..|sets|] == outcomes;
    }

    method Apply(host: string, port: nat, opens: bool, outcomes: seq<Outcome>) returns (ok: bool)
      requires desktop.Valid() && |outcomes| == |ApplySets(backend, host, port)|
      modifies this, desktop
      ensures var plan := ApplyPlan(backend, old(applied), old(desktop.State()), host, port, opens, outcomes);
              && desktop.Valid()
              && desktop.log == old(desktop.log) + plan
              && desktop.State() == PerformAll(old(desktop.State()), plan)
      ensures ok <==> !backend.Unsupported? && (old(applied) || (opens && AllDone(outcomes)))
      ensures ok && !old(applied) ==> RoutesTo(backend, desktop.live, host, port)
      ensures applied <==> old(applied) || ok
    {
      hide ApplySets, Landed, RestoreSets, Capture, Perform, RoutesTo;
      PerformConcat(desktop.origin, desktop.log,
        ApplyPlan(backend, applied, desktop.State(), host, port, opens, outcomes));
      if backend.Unsupported? {
        return false;
      }
      if applied {
        return true;
      }
      var saved := Capture(backend, desktop.live, {});
      if !opens {
        return false;
      }
      desktop.Truncate();
      desktop.Write(saved);
      ok := Redirect(host, port, outcomes);
      if !ok {
        // Undo whatever landed, then drop the file.
        Restore(desktop, backend, saved.values);
        desktop.Remove();
        return;
      }
      applied := true;
    }

    method Revert()
      requires desktop.Valid()
      modifies this, desktop
      ensures desktop.Valid() && !applied
      ensures desktop.log == old(desktop.log) + RevertOps(backend, old(applied), old(desktop.file))
      ensures desktop.State() == PerformAll(old(desktop.State()), RevertOps(backend, old(applied), old(desktop.file)))
    {
      hide RestoreSets, Perform;
      PerformConcat(desktop.origin, desktop.log, RevertOps(backend, applied, desktop.file));
      if !applied {
        desktop.Remove();
        return;
      }
      var values := if desktop.file.Complete? then desktop.file.saved.values else map[];
      Restore(desktop, backend, values);
      desktop.Remove();
      applied := false;
    }
  }
}
