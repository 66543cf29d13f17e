/** What is left of the user's settings when a part the redirect relies on fails: exact conditions. */
module Faults {
  import opened DesktopProxy
  import opened CrashSafety
  import opened Switchover
  import opened SystemProxyModel

  /** A setting that may go unread: restoring it from an empty capture happens to be right. */
  predicate IsHarmlessToLose(b: Backend, user: Settings, k: Key, host: string, port: nat, outcomes: seq<Outcome>)
    requires |outcomes| == |ApplySets(b, host, port)|
  {
    match k
    case Mode => Read(user, k) == "none"
    case IgnoreHosts => KeepsValue(ApplySets(b, host, port), outcomes, k, Read(user, k))
    case Port(_) => KeepsValue(ApplySets(b, host, port), outcomes, k, Read(user, k))
    case _ => Setting(user, k) == Meaning(k, "")
  }

  /** No write that landed changed the key. */
  predicate KeepsValue(sets: seq<Op>, outcomes: seq<Outcome>, k: Key, v: string)
    requires |sets| == |outcomes|
  {
    forall i :: 0 <= i < |sets| && sets[i].Set? && sets[i].key == k && !outcomes[i].Lost? ==> sets[i].value == v
  }

  /** A capture that missed `unread` was filed, some writes landed, the client died, the next launch recovered. */
  function AfterLossyRun(b: Backend, user: Settings, unread: set<Key>, host: string, port: nat, outcomes: seq<Outcome>): Settings
    requires |outcomes| == |ApplySets(b, host, port)|
  {
    var file := Complete(Capture(b, user, unread));
    var live := Redirected(Disk(user, file), b, host, port, outcomes);
    PerformAll(Disk(live, file), RecoverOps(file)).live
  }

  lemma {:induction false} LossyRead(b: Backend, user: Settings, unread: set<Key>, host: string, port: nat, outcomes: seq<Outcome>, k: Key)
    requires !b.Unsupported? && |outcomes| == |ApplySets(b, host, port)|
    ensures var values := Capture(b, user, unread).values;
            var live := Redirected(Disk(user, Complete(Capture(b, user, unread))), b, host, port, outcomes);
            Read(AfterLossyRun(b, user, unread, host, port, outcomes), k) == Restored(b, values, k, Read(live, k))
  {
    var saved := Capture(b, user, unread);
    var live := Redirected(Disk(user, Complete(saved)), b, host, port, outcomes);
    forall k ensures k in saved.values <==> Owns(b, k) { CaptureReads(b, user, unread, k); }
    CaptureBackend(b, user, unread);
    hide Capture, RestoreSets, PerformAll, LastWrite, Redirected, Restored, Owns;
    var ops := RestoreSets(b, saved.values);
    PerformAllReads(Disk(live, Complete(saved)), ops + [Remove], k);
    LastWriteConcat(ops, [Remove], k, Read(live, k));
    RemoveWritesNothing(k, LastWrite(ops, k, Read(live, k)));
    RestoreWrites(b, saved.values, k, Read(live, k));
  }


  lemma {:induction false} LossyValue(b: Backend, user: Settings, unread: set<Key>, host: string, port: nat, outcomes: seq<Outcome>, k: Key)
    requires IsRealistic(user) && !b.Unsupported? && |outcomes| == |ApplySets(b, host, port)|
    ensures Setting(AfterLossyRun(b, user, unread, host, port, outcomes), k) == Setting(user, k) <==>
            (Owns(b, k) && k in unread ==> IsHarmlessToLose(b, user, k, host, port, outcomes))
  {
    LossyRead(b, user, unread, host, port, outcomes, k);
    CaptureReads(b, user, unread, k);
    hide Capture, ApplySets, AfterLossyRun, Redirected, KeepsValue;
    if Owns(b, k) {
      LossyLive(b, user, unread, host, port, outcomes, k);
      assert k.Mode? || k.IgnoreHosts? || k.Port? ==> Read(user, k) != "";
      hide IsRealistic;
    } else {
      ReadForeign(Disk(user, Complete(Capture(b, user, unread))), b, host, port, outcomes, k);
      hide IsRealistic;
    }
  }

  lemma {:induction false} LossyLive(b: Backend, user: Settings, unread: set<Key>, host: string, port: nat, outcomes: seq<Outcome>, k: Key)
    requires !b.Unsupported? && |outcomes| == |ApplySets(b, host, port)| && Owns(b, k)
    ensures var live := Redirected(Disk(user, Complete(Capture(b, user, unread))), b, host, port, outcomes);
            Read(live, k) == Read(user, k) <==> KeepsValue(ApplySets(b, host, port), outcomes, k, Read(user, k))
  {
    ApplySetsShape(b, host, port);
    hide Capture, ApplySets, Redirected, KeepsValue;
    var sets := ApplySets(b, host, port);
    var i :| 0 <= i < |sets| && sets[i].key == k;
    ReadRedirected(Disk(user, Complete(Capture(b, user, unread))), b, host, port, outcomes, i);
    OnlyWrite(sets, outcomes, i, Read(user, k));
  }

  lemma {:induction false} OnlyWrite(sets: seq<Op>, outcomes: seq<Outcome>, i: nat, v: string)
    requires DistinctSets(sets) && |sets| == |outcomes| && i < |sets|
    ensures KeepsValue(sets, outcomes, sets[i].key, v) <==> outcomes[i].Lost? || sets[i].value == v
  {
  }

  /**
   * Settings that could not be read when apply captured them come back right, wherever apply was killed and
   * whichever of its writes landed, exactly when each lost one equals what an empty capture leaves.
   */
  lemma {:induction false} LossyCaptureExact(b: Backend, user: Settings, unread: set<Key>, host: string, port: nat, outcomes: seq<Outcome>)
    requires IsRealistic(user) && !b.Unsupported? && |outcomes| == |ApplySets(b, host, port)|
    ensures Same(AfterLossyRun(b, user, unread, host, port, outcomes), user) <==>
            forall k :: Owns(b, k) && k in unread ==> IsHarmlessToLose(b, user, k, host, port, outcomes)
  {
    hide AfterLossyRun, Setting, IsHarmlessToLose, Owns;
    forall k
      ensures Setting(AfterLossyRun(b, user, unread, host, port, outcomes), k) == Setting(user, k) <==>
              (Owns(b, k) && k in unread ==> IsHarmlessToLose(b, user, k, host, port, outcomes))
    {
      LossyValue(b, user, unread, host, port, outcomes, k);
    }
  }

  /** The restore file was written and not flushed; a power cut during the writes loses or tears it. */
  function AfterPowerCut(b: Backend, user: Settings, host: string, port: nat, outcomes: seq<Outcome>, torn: bool): Disk
    requires |outcomes| == |ApplySets(b, host, port)|
  {
    Disk(Redirected(Disk(user, Complete(Capture(b, user, {}))), b, host, port, outcomes), if torn then Torn else Absent)
  }

  /**
   * A power cut that takes the unflushed file leaves the machine safe, and recoverable, exactly when every
   * write that had landed wrote what the user had there already.
   */
  lemma {:induction false} PowerCutExact(b: Backend, user: Settings, host: string, port: nat, outcomes: seq<Outcome>, torn: bool)
    requires !b.Unsupported? && |outcomes| == |ApplySets(b, host, port)|
    ensures var d := AfterPowerCut(b, user, host, port, outcomes, torn); var sets := ApplySets(b, host, port);
      && (Safe(d, user) <==> Same(PerformAll(d, RecoverOps(d.file)).live, user))
      && (Safe(d, user) <==> forall i :: 0 <= i < |sets| && !outcomes[i].Lost? ==> Setting(user, sets[i].key) == sets[i].value)
  {
    var d := AfterPowerCut(b, user, host, port, outcomes, torn);
    RecoveryWithoutFile(d);
    ApplySetsShape(b, host, port);
    hide ApplySets, Redirected, Capture, Setting, RecoverOps, PerformAll;
    var before, sets := Disk(user, Complete(Capture(b, user, {}))), ApplySets(b, host, port);
    forall i | 0 <= i < |sets|
      ensures Setting(d.live, sets[i].key) == if outcomes[i].Lost? then Setting(user, sets[i].key) else sets[i].value
    {
      SettingRedirected(before, b, host, port, outcomes, i);
    }
    forall k | !Owns(b, k) ensures Setting(d.live, k) == Setting(user, k) {
      ForeignSetting(before, b, host, port, outcomes, k);
    }
    SameExactly(d.live, user, b, sets, outcomes);
    hide Owns, Same;
  }

  /** Settings that differ from the user's by some writes are the user's exactly when those wrote the user's values. */
  lemma {:induction false} SameExactly(live: Settings, user: Settings, b: Backend, sets: seq<Op>, outcomes: seq<Outcome>)
    requires |sets| == |outcomes| && forall i :: 0 <= i < |sets| ==> sets[i].Set?
    requires forall i :: 0 <= i < |sets| ==>
      Setting(live, sets[i].key) == if outcomes[i].Lost? then Setting(user, sets[i].key) else sets[i].value
    requires forall k :: !Owns(b, k) ==> Setting(live, k) == Setting(user, k)
    requires forall k :: Owns(b, k) ==> exists i :: 0 <= i < |sets| && sets[i].key == k
    ensures Same(live, user) <==>
            forall i :: 0 <= i < |sets| && !outcomes[i].Lost? ==> Setting(user, sets[i].key) == sets[i].value
  {
    hide Setting, Owns;
  }

  lemma {:induction false} ForeignSetting(d: Disk, b: Backend, host: string, port: nat, outcomes: seq<Outcome>, k: Key)
    requires !b.Unsupported? && |outcomes| == |ApplySets(b, host, port)| && !Owns(b, k)
    ensures Setting(Redirected(d, b, host, port, outcomes), k) == Setting(d.live, k)
  {
    hide ApplySets, Redirected;
    ReadForeign(d, b, host, port, outcomes, k);
  }

  lemma {:induction false} RecoveryWithoutFile(d: Disk)
    requires !d.file.Complete?
    ensures PerformAll(d, RecoverOps(d.file)).live == d.live
  {
    if d.file.Torn? {
      assert [Remove][1..] == [];
    }
  }

  /** With nothing empty to skip, a restore writes the keys that a redirect writes, in the same order. */
  lemma {:induction false} RestoreKeys(saved: Saved, user: Settings)
    requires IsRealistic(user) && Faithful(saved, user)
    ensures var sets, ours := RestoreSets(saved.backend, saved.values), ApplySets(saved.backend, "", 0);
            && |sets| == |ours|
            && forall i :: 0 <= i < |sets| ==>
                 sets[i].Set? && ours[i].Set? && sets[i].key == ours[i].key
                 && Meaning(sets[i].key, sets[i].value) == Setting(user, sets[i].key)
  {
    hide Decimal.Print;
    if saved.backend.GSettings? {
      GSettingsKeys(saved.values, user);
    } else {
      KdeKeys(saved.values, user);
    }
  }

  lemma {:induction false} KdeKeys(values: map<Key, string>, user: Settings)
    requires Faithful(Saved(Kde, values), user)
    ensures var sets := RestoreSets(Kde, values);
            forall i :: 0 <= i < 5 ==> Meaning(sets[i].key, sets[i].value) == Setting(user, sets[i].key)
  {
  }

  lemma {:induction false} GSettingsKeys(values: map<Key, string>, user: Settings)
    requires IsRealistic(user) && Faithful(Saved(GSettings, values), user)
    ensures RestoreSets(GSettings, values) ==
      [Set(Host(Http), values[Host(Http)]), Set(Port(Http), values[Port(Http)]),
       Set(Host(Https), values[Host(Https)]), Set(Port(Https), values[Port(Https)]),
       Set(Host(Socks), values[Host(Socks)]), Set(Port(Socks), values[Port(Socks)]),
       Set(IgnoreHosts, values[IgnoreHosts]), Set(Mode, values[Mode])]
  {
    forall k | Owns(GSettings, k) ensures k in values && values[k] == Read(user, k) {
    }
    hide Faithful;
    assert values[Mode] != "" && values[IgnoreHosts] != "";
    assert forall c :: Owns(GSettings, Port(c)) && Owns(GSettings, Host(c));
    assert forall c :: values[Port(c)] != "";
  }

  /** A restore ends with the mode, which it never leaves empty, even from a document that lacks everything. */
  lemma {:induction false} RestoreEndsWithMode(b: Backend, values: map<Key, string>)
    requires !b.Unsupported?
    ensures |RestoreSets(b, values)| > 0
    ensures var last := RestoreSets(b, values)[|RestoreSets(b, values)| - 1];
      if b.GSettings? then last == Set(Mode, if Read(values, Mode) == "" then "none" else Read(values, Mode))
      else last == Set(ProxyType, if Read(values, ProxyType) == "" then "0" else Read(values, ProxyType))
  {
    hide RestoreChannel, IfNotEmpty;
  }

  lemma {:induction false} RestoreShape(saved: Saved, user: Settings)
    requires IsRealistic(user) && Faithful(saved, user)
    ensures var sets := RestoreSets(saved.backend, saved.values);
            && DistinctSets(sets)
            && (forall i :: 0 <= i < |sets| ==> Owns(saved.backend, sets[i].key))
            && (forall k :: Owns(saved.backend, k) ==> exists i :: 0 <= i < |sets| && sets[i].key == k)
  {
    var b, sets, ours := saved.backend, RestoreSets(saved.backend, saved.values), ApplySets(saved.backend, "", 0);
    RestoreKeys(saved, user);
    ApplySetsShape(b, "", 0);
    hide RestoreSets, ApplySets, Owns, Setting, Faithful, IsRealistic;
    forall k | Owns(b, k) ensures exists i :: 0 <= i < |sets| && sets[i].key == k {
      var i :| 0 <= i < |ours| && ours[i].key == k;
      assert sets[i].key == k;
    }
  }

  /** Some of the writes of a restore were lost; the file is removed all the same. */
  function AfterFailedRestore(d: Disk, sets: seq<Op>, outcomes: seq<Outcome>): Disk
    requires |outcomes| == |sets|
  {
    PerformAll(d, Landed(sets, outcomes) + [Remove])
  }

  lemma {:induction false} ReadFailed(d: Disk, sets: seq<Op>, outcomes: seq<Outcome>, k: Key)
    requires |outcomes| == |sets|
    ensures Read(AfterFailedRestore(d, sets, outcomes).live, k) == LastWrite(Landed(sets, outcomes), k, Read(d.live, k))
    ensures AfterFailedRestore(d, sets, outcomes).file.Absent?
  {
    hide Perform, Landed, LastWrite;
    var landed := Landed(sets, outcomes);
    PerformAllReads(d, landed + [Remove], k);
    LastWriteConcat(landed, [Remove], k, Read(d.live, k));
    RemoveWritesNothing(k, LastWrite(landed, k, Read(d.live, k)));
    PerformOneMore(d, landed, Remove);
    FileRemoved(PerformAll(d, landed));
  }

  lemma {:induction false} FileRemoved(d: Disk)
    ensures Perform(d, Remove).file.Absent?
  {
  }

  /**
   * A restore that loses writes still puts the user's settings back exactly when every setting whose write was
   * lost was the user's already; either way the file is gone.
   */
  lemma {:induction false} FailedRestoreExact(d: Disk, user: Settings, outcomes: seq<Outcome>)
    requires IsRealistic(user) && d.file.Complete? && Safe(d, user)
    requires |outcomes| == |RestoreSets(d.file.saved.backend, d.file.saved.values)|
    ensures var sets := RestoreSets(d.file.saved.backend, d.file.saved.values); var e := AfterFailedRestore(d, sets, outcomes);
      && e.file.Absent?
      && (Same(e.live, user) <==>
            forall i :: 0 <= i < |sets| && sets[i].Set? && outcomes[i].Lost? ==>
              Setting(d.live, sets[i].key) == Setting(user, sets[i].key))
  {
    var b, sets := d.file.saved.backend, RestoreSets(d.file.saved.backend, d.file.saved.values);
    var e := AfterFailedRestore(d, sets, outcomes);
    RestoreKeys(d.file.saved, user);
    RestoreShape(d.file.saved, user);
    ReadFailed(d, sets, outcomes, Mode);
    hide RestoreSets, ApplySets, AfterFailedRestore, Landed, LastWrite, Faithful, IsRealistic, Owns;
    forall i | 0 <= i < |sets|
      ensures Setting(e.live, sets[i].key) == Setting(if outcomes[i].Lost? then d.live else user, sets[i].key)
    {
      ReadFailed(d, sets, outcomes, sets[i].key);
      LandedValue(sets, outcomes, i, Read(d.live, sets[i].key));
    }
    forall k | !Owns(b, k) ensures Setting(e.live, k) == Setting(user, k) {
      ReadFailed(d, sets, outcomes, k);
      LandedUntouched(sets, outcomes, k, Read(d.live, k));
    }
    hide Setting;
  }

  /** A recovery that cannot open the file removes it unread: right exactly when the live settings were the user's. */
  lemma {:induction false} UnopenedFileExact(d: Disk, user: Settings)
    requires d.file.Complete? && Safe(d, user)
    ensures var e := PerformAll(d, RecoveryPlan(d.file, false)); var b := d.file.saved.backend;
      && e.file.Absent?
      && (Same(e.live, user) <==> forall k :: Owns(b, k) ==> Setting(d.live, k) == Setting(user, k))
  {
    hide Setting, Owns;
    assert [Remove][1..] == [];
  }
}
