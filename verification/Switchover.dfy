/** What the redirecting writes change, whichever of them land. */
module Switchover {
  import opened DesktopProxy
  import opened CrashSafety
  import opened Decimal
  import opened Text

  /** The setting that decides whether the manual proxies are live. */
  function ModeKey(b: Backend): Key {
    if b.Kde? then ProxyType else Mode
  }

  function ManualMode(b: Backend): string {
    if b.Kde? then "1" else "manual"
  }

  predicate IsManual(b: Backend, s: Settings) {
    Setting(s, ModeKey(b)) == ManualMode(b)
  }

  /** Where traffic goes: hosts, ports and exceptions count only in manual mode. */
  datatype Routing = Automatic(mode: string) | Manual(values: map<Key, string>)

  function ManualValues(b: Backend, s: Settings): map<Key, string> {
    map k | k in AllKeys() && Owns(b, k) :: Setting(s, k)
  }

  function RoutingOf(b: Backend, s: Settings): Routing {
    if IsManual(b, s) then Manual(ManualValues(b, s))
    else Automatic(Setting(s, ModeKey(b)))
  }

  lemma {:induction false} RoutingEquals(b: Backend, s: Settings, t: Settings)
    ensures RoutingOf(b, s) == RoutingOf(b, t) <==>
      && Setting(s, ModeKey(b)) == Setting(t, ModeKey(b))
      && (IsManual(b, s) ==> forall k :: Owns(b, k) ==> Setting(s, k) == Setting(t, k))
  {
    ValuesEqual(b, s, t);
    hide ManualValues, Setting, Owns;
  }

  lemma {:induction false} ValuesEqual(b: Backend, s: Settings, t: Settings)
    ensures ManualValues(b, s) == ManualValues(b, t) <==> forall k :: Owns(b, k) ==> Setting(s, k) == Setting(t, k)
  {
    forall k ensures k in AllKeys() { EveryKey(k); }
    hide AllKeys, Setting, Owns;
    var v, w := ManualValues(b, s), ManualValues(b, t);
    forall k | Owns(b, k) ensures k in v && k in w && v[k] == Setting(s, k) && w[k] == Setting(t, k) {
    }
  }

  /** No later write of the list touches the key of an earlier one. */
  predicate DistinctSets(ops: seq<Op>) {
    && (forall i :: 0 <= i < |ops| ==> ops[i].Set?)
    && (forall i, j :: 0 <= i < j < |ops| ==> ops[i].key != ops[j].key)
  }

  lemma {:induction false} Untouched(ops: seq<Op>, k: Key, old_: string)
    requires forall i :: 0 <= i < |ops| ==> ops[i].Set? && ops[i].key != k
    ensures LastWrite(ops, k, old_) == old_
  {
    if ops != [] {
      Untouched(ops[1..], k, old_);
    }
  }

  lemma {:induction false} Written(ops: seq<Op>, i: nat, old_: string)
    requires DistinctSets(ops) && i < |ops|
    ensures LastWrite(ops, ops[i].key, old_) == ops[i].value
  {
    if i == 0 {
      Untouched(ops[1..], ops[0].key, ops[0].value);
    } else {
      assert DistinctSets(ops[1..]);
      Written(ops[1..], i - 1, old_);
    }
  }

  lemma {:induction false} ApplySetsShape(b: Backend, host: string, port: nat)
    requires !b.Unsupported?
    ensures var sets := ApplySets(b, host, port);
            && DistinctSets(sets) && |sets| >= 1
            && sets[|sets| - 1] == Set(ModeKey(b), ManualMode(b))
            && (forall i :: 0 <= i < |sets| ==> Owns(b, sets[i].key) && Meaning(sets[i].key, sets[i].value) == sets[i].value)
            && (forall k :: Owns(b, k) ==> exists i :: 0 <= i < |sets| && sets[i].key == k)
  {
    hide Print;
    var sets := ApplySets(b, host, port);
    forall k | Owns(b, k) ensures exists i :: 0 <= i < |sets| && sets[i].key == k {
      KeyIsSet(b, host, port, k);
    }
  }

  lemma {:induction false} KeyIsSet(b: Backend, host: string, port: nat, k: Key)
    requires Owns(b, k)
    ensures var sets := ApplySets(b, host, port); exists i :: 0 <= i < |sets| && sets[i].key == k
  {
    hide Print;
    var sets := ApplySets(b, host, port);
    if b.Kde? {
      assert sets[0].key == KdeProxy(Http) && sets[1].key == KdeProxy(Https) && sets[2].key == KdeProxy(Socks);
      assert sets[3].key == NoProxyFor && sets[4].key == ProxyType;
    } else {
      assert sets[0].key == Host(Http) && sets[1].key == Port(Http) && sets[2].key == Host(Https) && sets[3].key == Port(Https);
      assert sets[4].key == Host(Socks) && sets[5].key == Port(Socks) && sets[6].key == IgnoreHosts && sets[7].key == Mode;
    }
    if k.Host? || k.Port? || k.KdeProxy? {
      match k.channel
      case Http =>
      case Https =>
      case Socks =>
    }
  }

  lemma {:induction false} LandedUntouched(sets: seq<Op>, outcomes: seq<Outcome>, k: Key, old_: string)
    requires |sets| == |outcomes| && forall i :: 0 <= i < |sets| ==> sets[i].Set? && sets[i].key != k
    ensures LastWrite(Landed(sets, outcomes), k, old_) == old_
  {
    if sets != [] {
      LandedUntouched(sets[1..], outcomes[1..], k, old_);
      LandedFirst(sets, outcomes, k, old_);
    }
  }

  lemma {:induction false} LandedFirst(sets: seq<Op>, outcomes: seq<Outcome>, k: Key, old_: string)
    requires |sets| == |outcomes| > 0 && sets[0].Set?
    ensures LastWrite(Landed(sets, outcomes), k, old_)
         == LastWrite(Landed(sets[1..], outcomes[1..]), k,
                      if !outcomes[0].Lost? && sets[0].key == k then sets[0].value else old_)
  {
    var rest := Landed(sets[1..], outcomes[1..]);
    if !outcomes[0].Lost? {
      assert ([sets[0]] + rest)[1..] == rest;
    } else {
      assert [] + rest == rest;
    }
  }

  /** What some of the writes of a list leave in a key of it: the value if that write landed, else the old one. */
  lemma {:induction false} LandedValue(sets: seq<Op>, outcomes: seq<Outcome>, i: nat, old_: string)
    requires DistinctSets(sets) && |sets| == |outcomes| && i < |sets|
    ensures LastWrite(Landed(sets, outcomes), sets[i].key, old_) == if outcomes[i].Lost? then old_ else sets[i].value
    decreases |sets|
  {
    LandedFirst(sets, outcomes, sets[i].key, old_);
    if i == 0 {
      LandedUntouched(sets[1..], outcomes[1..], sets[0].key, if outcomes[0].Lost? then old_ else sets[0].value);
    } else {
      LandedValue(sets[1..], outcomes[1..], i - 1, old_);
    }
  }

  /** A kill after n commands leaves what losing all the later ones would leave. */
  lemma {:induction false} KillIsLoss(sets: seq<Op>, outcomes: seq<Outcome>, n: nat)
    requires |sets| == |outcomes| && n <= |sets|
    ensures Landed(sets[..n], outcomes[..n]) == Landed(sets, outcomes[..n] + seq(|sets| - n, _ => Lost))
    decreases |sets|
  {
    if sets != [] {
      var all := outcomes[..n] + seq(|sets| - n, _ => Lost);
      if n == 0 {
        KillIsLoss(sets[1..], outcomes[1..], 0);
        assert all[1..] == outcomes[1..][..0] + seq(|sets| - 1, _ => Lost);
        assert sets[..0] == [] == sets[1..][..0];
      } else {
        KillIsLoss(sets[1..], outcomes[1..], n - 1);
        assert all[1..] == outcomes[1..][..n - 1] + seq(|sets| - n, _ => Lost);
        assert sets[..n][1..] == sets[1..][..n - 1] && outcomes[..n][1..] == outcomes[1..][..n - 1];
      }
    }
  }

  /** The live settings after those redirecting writes that land. */
  function Redirected(d: Disk, b: Backend, host: string, port: nat, outcomes: seq<Outcome>): Settings
    requires |outcomes| == |ApplySets(b, host, port)|
  {
    PerformAll(d, Landed(ApplySets(b, host, port), outcomes)).live
  }

  lemma {:induction false} ReadRedirected(d: Disk, b: Backend, host: string, port: nat, outcomes: seq<Outcome>, i: nat)
    requires !b.Unsupported? && |outcomes| == |ApplySets(b, host, port)| && i < |outcomes|
    ensures var op := ApplySets(b, host, port)[i];
            Read(Redirected(d, b, host, port, outcomes), op.key) == if outcomes[i].Lost? then Read(d.live, op.key) else op.value
  {
    ApplySetsShape(b, host, port);
    hide ApplySets, Landed;
    var sets := ApplySets(b, host, port);
    PerformAllReads(d, Landed(sets, outcomes), sets[i].key);
    LandedValue(sets, outcomes, i, Read(d.live, sets[i].key));
  }

  lemma {:induction false} ReadForeign(d: Disk, b: Backend, host: string, port: nat, outcomes: seq<Outcome>, k: Key)
    requires !b.Unsupported? && |outcomes| == |ApplySets(b, host, port)| && !Owns(b, k)
    ensures Read(Redirected(d, b, host, port, outcomes), k) == Read(d.live, k)
  {
    ApplySetsShape(b, host, port);
    hide ApplySets, Landed;
    var sets := ApplySets(b, host, port);
    PerformAllReads(d, Landed(sets, outcomes), k);
    LandedUntouched(sets, outcomes, k, Read(d.live, k));
  }

  /** Every key of the backend is the key of one write. */
  lemma {:induction false} SettingRedirected(d: Disk, b: Backend, host: string, port: nat, outcomes: seq<Outcome>, i: nat)
    requires !b.Unsupported? && |outcomes| == |ApplySets(b, host, port)| && i < |outcomes|
    ensures var op := ApplySets(b, host, port)[i];
            Setting(Redirected(d, b, host, port, outcomes), op.key) == if outcomes[i].Lost? then Setting(d.live, op.key) else op.value
  {
    ReadRedirected(d, b, host, port, outcomes, i);
    ApplySetsShape(b, host, port);
    hide ApplySets, Redirected;
  }

  /** The user already routes manually to this very endpoint and exception list. */
  predicate IsAlreadyOurs(b: Backend, live: Settings, host: string, port: nat) {
    var sets := ApplySets(b, host, port);
    forall i :: 0 <= i < |sets| ==> Setting(live, sets[i].key) == sets[i].value
  }

  /** Having all our values is routing to host and port. */
  lemma {:induction false} OursIsRouted(b: Backend, live: Settings, host: string, port: nat)
    requires !b.Unsupported?
    ensures IsAlreadyOurs(b, live, host, port) <==> RoutesTo(b, live, host, port)
  {
    hide Print;
    if b.Kde? {
      KdeIsRouted(live, host, port);
    } else {
      GSettingsIsRouted(live, host, port);
    }
  }

  lemma {:induction false} KdeIsRouted(live: Settings, host: string, port: nat)
    ensures IsAlreadyOurs(Kde, live, host, port) <==> RoutesTo(Kde, live, host, port)
  {
    hide Print;
    var sets := ApplySets(Kde, host, port);
    assert IsAlreadyOurs(Kde, live, host, port) <==>
      && Setting(live, sets[0].key) == sets[0].value && Setting(live, sets[1].key) == sets[1].value
      && Setting(live, sets[2].key) == sets[2].value && Setting(live, sets[3].key) == sets[3].value
      && Setting(live, sets[4].key) == sets[4].value;
  }

  lemma {:induction false} GSettingsIsRouted(live: Settings, host: string, port: nat)
    ensures IsAlreadyOurs(GSettings, live, host, port) <==> RoutesTo(GSettings, live, host, port)
  {
    hide Print;
    var sets := ApplySets(GSettings, host, port);
    assert IsAlreadyOurs(GSettings, live, host, port) <==>
      && Setting(live, sets[0].key) == sets[0].value && Setting(live, sets[1].key) == sets[1].value
      && Setting(live, sets[2].key) == sets[2].value && Setting(live, sets[3].key) == sets[3].value
      && Setting(live, sets[4].key) == sets[4].value && Setting(live, sets[5].key) == sets[5].value
      && Setting(live, sets[6].key) == sets[6].value && Setting(live, sets[7].key) == sets[7].value;
    forall c
      ensures Read(live, Host(Http)) == Read(live, Host(Https)) == Read(live, Host(Socks)) == host ==> Read(live, Host(c)) == host
      ensures Read(live, Port(Http)) == Read(live, Port(Https)) == Read(live, Port(Socks)) == Print(port) ==>
        Read(live, Port(c)) == Print(port)
    {
      match c
      case Http =>
      case Https =>
      case Socks =>
    }
  }

  /** Whichever writes land, as long as the last does not, traffic goes where it went. */
  ghost predicate UnchangedBeforeSwitch(d: Disk, b: Backend, host: string, port: nat) {
    var n := |ApplySets(b, host, port)|;
    forall outcomes: seq<Outcome> :: |outcomes| == n > 0 && outcomes[n - 1].Lost? ==>
      RoutingOf(b, Redirected(d, b, host, port, outcomes)) == RoutingOf(b, d.live)
  }

  lemma {:induction false} AutomaticStays(d: Disk, b: Backend, host: string, port: nat, outcomes: seq<Outcome>)
    requires !b.Unsupported? && |outcomes| == |ApplySets(b, host, port)| && outcomes[|outcomes| - 1].Lost?
    requires !IsManual(b, d.live) || IsAlreadyOurs(b, d.live, host, port)
    ensures RoutingOf(b, Redirected(d, b, host, port, outcomes)) == RoutingOf(b, d.live)
  {
    ApplySetsShape(b, host, port);
    hide ApplySets, RoutingOf, Setting, Redirected;
    var sets, s := ApplySets(b, host, port), Redirected(d, b, host, port, outcomes);
    SettingRedirected(d, b, host, port, outcomes, |sets| - 1);
    RoutingEquals(b, s, d.live);
    forall k | Owns(b, k) && IsManual(b, d.live) ensures Setting(s, k) == Setting(d.live, k) {
      var i :| 0 <= i < |sets| && sets[i].key == k;
      SettingRedirected(d, b, host, port, outcomes, i);
    }
  }

  /** One write landing alone. */
  function Only(n: nat, i: nat): (outcomes: seq<Outcome>)
    requires i < n
    ensures |outcomes| == n && forall j :: 0 <= j < n ==> outcomes[j] == if j == i then Done else Lost
  {
    seq(n, j => if j == i then Done else Lost)
  }

  lemma {:induction false} ManualIsOurs(d: Disk, b: Backend, host: string, port: nat)
    requires !b.Unsupported? && IsManual(b, d.live) && UnchangedBeforeSwitch(d, b, host, port)
    ensures IsAlreadyOurs(b, d.live, host, port)
  {
    ApplySetsShape(b, host, port);
    hide ApplySets, RoutingOf, Setting, Redirected;
    var sets := ApplySets(b, host, port);
    forall i | 0 <= i < |sets| ensures Setting(d.live, sets[i].key) == sets[i].value {
      if i < |sets| - 1 {
        var one := Only(|sets|, i);
        SettingRedirected(d, b, host, port, one, i);
        RoutingEquals(b, Redirected(d, b, host, port, one), d.live);
      }
    }
  }

  /**
   * A single switch-over step: no redirecting write but the last can change where traffic goes, whichever of
   * them land, exactly when the user was not routing manually, or was already routing to us.
   */
  lemma {:induction false} SingleSwitchOver(d: Disk, b: Backend, host: string, port: nat)
    requires !b.Unsupported?
    ensures UnchangedBeforeSwitch(d, b, host, port) <==> !IsManual(b, d.live) || RoutesTo(b, d.live, host, port)
  {
    ApplySetsShape(b, host, port);
    OursIsRouted(b, d.live, host, port);
    hide ApplySets, RoutingOf, Redirected, IsManual, IsAlreadyOurs, RoutesTo;
    if !IsManual(b, d.live) || IsAlreadyOurs(b, d.live, host, port) {
      var n := |ApplySets(b, host, port)|;
      forall outcomes: seq<Outcome> | |outcomes| == n > 0 && outcomes[n - 1].Lost?
        ensures RoutingOf(b, Redirected(d, b, host, port, outcomes)) == RoutingOf(b, d.live)
      {
        AutomaticStays(d, b, host, port, outcomes);
      }
    } else if UnchangedBeforeSwitch(d, b, host, port) {
      ManualIsOurs(d, b, host, port);
    }
  }

  lemma {:induction false} AllAreSets(b: Backend, host: string, port: nat)
    ensures forall i :: 0 <= i < |ApplySets(b, host, port)| ==> ApplySets(b, host, port)[i].Set?
  {
    hide Print;
  }

  /** The desktop ends up redirected exactly when every write that was lost was not needed. */
  lemma {:induction false} SwitchOverRedirects(d: Disk, b: Backend, host: string, port: nat, outcomes: seq<Outcome>)
    requires !b.Unsupported? && |outcomes| == |ApplySets(b, host, port)|
    ensures var sets := ApplySets(b, host, port);
            RoutesTo(b, Redirected(d, b, host, port, outcomes), host, port) <==>
            forall i :: 0 <= i < |sets| && outcomes[i].Lost? ==> Setting(d.live, sets[i].key) == sets[i].value
  {
    AllAreSets(b, host, port);
    OursIsRouted(b, Redirected(d, b, host, port, outcomes), host, port);
    hide ApplySets, Redirected, Setting, RoutesTo;
    var sets, live := ApplySets(b, host, port), Redirected(d, b, host, port, outcomes);
    forall i | 0 <= i < |sets|
      ensures Setting(live, sets[i].key) == sets[i].value <==>
              (outcomes[i].Lost? ==> Setting(d.live, sets[i].key) == sets[i].value)
    {
      SettingRedirected(d, b, host, port, outcomes, i);
    }
  }

  /** Where an application that obeys the desktop sends its traffic. */
  datatype Target = Direct | Proxy(host: string, port: int)

  /** How KDE takes one entry apart: scheme, host, gap, port. */
  function Parsed(url: string): Target {
    var start, gap := IndexOfText(url, "://"), LastIndexOf(url, ' ');
    if 0 <= start && start + 3 <= gap then Proxy(url[start + 3..gap], ToInt(url[gap + 1..])) else Direct
  }

  /** How the desktop's own readers take the keys of one channel apart. */
  function TargetOf(b: Backend, live: Settings, c: Channel): Target {
    match b
    case Unsupported => Direct
    case GSettings =>
      if Read(live, Mode) == "manual" then Proxy(Read(live, Host(c)), ToInt(Read(live, Port(c)))) else Direct
    case Kde => if Read(live, ProxyType) == "1" then Parsed(Read(live, KdeProxy(c))) else Direct
  }

  /** On a redirected desktop, applications find our host and our port, on every channel. */
  lemma {:induction false} ApplicationsFollow(b: Backend, live: Settings, host: string, port: nat, c: Channel)
    requires RoutesTo(b, live, host, port) && port <= INT_MAX
    ensures TargetOf(b, live, c) == Proxy(host, port)
  {
    hide Print, ToInt, Parsed;
    if b.GSettings? {
      ToIntOfPrint(port);
    } else if c.Socks? {
      assert "socks://"[5..] == "://" && "socks://"[..5] == "socks";
      EntryIsParsed("socks://", host, port);
    } else {
      assert "http://"[4..] == "://" && "http://"[..4] == "http";
      EntryIsParsed("http://", host, port);
    }
  }

  lemma {:induction false} EntryIsParsed(prefix: string, host: string, port: nat)
    requires |prefix| >= 3 && prefix[|prefix| - 3..] == "://" && ':' !in prefix[..|prefix| - 3] && port <= INT_MAX
    ensures Parsed(prefix + host + " " + Print(port)) == Proxy(host, port)
  {
    hide Print, ToInt, IndexOfText, LastIndexOf;
    ToIntOfPrint(port);
    NoGapInDigits(port);
    var front, digits := prefix + host, Print(port);
    var url, rest := front + " " + digits, host + " " + digits;
    SchemeEnds(prefix, rest);
    assert url == prefix + rest;
    assert url == front + [' '] + digits;
    LastIndexOfSplit(front, ' ', digits);
    hide *;
    assert front[|prefix|..] == host;
    EntryIsCut(url, front, digits, |prefix|);
  }

  lemma {:induction false} SchemeEnds(prefix: string, rest: string)
    requires |prefix| >= 3 && prefix[|prefix| - 3..] == "://" && ':' !in prefix[..|prefix| - 3]
    ensures IndexOfText(prefix + rest, "://") == |prefix| - 3
  {
    hide IndexOfText;
    var scheme := prefix[..|prefix| - 3];
    assert prefix + rest == scheme + "://" + rest;
    IndexOfTextAfter(scheme, "://", rest);
  }

  lemma {:induction false} EntryIsCut(url: string, front: string, digits: string, start: nat)
    requires url == front + [' '] + digits && 3 <= start <= |front|
    requires IndexOfText(url, "://") == start - 3 && LastIndexOf(url, ' ') == |front|
    ensures Parsed(url) == Proxy(front[start..], ToInt(digits))
  {
    hide IndexOfText, LastIndexOf, ToInt;
    assert url[start..|front|] == front[start..];
    assert url[|front| + 1..] == digits;
  }

  lemma {:induction false} NoGapInDigits(n: nat)
    ensures ' ' !in Print(n)
  {
    hide Print;
    assert !IsDigit(' ');
  }
}
