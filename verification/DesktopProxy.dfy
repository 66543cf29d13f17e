/** The desktop's proxy settings, the restore file, and the operations the client performs on them. */
module DesktopProxy {
  import opened Decimal

  datatype Channel = Http | Https | Socks

  /** Every setting either backend touches. */
  datatype Key =
    | Mode | IgnoreHosts | Host(channel: Channel) | Port(channel: Channel)
    | ProxyType | KdeProxy(channel: Channel) | NoProxyFor

  datatype Backend = Unsupported | GSettings | Kde

  /** Machine-wide settings; a key that was never written reads as "". */
  type Settings = map<Key, string>

  function Read(s: Settings, k: Key): string {
    if k in s then s[k] else ""
  }

  const CHANNELS: seq<Channel> := [Http, Https, Socks]

  predicate Owns(b: Backend, k: Key) {
    match b
    case Unsupported => false
    case GSettings => k.Mode? || k.IgnoreHosts? || k.Host? || k.Port?
    case Kde => k.ProxyType? || k.KdeProxy? || k.NoProxyFor?
  }

  /** An empty ProxyType means "0", no proxy. */
  function Meaning(k: Key, v: string): string {
    if k.ProxyType? && v == "" then "0" else v
  }

  function Setting(s: Settings, k: Key): string {
    Meaning(k, Read(s, k))
  }

  /** Equal in every setting, of both backends. */
  ghost predicate Same(a: Settings, b: Settings) {
    forall k :: Setting(a, k) == Setting(b, k)
  }

  /** gsettings never reports an empty port, ignore list or mode. */
  ghost predicate IsRealistic(user: Settings) {
    forall k: Key :: k.Mode? || k.IgnoreHosts? || k.Port? ==> Read(user, k) != ""
  }

  /** The restore document: the backend it was taken from and the captured values. */
  datatype Saved = Saved(backend: Backend, values: map<Key, string>)

  /** The restore file; `Torn` is a file that does not parse, such as one truncated and not yet written. */
  datatype StateFile = Absent | Torn | Complete(saved: Saved)

  datatype Disk = Disk(live: Settings, file: StateFile)

  /** The atomic steps a kill can fall between. */
  datatype Op = Truncate | Write(saved: Saved) | Set(key: Key, value: string) | Remove

  function Perform(d: Disk, op: Op): Disk {
    match op
    case Truncate => d.(file := Torn)
    case Write(saved) => d.(file := Complete(saved))
    case Set(k, v) => d.(live := d.live[k := v])
    case Remove => d.(file := Absent)
  }

  function PerformAll(d: Disk, ops: seq<Op>): Disk
    decreases |ops|
  {
    if ops == [] then d else PerformAll(Perform(d, ops[0]), ops[1..])
  }

  /** captureGSettings and captureKde: the keys in `unread` could not be read and come back empty. */
  function Capture(b: Backend, live: Settings, unread: set<Key>): Saved {
    Saved(b, map k: Key | k in AllKeys() && Owns(b, k) :: if k in unread then "" else Read(live, k))
  }

  function AllKeys(): set<Key> {
    {Mode, IgnoreHosts, ProxyType, NoProxyFor}
    + {Host(Http), Host(Https), Host(Socks), Port(Http), Port(Https), Port(Socks)}
    + {KdeProxy(Http), KdeProxy(Https), KdeProxy(Socks)}
  }

  lemma {:induction false} EveryKey(k: Key)
    ensures k in AllKeys()
  {
    if k.Host? || k.Port? || k.KdeProxy? {
      match k.channel
      case Http =>
      case Https =>
      case Socks =>
    }
  }

  lemma {:induction false} CaptureReads(b: Backend, live: Settings, unread: set<Key>, k: Key)
    ensures k in Capture(b, live, unread).values <==> Owns(b, k)
    ensures Read(Capture(b, live, unread).values, k) == if Owns(b, k) && k !in unread then Read(live, k) else ""
  {
    EveryKey(k);
  }

  const OUR_IGNORE_HOSTS := "['localhost', '127.0.0.0/8', '::1', '192.168.0.0/16', '10.0.0.0/8', '172.16.0.0/12']"

  /** The redirecting writes in order, the switch-over last. */
  function ApplySets(b: Backend, host: string, port: nat): seq<Op> {
    match b
    case Unsupported => []
    case GSettings =>
      [Set(Host(Http), host), Set(Port(Http), Print(port)),
       Set(Host(Https), host), Set(Port(Https), Print(port)),
       Set(Host(Socks), host), Set(Port(Socks), Print(port)),
       Set(IgnoreHosts, OUR_IGNORE_HOSTS), Set(Mode, "manual")]
    case Kde =>
      [Set(KdeProxy(Http), "http://" + host + " " + Print(port)),
       Set(KdeProxy(Https), "http://" + host + " " + Print(port)),
       Set(KdeProxy(Socks), "socks://" + host + " " + Print(port)),
       Set(NoProxyFor, "localhost,127.0.0.1,::1"), Set(ProxyType, "1")]
  }

  /**
   * Every key of the backend as a desktop that routes to host and port has it: the endpoint for each channel,
   * what is never proxied, and the mode that makes it all live.
   */
  ghost predicate RoutesTo(b: Backend, live: Settings, host: string, port: nat) {
    match b
    case Unsupported => false
    case GSettings =>
      && (forall c :: Read(live, Host(c)) == host && Read(live, Port(c)) == Print(port))
      && Read(live, IgnoreHosts)
         == "['localhost', '127.0.0.0/8', '::1', '192.168.0.0/16', '10.0.0.0/8', '172.16.0.0/12']"
      && Read(live, Mode) == "manual"
    case Kde =>
      && Read(live, KdeProxy(Http)) == "http://" + host + " " + Print(port)
      && Read(live, KdeProxy(Https)) == "http://" + host + " " + Print(port)
      && Read(live, KdeProxy(Socks)) == "socks://" + host + " " + Print(port)
      && Read(live, NoProxyFor) == "localhost,127.0.0.1,::1"
      && Read(live, ProxyType) == "1"
  }

  function IfNotEmpty(k: Key, v: string): seq<Op> {
    if v == "" then [] else [Set(k, v)]
  }

  function RestoreChannel(values: map<Key, string>, c: Channel): seq<Op> {
    (if Host(c) in values then [Set(Host(c), values[Host(c)])] else [])
    + IfNotEmpty(Port(c), Read(values, Port(c)))
  }

  /** restoreGSettings and restoreKde: what was captured, the mode last and never left empty. */
  function RestoreSets(b: Backend, values: map<Key, string>): seq<Op> {
    match b
    case Unsupported => []
    case GSettings =>
      RestoreChannel(values, Http) + RestoreChannel(values, Https) + RestoreChannel(values, Socks)
      + IfNotEmpty(IgnoreHosts, Read(values, IgnoreHosts))
      + [Set(Mode, if Read(values, Mode) == "" then "none" else Read(values, Mode))]
    case Kde =>
      [Set(KdeProxy(Http), Read(values, KdeProxy(Http))), Set(KdeProxy(Https), Read(values, KdeProxy(Https))),
       Set(KdeProxy(Socks), Read(values, KdeProxy(Socks))), Set(NoProxyFor, Read(values, NoProxyFor)),
       Set(ProxyType, Meaning(ProxyType, Read(values, ProxyType)))]
  }

  /**
   * One settings command: it changes the setting or not, and reports success or not. A command that is
   * killed for taking too long reports failure even though its change may have landed.
   */
  datatype Outcome = Done | LandedLate | Lost

  function Landed(sets: seq<Op>, outcomes: seq<Outcome>): seq<Op>
    requires |sets| == |outcomes|
  {
    if sets == [] then []
    else (if outcomes[0].Lost? then [] else [sets[0]]) + Landed(sets[1..], outcomes[1..])
  }

  predicate AllDone(outcomes: seq<Outcome>) {
    forall i :: 0 <= i < |outcomes| ==> outcomes[i].Done?
  }

  function First(n: nat, commands: nat -> Outcome): (outcomes: seq<Outcome>)
    ensures |outcomes| == n && forall i :: 0 <= i < n ==> outcomes[i] == commands(i)
  {
    seq(n, i requires 0 <= i < n => commands(i))
  }

  /** The same for commands issued one after the other, the i-th with outcome commands(i). */
  function Commanded(sets: seq<Op>, commands: nat -> Outcome): seq<Op> {
    Landed(sets, First(|sets|, commands))
  }

  predicate AllSucceed(n: nat, commands: nat -> Outcome) {
    AllDone(First(n, commands))
  }

  /** Everything one call of apply does once the restore file is open. */
  function ApplyOps(b: Backend, saved: Saved, host: string, port: nat, outcomes: seq<Outcome>): seq<Op>
    requires |outcomes| == |ApplySets(b, host, port)|
  {
    [Truncate, Write(saved)] + Landed(ApplySets(b, host, port), outcomes)
    + if AllDone(outcomes) then [] else RestoreSets(b, saved.values) + [Remove]
  }

  /** What revert finds in the file: an unparsable one reads as an empty document. */
  function SavedValues(f: StateFile): map<Key, string> {
    if f.Complete? then f.saved.values else map[]
  }

  function RevertOps(b: Backend, applied: bool, f: StateFile): seq<Op> {
    (if applied then RestoreSets(b, SavedValues(f)) else []) + [Remove]
  }

  function RecoverOps(f: StateFile): seq<Op> {
    match f
    case Absent => []
    case Torn => [Remove]
    case Complete(saved) => RestoreSets(saved.backend, saved.values) + [Remove]
  }
}
