/** The node list and its latency probes: a bounded pool that may be re-entered while it is being filled. */
module ProbePool {
  import opened ProxyNodes

  const MAX_CONCURRENT := 32
  const UNREACHABLE := 9999

  datatype PendingProbe = PendingProbe(id: string, host: string, port: nat)

  /** A probe in flight: what it dials and the list generation it was started for. */
  datatype Probe = Probe(target: PendingProbe, generation: nat)

  /** A finished probe: what was dialled and what came of it. */
  datatype Measurement = Measurement(host: string, port: nat, delay: int)

  predicate IsDialable(n: ProxyNode) {
    n.address != "" && n.port != 0
  }

  function TargetOf(n: ProxyNode): PendingProbe {
    PendingProbe(n.id, n.address, n.port)
  }

  /** The probes a run queues: one for every dialable row, in row order. */
  function Targets(nodes: seq<ProxyNode>): seq<PendingProbe> {
    if nodes == [] then []
    else
      var n := nodes[|nodes| - 1];
      Targets(nodes[..|nodes| - 1]) + if IsDialable(n) then [TargetOf(n)] else []
  }

  /** A queue that probes every row with an endpoint, once, in row order, at that row's own endpoint. */
  predicate IsQueueOf(queue: seq<PendingProbe>, rows: seq<nat>, nodes: seq<ProxyNode>) {
    && |rows| == |queue|
    && (forall j, k :: 0 <= j < k < |rows| ==> rows[j] < rows[k])
    && (forall j :: 0 <= j < |rows| ==>
          && rows[j] < |nodes|
          && nodes[rows[j]].address != "" && nodes[rows[j]].port != 0
          && queue[j].id == nodes[rows[j]].id
          && queue[j].host == nodes[rows[j]].address && queue[j].port == nodes[rows[j]].port)
    && (forall i :: 0 <= i < |nodes| && nodes[i].address != "" && nodes[i].port != 0 ==> i in rows)
  }

  ghost predicate ProbesEveryRow(queue: seq<PendingProbe>, nodes: seq<ProxyNode>) {
    exists rows :: IsQueueOf(queue, rows, nodes)
  }

  lemma {:induction false} TargetsExactly(nodes: seq<ProxyNode>) returns (rows: seq<nat>)
    ensures IsQueueOf(Targets(nodes), rows, nodes)
    ensures ProbesEveryRow(Targets(nodes), nodes)
  {
    rows := [];
    if nodes != [] {
      var m := |nodes| - 1;
      var before := TargetsExactly(nodes[..m]);
      rows := before + if IsDialable(nodes[m]) then [m] else [];
      OneMoreRow(Targets(nodes[..m]), before, nodes);
    }
    assert IsQueueOf(Targets(nodes), rows, nodes);
  }

  lemma {:induction false} OneMoreRow(queue: seq<PendingProbe>, rows: seq<nat>, nodes: seq<ProxyNode>)
    requires nodes != [] && IsQueueOf(queue, rows, nodes[..|nodes| - 1])
    ensures var m := |nodes| - 1;
            if IsDialable(nodes[m]) then IsQueueOf(queue + [TargetOf(nodes[m])], rows + [m], nodes)
            else IsQueueOf(queue + [], rows + [], nodes)
  {
    var m := |nodes| - 1;
    assert queue + [] == queue && rows + [] == rows;
    assert forall i :: 0 <= i < m ==> nodes[..m][i] == nodes[i];
    forall i | 0 <= i < m && nodes[i].address != "" && nodes[i].port != 0 ensures i in rows {
      assert nodes[..m][i] == nodes[i];
    }
    assert (rows + [m])[|rows|] == m;
  }

  /** The list with every delay forgotten. */
  function Erased(nodes: seq<ProxyNode>): (e: seq<ProxyNode>)
    ensures |e| == |nodes|
    ensures forall i :: 0 <= i < |nodes| ==> e[i] == nodes[i].(delay := UNTESTED)
  {
    seq(|nodes|, i requires 0 <= i < |nodes| => nodes[i].(delay := UNTESTED))
  }

  /** The list without what probing can change: the delays of dialable rows. */
  function Unprobed(nodes: seq<ProxyNode>): (e: seq<ProxyNode>)
    ensures |e| == |nodes|
    ensures forall i :: 0 <= i < |nodes| ==> e[i] == if IsDialable(nodes[i]) then nodes[i].(delay := UNTESTED) else nodes[i]
  {
    seq(|nodes|, i requires 0 <= i < |nodes| => if IsDialable(nodes[i]) then nodes[i].(delay := UNTESTED) else nodes[i])
  }

  /** Probing leaves every row's identity alone. */
  lemma {:induction false} UnprobedFixesErased(a: seq<ProxyNode>, b: seq<ProxyNode>)
    requires Unprobed(a) == Unprobed(b)
    ensures Erased(a) == Erased(b)
    ensures forall i :: 0 <= i < |a| && !IsDialable(a[i]) ==> b[i] == a[i]
  {
    forall i | 0 <= i < |a| ensures Erased(a)[i] == Erased(b)[i] && (!IsDialable(a[i]) ==> b[i] == a[i]) {
      assert Unprobed(a)[i] == Unprobed(b)[i];
    }
  }

  predicate HasRow(nodes: seq<ProxyNode>, id: string) {
    exists i :: 0 <= i < |nodes| && nodes[i].id == id
  }

  predicate IsTargetOfRow(t: PendingProbe, nodes: seq<ProxyNode>) {
    exists i :: 0 <= i < |nodes| && TargetOf(nodes[i]) == t && IsDialable(nodes[i])
  }

  /** A row's delay is unset, measured on that row's own endpoint, or the sentinel of a row with none. */
  predicate IsHonest(n: ProxyNode, results: set<Measurement>) {
    || n.delay == UNTESTED
    || (!IsDialable(n) && n.delay == UNREACHABLE)
    || Measurement(n.address, n.port, n.delay) in results
  }

  predicate AllHonest(nodes: seq<ProxyNode>, results: set<Measurement>) {
    forall i :: 0 <= i < |nodes| ==> IsHonest(nodes[i], results)
  }

  lemma {:induction false} TargetsBelongToRows(nodes: seq<ProxyNode>, t: PendingProbe)
    requires t in Targets(nodes)
    ensures IsTargetOfRow(t, nodes)
  {
    var m := |nodes| - 1;
    if t in Targets(nodes[..m]) {
      TargetsBelongToRows(nodes[..m], t);
      var i :| 0 <= i < m && TargetOf(nodes[..m][i]) == t && IsDialable(nodes[..m][i]);
      assert nodes[i] == nodes[..m][i];
    } else {
      assert TargetOf(nodes[m]) == t;
    }
  }

  /** Forgetting delays keeps targets. */
  lemma {:induction false} TargetsIgnoreDelays(t: PendingProbe, a: seq<ProxyNode>, b: seq<ProxyNode>)
    requires Erased(a) == Erased(b) && IsTargetOfRow(t, a)
    ensures IsTargetOfRow(t, b)
  {
    var i :| 0 <= i < |a| && TargetOf(a[i]) == t && IsDialable(a[i]);
    assert Erased(a)[i] == Erased(b)[i];
    assert TargetOf(b[i]) == t;
  }

  /** A result that was written onto the list. */
  datatype Landing = Landing(target: PendingProbe, delay: int)

  /** The list with the first row of this id showing `delay`. */
  function WithDelay(nodes: seq<ProxyNode>, id: string, delay: int): (r: seq<ProxyNode>)
    ensures |r| == |nodes|
  {
    if nodes == [] then []
    else if nodes[0].id == id then [nodes[0].(delay := delay)] + nodes[1..]
    else [nodes[0]] + WithDelay(nodes[1..], id, delay)
  }

  lemma {:induction false} WithDelayAt(nodes: seq<ProxyNode>, id: string, delay: int, k: nat)
    requires k < |nodes| && nodes[k].id == id
    requires forall i :: 0 <= i < k ==> nodes[i].id != id
    ensures WithDelay(nodes, id, delay) == nodes[k := nodes[k].(delay := delay)]
  {
    if k > 0 {
      WithDelayAt(nodes[1..], id, delay, k - 1);
    }
  }

  /** The list after results landed on it one by one. */
  function Replay(nodes: seq<ProxyNode>, landed: seq<Landing>): seq<ProxyNode> {
    if landed == [] then nodes
    else
      var l := landed[|landed| - 1];
      WithDelay(Replay(nodes, landed[..|landed| - 1]), l.target.id, l.delay)
  }

  lemma {:induction false} ReplayOneMore(nodes: seq<ProxyNode>, landed: seq<Landing>, l: Landing)
    ensures Replay(nodes, landed + [l]) == WithDelay(Replay(nodes, landed), l.target.id, l.delay)
  {
    assert (landed + [l])[..|landed|] == landed;
  }

  lemma {:induction false} ReplayKeepsRows(nodes: seq<ProxyNode>, landed: seq<Landing>)
    ensures Erased(Replay(nodes, landed)) == Erased(nodes)
  {
    if landed != [] {
      var n := |landed| - 1;
      ReplayKeepsRows(nodes, landed[..n]);
      WithDelayKeepsRows(Replay(nodes, landed[..n]), landed[n].target.id, landed[n].delay);
    }
  }

  lemma {:induction false} WithDelayKeepsRows(nodes: seq<ProxyNode>, id: string, delay: int)
    ensures Erased(WithDelay(nodes, id, delay)) == Erased(nodes)
  {
    if nodes != [] && nodes[0].id != id {
      WithDelayKeepsRows(nodes[1..], id, delay);
      var a, b := WithDelay(nodes, id, delay), nodes;
      forall i | 0 <= i < |b| ensures Erased(a)[i] == Erased(b)[i] {
        if i > 0 { assert Erased(a[1..])[i - 1] == Erased(b[1..])[i - 1]; }
      }
    }
  }

  /** Rows of another id do not change. */
  lemma {:induction false} WithDelayElsewhere(nodes: seq<ProxyNode>, id: string, delay: int, k: nat)
    requires k < |nodes| && nodes[k].id != id
    ensures WithDelay(nodes, id, delay)[k] == nodes[k]
  {
    if nodes[0].id != id && k > 0 {
      WithDelayElsewhere(nodes[1..], id, delay, k - 1);
    }
  }

  /** The one landing of a row: at its own endpoint, and no other for its id. */
  predicate IsOnlyLanding(landed: seq<Landing>, j: nat, n: ProxyNode) {
    && j < |landed|
    && landed[j].target.id == n.id && landed[j].target.host == n.address && landed[j].target.port == n.port
    && forall k :: 0 <= k < |landed| && k != j ==> landed[k].target.id != n.id
  }

  lemma {:induction false} ReplayElsewhere(nodes: seq<ProxyNode>, landed: seq<Landing>, i: nat)
    requires i < |nodes| && forall k :: 0 <= k < |landed| ==> landed[k].target.id != nodes[i].id
    ensures |Replay(nodes, landed)| == |nodes| && Replay(nodes, landed)[i] == nodes[i]
  {
    if landed != [] {
      var n := |landed| - 1;
      ReplayElsewhere(nodes, landed[..n], i);
      WithDelayElsewhere(Replay(nodes, landed[..n]), landed[n].target.id, landed[n].delay, i);
    }
  }

  /** A row shows the delay of its one landing. */
  lemma {:induction false} ReplayAtRow(nodes: seq<ProxyNode>, landed: seq<Landing>, i: nat, j: nat)
    requires Positional(nodes) && i < |nodes| && IsOnlyLanding(landed, j, nodes[i])
    ensures |Replay(nodes, landed)| == |nodes| && Replay(nodes, landed)[i] == nodes[i].(delay := landed[j].delay)
    decreases |landed|
  {
    hide NodeId;
    var n := |landed| - 1;
    var before := Replay(nodes, landed[..n]);
    if j == n {
      ReplayElsewhere(nodes, landed[..n], i);
      ReplayKeepsRows(nodes, landed[..n]);
      SameIds(before, nodes);
      FirstOfItsId(before, i);
      WithDelayAt(before, landed[n].target.id, landed[n].delay, i);
    } else {
      assert IsOnlyLanding(landed[..n], j, nodes[i]);
      ReplayAtRow(nodes, landed[..n], i, j);
      WithDelayElsewhere(before, landed[n].target.id, landed[n].delay, i);
    }
  }

  lemma {:induction false} SameIds(a: seq<ProxyNode>, b: seq<ProxyNode>)
    requires Erased(a) == Erased(b)
    ensures |a| == |b| && forall i :: 0 <= i < |a| ==> a[i].id == b[i].id
    ensures Positional(b) ==> Positional(a)
  {
    hide NodeId;
    forall i | 0 <= i < |a| ensures a[i].id == b[i].id {
      assert Erased(a)[i] == Erased(b)[i];
    }
  }

  lemma {:induction false} RowIsQueued(queue: seq<PendingProbe>, rows: seq<nat>, nodes: seq<ProxyNode>, i: nat) returns (r: nat)
    requires IsQueueOf(queue, rows, nodes) && i < |nodes| && IsDialable(nodes[i])
    ensures r < |rows| == |queue| && rows[r] == i && queue[r] == TargetOf(nodes[i])
  {
    r :| 0 <= r < |rows| && rows[r] == i;
  }

  /** In a finished run, each row with an endpoint has one landing and one only. */
  lemma {:induction false} LandingOfRow(nodes: seq<ProxyNode>, landed: seq<Landing>, i: nat) returns (j: nat)
    requires Positional(nodes) && multiset(Targets(nodes)) == multiset(LandedTargets(landed))
    requires i < |nodes| && IsDialable(nodes[i])
    ensures IsOnlyLanding(landed, j, nodes[i])
  {
    hide NodeId, IsQueueOf, Positional, Targets, IsDialable, ProbesEveryRow;
    var rows := TargetsExactly(nodes);
    var queue, t, done := Targets(nodes), TargetOf(nodes[i]), LandedTargets(landed);
    var r := RowIsQueued(queue, rows, nodes, i);
    TargetsAppearOnce(nodes, rows, r);
    assert t in multiset(queue);
    j :| 0 <= j < |done| && done[j] == t;
    forall k | 0 <= k < |landed| && k != j ensures landed[k].target.id != nodes[i].id {
      if landed[k].target.id == nodes[i].id {
        LandingIsOfRow(nodes, landed, k, i);
        TwoMeansTwo(done, j, k);
        assert false;
      }
    }
  }

  lemma {:induction false} LandingIsOfRow(nodes: seq<ProxyNode>, landed: seq<Landing>, k: nat, i: nat)
    requires Positional(nodes) && multiset(Targets(nodes)) == multiset(LandedTargets(landed))
    requires k < |landed| && i < |nodes| && landed[k].target.id == nodes[i].id
    ensures landed[k].target == TargetOf(nodes[i]) && IsDialable(nodes[i])
  {
    hide NodeId;
    var t := LandedTargets(landed)[k];
    assert t in multiset(Targets(nodes));
    TargetsBelongToRows(nodes, t);
    var m :| 0 <= m < |nodes| && TargetOf(nodes[m]) == t && IsDialable(nodes[m]);
    PositionalIdsDistinct(nodes, m, i);
  }

  lemma {:induction false} TwoMeansTwo<T>(s: seq<T>, j: nat, k: nat)
    requires j < |s| && k < |s| && j != k && s[j] == s[k]
    ensures multiset(s)[s[j]] >= 2
  {
    var a, b := if j < k then j else k, if j < k then k else j;
    assert s == s[..a] + [s[a]] + s[a + 1..b] + [s[b]] + s[b + 1..];
  }

  lemma {:induction false} TargetsAppearOnce(nodes: seq<ProxyNode>, rows: seq<nat>, r: nat)
    requires Positional(nodes) && IsQueueOf(Targets(nodes), rows, nodes) && r < |rows|
    ensures multiset(Targets(nodes))[Targets(nodes)[r]] == 1
  {
    hide NodeId;
    var queue := Targets(nodes);
    var t := queue[r];
    forall k | 0 <= k < |queue| && k != r ensures queue[k] != t {
      PositionalIdsDistinct(nodes, rows[k], rows[r]);
    }
    assert queue == queue[..r] + [t] + queue[r + 1..];
    assert t !in queue[..r] && t !in queue[r + 1..];
  }

  function LandedTargets(landed: seq<Landing>): seq<PendingProbe> {
    seq(|landed|, i requires 0 <= i < |landed| => landed[i].target)
  }

  function LiveTargets(live: seq<Probe>): seq<PendingProbe> {
    seq(|live|, i requires 0 <= i < |live| => live[i].target)
  }

  /** Every probe that was started has landed or is still in flight, each exactly once. */
  ghost predicate Accounted(started: seq<PendingProbe>, landed: seq<Landing>, live: seq<Probe>) {
    multiset(started) == multiset(LandedTargets(landed)) + multiset(LiveTargets(live))
  }

  lemma {:induction false} StartedIsAccounted(started: seq<PendingProbe>, landed: seq<Landing>, live: seq<Probe>, p: Probe)
    requires Accounted(started, landed, live)
    ensures Accounted(started + [p.target], landed, live + [p])
  {
    assert LiveTargets(live + [p]) == LiveTargets(live) + [p.target];
  }

  lemma {:induction false} LandedIsAccounted(started: seq<PendingProbe>, landed: seq<Landing>, live: seq<Probe>, k: nat, delay: int)
    requires Accounted(started, landed, live) && k < |live|
    ensures Accounted(started, landed + [Landing(live[k].target, delay)], live[..k] + live[k + 1..])
  {
    var t := live[k].target;
    var all := LiveTargets(live);
    assert LandedTargets(landed + [Landing(t, delay)]) == LandedTargets(landed) + [t];
    assert LiveTargets(live[..k] + live[k + 1..]) == all[..k] + all[k + 1..];
    assert all == all[..k] + [t] + all[k + 1..];
  }

  /** The rows: distinct ids, honest delays, and nothing on them but what landed. */
  ghost predicate RowsOk(nodes: seq<ProxyNode>, results: set<Measurement>, base: seq<ProxyNode>, landed: seq<Landing>) {
    Positional(nodes) && AllHonest(nodes, results) && nodes == Replay(base, landed)
  }

  /** The probes: queued ones and those of this generation dial an endpoint of the list. */
  ghost predicate ProbesOk(live: seq<Probe>, pending: seq<PendingProbe>, generation: nat, nodes: seq<ProxyNode>) {
    && (forall t :: t in pending ==> IsTargetOfRow(t, nodes))
    && (forall p :: p in live ==> p.generation <= generation)
    && (forall p :: p in live && p.generation == generation ==> IsTargetOfRow(p.target, nodes))
  }

  /** The start of a run: the list it began on, with its queue and with the rows marked that have nothing to dial. */
  ghost predicate StartOk(queued: seq<PendingProbe>, base: seq<ProxyNode>) {
    queued == Targets(base) && forall i :: 0 <= i < |base| && !IsDialable(base[i]) ==> base[i].delay == UNREACHABLE
  }

  /** Results that came from no answer at all. */
  predicate AllUnreachable(landed: seq<Landing>) {
    forall k :: 0 <= k < |landed| ==> landed[k].delay == UNREACHABLE
  }

  /** The run: what was queued is what was started, what is being started and what still waits, in order. */
  ghost predicate RunOk(queued: seq<PendingProbe>, started: seq<PendingProbe>, taken: seq<PendingProbe>,
      pending: seq<PendingProbe>, landed: seq<Landing>, live: seq<Probe>, generation: nat)
  {
    && queued == started + taken + pending
    && Accounted(started, landed, live)
    && forall p :: p in live ==> p.generation == generation
  }

  lemma {:induction false} RowsAfterLanding(nodes: seq<ProxyNode>, results: set<Measurement>, base: seq<ProxyNode>,
      landed: seq<Landing>, l: Landing, after: seq<ProxyNode>)
    requires nodes == Replay(base, landed) && after == WithDelay(nodes, l.target.id, l.delay)
    requires Positional(after) && AllHonest(after, results)
    ensures RowsOk(after, results, base, landed + [l])
  {
    hide WithDelay, Positional, AllHonest;
    ReplayOneMore(base, landed, l);
  }

  lemma {:induction false} ProbesAfterFinish(live: seq<Probe>, pending: seq<PendingProbe>, generation: nat,
      nodes: seq<ProxyNode>, k: nat, after: seq<ProxyNode>)
    requires ProbesOk(live, pending, generation, nodes) && k < |live| && Unprobed(nodes) == Unprobed(after)
    ensures ProbesOk(live[..k] + live[k + 1..], pending, generation, after)
  {
    hide Unprobed, IsTargetOfRow;
    TargetsSurvive(nodes, after);
    assert forall p :: p in live[..k] + live[k + 1..] ==> p in live;
  }

  lemma {:induction false} ProbesAfterStart(live: seq<Probe>, pending: seq<PendingProbe>, generation: nat,
      nodes: seq<ProxyNode>, t: PendingProbe)
    requires ProbesOk(live, pending, generation, nodes) && IsTargetOfRow(t, nodes)
    ensures ProbesOk(live + [Probe(t, generation)], pending, generation, nodes)
  {
    hide IsTargetOfRow;
  }

  lemma {:induction false} ProbesAfterTake(live: seq<Probe>, pending: seq<PendingProbe>, generation: nat, nodes: seq<ProxyNode>)
    requires ProbesOk(live, pending, generation, nodes) && pending != []
    ensures ProbesOk(live, pending[1..], generation, nodes) && IsTargetOfRow(pending[0], nodes)
  {
    hide IsTargetOfRow;
    assert pending[0] in pending && forall t :: t in pending[1..] ==> t in pending;
  }

  lemma {:induction false} RunAfterFinish(queued: seq<PendingProbe>, started: seq<PendingProbe>,
      pending: seq<PendingProbe>, landed: seq<Landing>, live: seq<Probe>, generation: nat, k: nat, delay: int)
    requires RunOk(queued, started, [], pending, landed, live, generation) && k < |live|
    ensures live[k].generation == generation
    ensures RunOk(queued, started, [], pending, landed + [Landing(live[k].target, delay)], live[..k] + live[k + 1..], generation)
  {
    LandedIsAccounted(started, landed, live, k, delay);
    hide Accounted;
    assert live[k] in live;
    assert forall p :: p in live[..k] + live[k + 1..] ==> p in live;
  }

  lemma {:induction false} RunAfterStart(queued: seq<PendingProbe>, started: seq<PendingProbe>, t: PendingProbe,
      pending: seq<PendingProbe>, landed: seq<Landing>, live: seq<Probe>, generation: nat)
    requires RunOk(queued, started, [t], pending, landed, live, generation)
    ensures RunOk(queued, started + [t], [], pending, landed, live + [Probe(t, generation)], generation)
  {
    StartedIsAccounted(started, landed, live, Probe(t, generation));
    hide Accounted;
    assert started + [t] + [] + pending == started + [t] + pending;
  }

  lemma {:induction false} RunAfterTake(queued: seq<PendingProbe>, started: seq<PendingProbe>,
      pending: seq<PendingProbe>, landed: seq<Landing>, live: seq<Probe>, generation: nat)
    requires RunOk(queued, started, [], pending, landed, live, generation) && pending != []
    ensures RunOk(queued, started, [pending[0]], pending[1..], landed, live, generation)
  {
    hide Accounted;
    assert started + [] + pending == started + [pending[0]] + pending[1..];
  }

  lemma {:induction false} EmptyRun(pending: seq<PendingProbe>, generation: nat, nodes: seq<ProxyNode>, results: set<Measurement>)
    requires Positional(nodes) && AllHonest(nodes, results)
    requires forall t :: t in pending ==> IsTargetOfRow(t, nodes)
    ensures RunOk(pending, [], [], pending, [], [], generation)
    ensures RowsOk(nodes, results, nodes, []) && ProbesOk([], pending, generation, nodes)
  {
    hide Positional, AllHonest, IsTargetOfRow;
    assert [] + [] + pending == pending;
    assert LandedTargets([]) == [] && LiveTargets([]) == [];
  }

  lemma {:induction false} FinishedRun(queued: seq<PendingProbe>, started: seq<PendingProbe>, landed: seq<Landing>, generation: nat)
    requires RunOk(queued, started, [], [], landed, [], generation)
    ensures started == queued && multiset(queued) == multiset(LandedTargets(landed))
  {
    assert started + [] + [] == started;
    assert LiveTargets([]) == [];
  }

  /** What the event loop brings during a run: the end of a probe in flight, or a reload of the list. */
  datatype Event = Completed(k: nat, delay: int) | Reloaded(content: string, coreConfig: string)

  function Completions(events: seq<Event>): nat {
    if events == [] then 0
    else Completions(events[..|events| - 1]) + if events[|events| - 1].Completed? then 1 else 0
  }

  class ProxyListModel {
    const lib: Library
    var proxies: seq<ProxyNode>
    var selectedId: string
    var pendingTests: seq<PendingProbe>
    var activeTests: int
    var testing: bool
    var generation: nat
    /** The probes in flight, oldest first. */
    var live: seq<Probe>
    /** Every probe that ever finished. */
    ghost var results: set<Measurement>
    /** The run in progress or last finished: what it queued, what it started, whether a reload cut it. */
    ghost var queued: seq<PendingProbe>
    ghost var started: seq<PendingProbe>
    ghost var cut: bool
    /** The list when the current run or reload began, and the results that landed on it since. */
    ghost var base: seq<ProxyNode>
    ghost var landed: seq<Landing>
    /** Runs accepted and delayTestFinished signals sent. */
    ghost var runs: nat
    ghost var finishes: nat

    /** What holds at every step. */
    ghost predicate Valid()
      reads this
    {
      Consistent([])
    }

    /** The same while the probe in `taken`, if any, has left the queue and is about to be started. */
    ghost predicate Consistent(taken: seq<PendingProbe>)
      reads this
    {
      && activeTests == |live| <= MAX_CONCURRENT
      && RowsOk(proxies, results, base, landed)
      && ProbesOk(live, pendingTests, generation, proxies)
      && (if cut then taken == [] && pendingTests == []
          else RunOk(queued, started, taken, pendingTests, landed, live, generation) && StartOk(queued, base))
      && runs == finishes + (if testing then 1 else 0)
      && (!testing ==> live == [] && pendingTests == [])
    }

    /** What holds between events besides. */
    ghost predicate AtRest()
      reads this
    {
      && Valid()
      && (testing <==> activeTests > 0)
      && (pendingTests != [] ==> activeTests == MAX_CONCURRENT)
    }

    /** Probes of the current run that have still to finish: waiting or in flight. */
    ghost function Unfinished(): nat
      reads this
    {
      |pendingTests| + |live|
    }

    /** Probing changes delays only. */
    twostate predicate OnlyProbed()
      reads this
    {
      && Unprobed(proxies) == Unprobed(old(proxies))
      && generation == old(generation) && selectedId == old(selectedId)
      && queued == old(queued) && runs == old(runs) && cut == old(cut)
      && old(results) <= results
      && base == old(base) && old(landed) <= landed
    }

    /** Only probes that failed at once ended meanwhile. */
    twostate predicate OnlyFailures()
      reads this
    {
      old(landed) <= landed && AllUnreachable(landed[|old(landed)|..])
    }

    constructor (lib: Library)
      ensures AtRest() && this.lib == lib && proxies == [] && !testing
    {
      this.lib := lib;
      proxies, selectedId, pendingTests, activeTests, testing, generation, live := [], "", [], 0, false, 0, [];
      results, queued, started, cut, runs, finishes, base, landed := {}, [], [], false, 0, 0, [], [];
    }

    /** Writes a delay onto the row with this id, unless the list was reloaded since. */
    method ApplyDelay(id: string, delay: int, gen: nat, ghost m: Measurement)
      requires Positional(proxies) && AllHonest(proxies, results) && m in results && m.delay == delay
      requires gen == generation ==> IsTargetOfRow(PendingProbe(id, m.host, m.port), proxies)
      modifies this`proxies
      ensures Positional(proxies) && AllHonest(proxies, results) && Unprobed(proxies) == Unprobed(old(proxies))
      ensures proxies == if gen == generation then WithDelay(old(proxies), id, delay) else old(proxies)
    {
      hide NodeId, Unprobed, AllHonest, WithDelay;
      if gen != generation {
        return;
      }
      ghost var row :|
        0 <= row < |proxies| && TargetOf(proxies[row]) == PendingProbe(id, m.host, m.port) && IsDialable(proxies[row]);
      for i := 0 to |proxies|
        invariant proxies == old(proxies) && i <= row
      {
        if proxies[i].id != id {
          continue;
        }
        PositionalIdsDistinct(proxies, i, row);
        FirstOfItsId(proxies, i);
        WithDelayAt(proxies, id, delay, i);
        DelaySetKeeps(proxies, i, delay, results, m);
        proxies := proxies[i := proxies[i].(delay := delay)];
        return;
      }
    }

    /** A probe ends, on its own or because dialling failed at once; its slot is refilled. */
    method Finish(k: nat, delay: int)
      requires Valid() && k < |live|
      modifies this
      ensures AtRest() && OnlyProbed()
      ensures Measurement(old(live)[k].target.host, old(live)[k].target.port, delay) in results
      ensures var own := if old(live)[k].generation == generation then [Landing(old(live)[k].target, delay)] else [];
              old(landed) + own <= landed && AllUnreachable(landed[|old(landed) + own|..])
      ensures |pendingTests| <= old(|pendingTests|) && Unfinished() < old(Unfinished())
      decreases |pendingTests|, 1
    {
      hide Unprobed, RowsOk, ProbesOk, RunOk, StartOk;
      var probe := live[k];
      if !cut { RunAfterFinish(queued, started, pendingTests, landed, live, generation, k, delay); }
      Land(k, delay);
      live := live[..k] + live[k + 1..];
      activeTests := activeTests - 1;
      Pump();
    }

    /** The result of a probe is recorded, and written onto the list unless that was reloaded since. */
    method Land(k: nat, delay: int)
      requires k < |live| && RowsOk(proxies, results, base, landed) && ProbesOk(live, pendingTests, generation, proxies)
      modifies this`proxies, this`results, this`landed
      ensures Unprobed(proxies) == Unprobed(old(proxies))
      ensures RowsOk(proxies, results, base, landed)
      ensures ProbesOk(live[..k] + live[k + 1..], pendingTests, generation, proxies)
      ensures results == old(results) + {Measurement(live[k].target.host, live[k].target.port, delay)}
      ensures landed == old(landed) + if live[k].generation == generation then [Landing(live[k].target, delay)] else []
    {
      hide Unprobed, IsTargetOfRow, Replay, WithDelay, Positional, AllHonest;
      var probe := live[k];
      assert probe in live;
      ghost var m := Measurement(probe.target.host, probe.target.port, delay);
      MoreResults(proxies, results, m);
      results := results + {m};
      ApplyDelay(probe.target.id, delay, probe.generation, m);
      ProbesAfterFinish(live, pendingTests, generation, old(proxies), k, proxies);
      if probe.generation == generation {
        var l := Landing(probe.target, delay);
        RowsAfterLanding(old(proxies), results, base, landed, l, proxies);
        landed := landed + [l];
      }
    }

    /** Dials one host; dialling may fail before this returns, which re-enters the pump. */
    method StartDelayTest(t: PendingProbe)
      requires Consistent([t]) && testing && |live| < MAX_CONCURRENT && IsTargetOfRow(t, proxies)
      modifies this
      ensures Valid() && OnlyProbed() && OnlyFailures()
      ensures |pendingTests| <= old(|pendingTests|) && Unfinished() <= old(Unfinished()) + 1
      decreases |pendingTests|, 2
    {
      hide Unprobed, RowsOk, ProbesOk, RunOk, StartOk, IsTargetOfRow;
      ProbesAfterStart(live, pendingTests, generation, proxies, t);
      RunAfterStart(queued, started, t, pendingTests, landed, live, generation);
      live := live + [Probe(t, generation)];
      started := started + [t];
      activeTests := activeTests + 1;
      if * {
        Finish(|live| - 1, UNREACHABLE);
      }
    }

    /** Fills the pool, and reports the end of the run once nothing is left. */
    method Pump()
      requires Valid()
      modifies this
      ensures AtRest() && OnlyProbed() && OnlyFailures()
      ensures |pendingTests| <= old(|pendingTests|) && Unfinished() <= old(Unfinished())
      decreases |pendingTests|, 0
    {
      hide Unprobed, RowsOk, ProbesOk, RunOk, StartOk, IsTargetOfRow;
      while activeTests < MAX_CONCURRENT && pendingTests != []
        invariant Valid() && OnlyProbed() && OnlyFailures()
        invariant |pendingTests| <= old(|pendingTests|) && Unfinished() <= old(Unfinished())
        decreases |pendingTests|
      {
        ProbesAfterTake(live, pendingTests, generation, proxies);
        RunAfterTake(queued, started, pendingTests, landed, live, generation);
        var probe := pendingTests[0];
        pendingTests := pendingTests[1..];
        StartDelayTest(probe);
      }
      if testing && activeTests == 0 && pendingTests == [] {
        testing := false;
        finishes := finishes + 1;
      }
    }

    /** Probes every node once; refused while a run is in progress or when there is nothing to probe. */
    method TestAllDelays()
      requires AtRest()
      modifies this
      ensures AtRest()
      ensures old(testing) || old(proxies) == [] ==>
        proxies == old(proxies) && runs == old(runs) && finishes == old(finishes) && live == old(live)
      ensures !old(testing) && old(proxies) != [] ==>
        && runs == old(runs) + 1 && !cut && Unfinished() <= |queued|
        && ProbesEveryRow(queued, old(proxies))
        && |base| == |old(proxies)|
        && (forall i :: 0 <= i < |base| ==>
              base[i] == if IsDialable(old(proxies)[i]) then old(proxies)[i] else old(proxies)[i].(delay := UNREACHABLE))
        && forall i :: 0 <= i < |proxies| && !IsDialable(proxies[i]) ==> proxies[i].delay == UNREACHABLE
      ensures Erased(proxies) == Erased(old(proxies))
      ensures generation == old(generation) && selectedId == old(selectedId)
    {
      if testing || proxies == [] {
        return;
      }
      hide Erased, Unprobed, AllHonest, Positional, IsTargetOfRow, Targets, IsDialable, ProbesEveryRow, RunOk, StartOk, RowsOk, ProbesOk;
      var pending := Prepare();
      ghost var marked := proxies;
      StartRun(pending);
      UnprobedFixesErased(marked, proxies);
      ErasedFixesDialable(marked, proxies);
    }

    /** The first half of a run: what is to be dialled, and the mark on every row that has nothing to dial. */
    method Prepare() returns (pending: seq<PendingProbe>)
      requires AtRest() && !testing
      modifies this`proxies
      ensures Positional(proxies) && AllHonest(proxies, results)
      ensures forall t :: t in pending ==> IsTargetOfRow(t, proxies)
      ensures StartOk(pending, proxies) && ProbesEveryRow(pending, old(proxies))
      ensures Erased(proxies) == Erased(old(proxies))
      ensures forall i :: 0 <= i < |proxies| ==>
        proxies[i] == if IsDialable(old(proxies)[i]) then old(proxies)[i] else old(proxies)[i].(delay := UNREACHABLE)
    {
      hide Erased, AllHonest, Positional, IsTargetOfRow, Targets, IsDialable, ProbesEveryRow, RunOk, StartOk, ProbesOk, Replay;
      var rows;
      pending, rows := Queue();
      MarkUnreachable(rows);
      MarkingKeeps(old(proxies), proxies, results);
      MarkingStarts(old(proxies), proxies);
    }

    /** The second half of a run: fill the pool, or report at once that there is nothing to wait for. */
    method StartRun(pending: seq<PendingProbe>)
      requires !testing && live == [] && activeTests == 0 && runs == finishes
      requires Positional(proxies) && AllHonest(proxies, results)
      requires forall t :: t in pending ==> IsTargetOfRow(t, proxies)
      requires StartOk(pending, proxies)
      modifies this
      ensures AtRest() && runs == old(runs) + 1 && !cut && queued == pending && Unfinished() <= |pending|
      ensures Unprobed(proxies) == Unprobed(old(proxies)) && base == old(proxies)
      ensures generation == old(generation) && selectedId == old(selectedId)
    {
      hide Unprobed, AllHonest, Positional, IsTargetOfRow, Replay, RunOk, StartOk, RowsOk, ProbesOk;
      EmptyRun(pending, generation, proxies, results);
      pendingTests, queued, started, cut, runs := pending, pending, [], false, runs + 1;
      base, landed := proxies, [];
      if pendingTests == [] {
        finishes := finishes + 1;
        return;
      }
      testing := true;
      activeTests := 0;
      Pump();
    }

    /**
     * A finished run that no reload cut short: every row with an endpoint was dialled there exactly once and
     * shows what came of it; every other row shows that it has none; nothing else about any row changed.
     */
    lemma {:induction false} EveryNodeProbedOnce()
      requires AtRest() && !testing && !cut
      ensures started == queued && runs == finishes && |proxies| == |base|
      ensures forall i :: 0 <= i < |base| ==>
        if IsDialable(base[i]) then
          exists j: nat :: IsOnlyLanding(landed, j, base[i]) && proxies[i] == base[i].(delay := landed[j].delay)
        else proxies[i] == base[i] && proxies[i].delay == 9999
    {
      hide RunOk;
      FinishedRun(queued, started, landed, generation);
      ReplayKeepsRows(base, landed);
      SameIds(base, proxies);
      hide Targets, LandedTargets, Replay, Positional, AllHonest;
      forall i | 0 <= i < |base|
        ensures if IsDialable(base[i]) then
                  exists j: nat :: IsOnlyLanding(landed, j, base[i]) && proxies[i] == base[i].(delay := landed[j].delay)
                else proxies[i] == base[i] && proxies[i].delay == 9999
      {
        if IsDialable(base[i]) {
          var j := LandingOfRow(base, landed, i);
          ReplayAtRow(base, landed, i, j);
        } else {
          forall k | 0 <= k < |landed| ensures landed[k].target.id != base[i].id {
            if landed[k].target.id == base[i].id { LandingIsOfRow(base, landed, k, i); }
          }
          ReplayElsewhere(base, landed, i);
        }
      }
    }

    /** Never more than 32 probes in flight, and none waits while fewer are. */
    lemma {:induction false} PoolIsBounded()
      requires AtRest()
      ensures |live| == activeTests <= 32 && (pendingTests != [] ==> |live| == 32)
      ensures testing <==> live != []
    {
      hide RowsOk, ProbesOk, RunOk, StartOk;
    }

    /**
     * Every run ends: once as many probes have ended as were waiting or in flight, in any order and with any
     * reloads in between, the run is over and every accepted run has been reported exactly once.
     */
    method Deliver(events: seq<Event>)
      requires AtRest()
      modifies this
      ensures AtRest() && runs == old(runs)
      ensures Completions(events) >= old(Unfinished()) ==> !testing && finishes == runs
    {
      hide RowsOk, ProbesOk, RunOk, StartOk, Unprobed, ParseNodes;
      assert events[..0] == [];
      for i := 0 to |events|
        invariant AtRest() && runs == old(runs)
        invariant Unfinished() == 0 || Unfinished() + Completions(events[..i]) <= old(Unfinished())
      {
        assert events[..i + 1][..i] == events[..i];
        match events[i]
        case Reloaded(content, coreConfig) => Reload(content, coreConfig);
        case Completed(k, delay) =>
          if live != [] {
            Finish(k % |live|, delay);
          }
      }
      assert events[..|events|] == events;
    }

    /** The probes to make, and the rows with nothing to dial that do not say so yet. */
    method Queue() returns (pending: seq<PendingProbe>, rows: seq<nat>)
      ensures pending == Targets(proxies)
      ensures forall r :: r in rows ==> r < |proxies| && !IsDialable(proxies[r])
      ensures forall i :: 0 <= i < |proxies| && !IsDialable(proxies[i]) && proxies[i].delay != UNREACHABLE ==> i in rows
    {
      pending, rows := [], [];
      for i := 0 to |proxies|
        invariant pending == Targets(proxies[..i])
        invariant forall r :: r in rows ==> r < |proxies| && !IsDialable(proxies[r])
        invariant forall j :: 0 <= j < i && !IsDialable(proxies[j]) && proxies[j].delay != UNREACHABLE ==> j in rows
      {
        assert proxies[..i + 1][..i] == proxies[..i];
        var p := proxies[i];
        if p.address == "" || p.port == 0 {
          if p.delay != UNREACHABLE {
            rows := rows + [i];
          }
        } else {
          pending := pending + [PendingProbe(p.id, p.address, p.port)];
        }
      }
      assert proxies[..|proxies|] == proxies;
    }

    method MarkUnreachable(rows: seq<nat>)
      requires forall r :: r in rows ==> r < |proxies| && !IsDialable(proxies[r])
      requires forall i :: 0 <= i < |proxies| && !IsDialable(proxies[i]) && proxies[i].delay != UNREACHABLE ==> i in rows
      modifies this`proxies
      ensures Erased(proxies) == Erased(old(proxies))
      ensures forall i :: 0 <= i < |proxies| ==>
        proxies[i] == if IsDialable(old(proxies)[i]) then old(proxies)[i] else old(proxies)[i].(delay := UNREACHABLE)
    {
      for k := 0 to |rows|
        invariant |proxies| == |old(proxies)|
        invariant forall i :: 0 <= i < |proxies| ==>
          proxies[i] == if i in rows[..k] then old(proxies)[i].(delay := UNREACHABLE) else old(proxies)[i]
      {
        var row := rows[k];
        assert row in rows;
        proxies := proxies[row := proxies[row].(delay := UNREACHABLE)];
        assert rows[..k + 1] == rows[..k] + [row];
      }
      assert rows[..|rows|] == rows;
    }

    /** Replaces the list; probes still in flight belong to an older generation from now on. */
    method SetNodes(nodes: seq<ProxyNode>)
      requires AtRest() && Positional(nodes) && AllUntested(nodes)
      modifies this
      ensures AtRest() && proxies == nodes && generation == old(generation) + 1
      ensures testing == old(testing) && live == old(live) && pendingTests == []
      ensures runs == old(runs) && finishes == old(finishes)
      ensures HasRow(nodes, old(selectedId)) ==> selectedId == old(selectedId)
      ensures !HasRow(nodes, old(selectedId)) ==> selectedId == if nodes == [] then "" else nodes[0].id
    {
      hide RowsOk, ProbesOk, RunOk, StartOk, Positional, AllUntested, HasRow;
      ResetRows(nodes);
      var stillPresent := IsStillPresent();
      if !stillPresent {
        selectedId := if proxies == [] then "" else proxies[0].id;
      }
    }

    /** The reset of the rows; nothing is left to account for once the list is replaced. */
    method ResetRows(nodes: seq<ProxyNode>)
      requires AtRest() && Positional(nodes) && AllUntested(nodes)
      modifies this
      ensures AtRest() && proxies == nodes && generation == old(generation) + 1
      ensures testing == old(testing) && live == old(live) && pendingTests == []
      ensures runs == old(runs) && finishes == old(finishes) && selectedId == old(selectedId)
    {
      hide RowsOk, ProbesOk, RunOk, StartOk, Positional, AllUntested;
      FreshRows(nodes, results);
      ProbesAfterReload(live, pendingTests, generation, proxies, nodes);
      cut := true;
      pendingTests := [];
      generation := generation + 1;
      proxies := nodes;
      base, landed := nodes, [];
    }

    /** The search for the selected row. */
    method IsStillPresent() returns (present: bool)
      ensures present <==> HasRow(proxies, selectedId)
    {
      present := false;
      for i := 0 to |proxies|
        invariant !present && forall j :: 0 <= j < i ==> proxies[j].id != selectedId
      {
        if proxies[i].id == selectedId {
          return true;
        }
      }
    }

    /** Re-reads the active profile's nodes, or those of the last written engine configuration. */
    method Reload(content: string, coreConfig: string)
      requires AtRest()
      modifies this
      ensures AtRest() && generation == old(generation) + 1
      ensures proxies == if ParseNodes(lib, content) != [] then ParseNodes(lib, content) else ParseNodes(lib, coreConfig)
      ensures testing == old(testing) && runs == old(runs) && finishes == old(finishes)
      ensures live == old(live) && pendingTests == []
    {
      hide ParseNodes, Positional, AllUntested;
      var nodes := ParseProxyNodes(lib, content);
      if nodes == [] {
        nodes := ParseProxyNodes(lib, coreConfig);
      }
      SetNodes(nodes);
    }
  }

  lemma {:induction false} FreshRows(nodes: seq<ProxyNode>, results: set<Measurement>)
    requires Positional(nodes) && AllUntested(nodes)
    ensures RowsOk(nodes, results, nodes, [])
  {
    hide Positional;
  }

  /** Probes of before the reload are stale; they dial nothing of the new list. */
  lemma {:induction false} ProbesAfterReload(live: seq<Probe>, pending: seq<PendingProbe>, generation: nat,
      nodes: seq<ProxyNode>, after: seq<ProxyNode>)
    requires ProbesOk(live, pending, generation, nodes)
    ensures ProbesOk(live, [], generation + 1, after)
  {
    hide IsTargetOfRow;
  }

  /** Marking rows that have nothing to dial keeps ids, honesty and targets. */
  lemma {:induction false} MarkingKeeps(a: seq<ProxyNode>, b: seq<ProxyNode>, results: set<Measurement>)
    requires Positional(a) && AllHonest(a, results) && |a| == |b|
    requires forall i :: 0 <= i < |b| ==> b[i] == if IsDialable(a[i]) then a[i] else a[i].(delay := UNREACHABLE)
    ensures Positional(b) && AllHonest(b, results)
    ensures forall t :: t in Targets(a) ==> IsTargetOfRow(t, b)
  {
    hide NodeId;
    forall t | t in Targets(a) ensures IsTargetOfRow(t, b) {
      TargetsBelongToRows(a, t);
      var i :| 0 <= i < |a| && TargetOf(a[i]) == t && IsDialable(a[i]);
      assert TargetOf(b[i]) == t;
    }
  }

  lemma {:induction false} MarkingStarts(a: seq<ProxyNode>, b: seq<ProxyNode>)
    requires |a| == |b|
    requires forall i :: 0 <= i < |b| ==> b[i] == if IsDialable(a[i]) then a[i] else a[i].(delay := UNREACHABLE)
    ensures StartOk(Targets(a), b) && ProbesEveryRow(Targets(a), a)
  {
    MarkingKeepsTargets(a, b);
    var rows := TargetsExactly(a);
    hide Targets, ProbesEveryRow, IsQueueOf;
  }

  lemma {:induction false} MarkingKeepsTargets(a: seq<ProxyNode>, b: seq<ProxyNode>)
    requires |a| == |b|
    requires forall i :: 0 <= i < |b| ==> b[i] == if IsDialable(a[i]) then a[i] else a[i].(delay := UNREACHABLE)
    ensures Targets(b) == Targets(a)
  {
    if a != [] {
      MarkingKeepsTargets(a[..|a| - 1], b[..|b| - 1]);
    }
  }

  lemma {:induction false} ErasedFixesDialable(a: seq<ProxyNode>, b: seq<ProxyNode>)
    requires Erased(a) == Erased(b)
    ensures |a| == |b| && forall i :: 0 <= i < |a| ==> IsDialable(a[i]) == IsDialable(b[i])
  {
    forall i | 0 <= i < |a| ensures IsDialable(a[i]) == IsDialable(b[i]) {
      assert Erased(a)[i] == Erased(b)[i];
    }
  }

  lemma {:induction false} DelaySetKeeps(nodes: seq<ProxyNode>, k: nat, delay: int, results: set<Measurement>, m: Measurement)
    requires Positional(nodes) && AllHonest(nodes, results) && m in results
    requires k < |nodes| && IsDialable(nodes[k]) && m == Measurement(nodes[k].address, nodes[k].port, delay)
    ensures var after := nodes[k := nodes[k].(delay := delay)];
            Positional(after) && AllHonest(after, results) && Unprobed(after) == Unprobed(nodes)
  {
    hide NodeId;
  }

  lemma {:induction false} FirstOfItsId(nodes: seq<ProxyNode>, k: nat)
    requires Positional(nodes) && k < |nodes|
    ensures forall i :: 0 <= i < k ==> nodes[i].id != nodes[k].id
  {
    hide NodeId;
    forall i | 0 <= i < k ensures nodes[i].id != nodes[k].id {
      PositionalIdsDistinct(nodes, i, k);
    }
  }

  lemma {:induction false} MoreResults(nodes: seq<ProxyNode>, results: set<Measurement>, m: Measurement)
    requires AllHonest(nodes, results)
    ensures AllHonest(nodes, results + {m})
  {
  }

  lemma {:induction false} TargetsSurvive(a: seq<ProxyNode>, b: seq<ProxyNode>)
    requires Unprobed(a) == Unprobed(b)
    ensures forall t :: IsTargetOfRow(t, a) ==> IsTargetOfRow(t, b)
  {
    UnprobedFixesErased(a, b);
    hide Erased, Unprobed;
    forall t | IsTargetOfRow(t, a) ensures IsTargetOfRow(t, b) {
      TargetsIgnoreDelays(t, a, b);
    }
  }
}
