/** The simulated cluster in the imperative form of the code: nodes that are up or down, their disks,
    a network that can be partitioned, and the checker that audits every tick. Probabilities, clocks
    and channels become parameters: the caller says which events happen and which packets arrive. The
    ghost `run` is the run of the transition system this cluster has carried out so far. */
module Simulator {
  import opened Types
  import opened NodeSpec
  import Cluster
  import opened Safety
  import opened Checker
  import opened Clauses

  type Packet = Cluster.Packet

  /** What happens in one tick. */
  datatype Events = Events(
    crash: Option<NodeId>,
    restart: Option<NodeId>,
    partition: Option<seq<bool>>,
    heal: bool,
    propose: Option<seq<byte>>,
    arrivals: seq<Arrival>,
    due: seq<bool>)

  datatype Arrival = Arrival(packet: Packet, crashAfter: bool)

  ghost function ServersOf(nodes: Nodes): (s: seq<Cluster.Server>)
    ensures |s| == |nodes|
  {
    seq(|nodes|, i requires 0 <= i < |nodes| =>
      if nodes[i].Some? then Cluster.Up(nodes[i].value, map[], 0) else Cluster.Down)
  }

  lemma ServersOfUpdate(nodes: Nodes, i: NodeId, nd: Option<NodeState>)
    requires i < |nodes|
    ensures ServersOf(nodes[i := nd])
         == ServersOf(nodes)[i := if nd.Some? then Cluster.Up(nd.value, map[], 0) else Cluster.Down]
  {
  }

  /** The cluster's fields are state `s` of the transition system. */
  ghost predicate Shows(s: Cluster.System, n: nat, maxBatch: nat, nodes: Nodes, disks: seq<Persistent>,
                        wire: set<Packet>)
  {
    && s.n == n == |nodes| == |disks| && s.maxBatch == maxBatch
    && s.servers == ServersOf(nodes) && s.disks == disks && wire <= s.sent
  }

  lemma ShownNodes(s: Cluster.System, n: nat, maxBatch: nat, nodes: Nodes, disks: seq<Persistent>, wire: set<Packet>)
    requires Shows(s, n, maxBatch, nodes, disks, wire)
    ensures NodesOf(s, nodes)
  {
  }

  ghost function Then(run: seq<Cluster.System>, act: Cluster.Action): seq<Cluster.System>
    requires |run| > 0 && Cluster.Enabled(Cluster.Last(run), act)
  {
    run + [Cluster.Next(Cluster.Last(run), act)]
  }

  lemma {:induction false} RunsOn(run: seq<Cluster.System>, act: Cluster.Action, w: Watch, n: nat)
    requires Cluster.IsRun(run) && Cluster.Enabled(Cluster.Last(run), act) && Seen(run, w, n)
    ensures Cluster.IsRun(Then(run, act)) && Seen(Then(run, act), w, n)
    ensures Cluster.Last(Then(run, act)) == Cluster.Next(Cluster.Last(run), act)
  {
    var s := Cluster.Next(Cluster.Last(run), act);
    assert Cluster.IsStep(Cluster.Last(run), s);
    Cluster.Extend(run, s);
    SeenLonger(run, s, w, n);
  }

  /** The messages of `out` that the partition lets through. */
  ghost function Routed(from: NodeId, out: seq<Outgoing>, blocked: set<(NodeId, NodeId)>): set<Packet> {
    set o | o in out && (from, o.to) !in blocked :: Cluster.Packet(from, o.to, o.message)
  }

  // ---------------------------------------------------------------- what the events do

  datatype Net = Net(nodes: Nodes, disks: seq<Persistent>, blocked: set<(NodeId, NodeId)>, wire: set<Packet>)

  /** A call's new state and its writes take effect, and unless the node crashes right after, its
      messages are sent. */
  ghost function Took(net: Net, i: NodeId, step: StepOut, crashAfter: bool): Net
    requires i < |net.nodes| && i < |net.disks|
  {
    net.(nodes := net.nodes[i := if crashAfter then None else Some(step.node)],
         disks := net.disks[i := ApplyWrites(net.disks[i], step.writes)],
         wire := if crashAfter then net.wire else net.wire + Routed(i, step.out, net.blocked))
  }

  ghost function Called(net: Net, i: NodeId, input: Input, crashAfter: bool): Net {
    if i >= |net.nodes| || i >= |net.disks| || net.nodes[i].None? || !Shape(net.nodes[i].value) then net
    else Took(net, i, Step(net.nodes[i].value, input), crashAfter)
  }

  ghost function CallAction(i: NodeId, input: Input, crashAfter: bool, step: StepOut): Cluster.Action {
    if crashAfter then Cluster.CrashDuring(i, input, |step.writes|) else Cluster.Run(i, input)
  }

  /** A call is an action of the transition system. */
  lemma CallShown(s: Cluster.System, n: nat, maxBatch: nat, net: Net, i: NodeId, input: Input, crashAfter: bool,
                  step: StepOut)
    requires Shows(s, n, maxBatch, net.nodes, net.disks, net.wire)
    requires i < n && net.nodes[i].Some? && Shape(net.nodes[i].value) && step == Step(net.nodes[i].value, input)
    requires input.Receive? ==> Cluster.Packet(input.from, i, input.message) in net.wire
    ensures Cluster.Enabled(s, CallAction(i, input, crashAfter, step))
    ensures var net' := Took(net, i, step, crashAfter);
            Shows(Cluster.Next(s, CallAction(i, input, crashAfter, step)), n, maxBatch,
                  net'.nodes, net'.disks, net'.wire)
  {
    assert step.writes[..|step.writes|] == step.writes;
    ServersOfUpdate(net.nodes, i, if crashAfter then None else Some(step.node));
    RoutedArePackets(i, step.out, net.blocked);
  }

  lemma CallRuns(run: seq<Cluster.System>, w: Watch, n: nat, maxBatch: nat, net: Net, i: NodeId, input: Input,
                 crashAfter: bool)
    returns (run': seq<Cluster.System>)
    requires |run| > 0 && Cluster.IsRun(run) && Seen(run, w, n)
    requires Shows(Cluster.Last(run), n, maxBatch, net.nodes, net.disks, net.wire) && i < n && net.nodes[i].Some?
    requires input.Receive? ==> Cluster.Packet(input.from, i, input.message) in net.wire
    ensures run < run' && Cluster.IsRun(run') && Seen(run', w, n) && Shape(net.nodes[i].value)
    ensures var net' := Took(net, i, Step(net.nodes[i].value, input), crashAfter);
            Shows(Cluster.Last(run'), n, maxBatch, net'.nodes, net'.disks, net'.wire)
  {
    NothingOutOfRange(run, |run| - 1, i);
    var step := Step(net.nodes[i].value, input);
    CallShown(Cluster.Last(run), n, maxBatch, net, i, input, crashAfter, step);
    RunsOn(run, CallAction(i, input, crashAfter, step), w, n);
    run' := Then(run, CallAction(i, input, crashAfter, step));
  }

  /** A datagram for a node that is down is dropped; so is anything no link was ever given. */
  ghost function Arrived(net: Net, a: Arrival): Net {
    if a.packet in net.wire then Called(net, a.packet.to, Receive(a.packet.from, a.packet.message), a.crashAfter)
    else net
  }

  ghost function ArrivedAll(net: Net, arrivals: seq<Arrival>): Net {
    if arrivals == [] then net else Arrived(ArrivedAll(net, arrivals[..|arrivals| - 1]), arrivals[|arrivals| - 1])
  }

  ghost function Timed(net: Net, due: seq<bool>, k: nat): Net
    requires k <= |due|
  {
    if k == 0 then net else Called(Timed(net, due, k - 1), k - 1, Input.Tick(due[k - 1]), false)
  }

  ghost function Crashed(net: Net, i: Option<NodeId>): Net {
    if i.Some? && i.value < |net.nodes| then net.(nodes := net.nodes[i.value := None]) else net
  }

  /** Node `i` boots from its disk, if it is down. */
  ghost function BootedAt(nodes: Nodes, disks: seq<Persistent>, maxBatch: nat, i: NodeId): (r: Nodes)
    requires i < |nodes| <= |disks|
    ensures |r| == |nodes| && r[i].Some?
    ensures forall j :: 0 <= j < |nodes| && nodes[j].Some? ==> r[j] == nodes[j]
  {
    if nodes[i].Some? then nodes else nodes[i := Some(NodeSpec.Boot(i, |nodes|, maxBatch, disks[i]))]
  }

  /** The nodes below `k` that are down are booted from their disks. */
  ghost function AllBooted(nodes: Nodes, disks: seq<Persistent>, maxBatch: nat, k: nat): (r: Nodes)
    requires k <= |nodes| <= |disks|
    ensures |r| == |nodes|
  {
    if k == 0 then nodes
    else
      BootedAt(AllBooted(nodes, disks, maxBatch, k - 1), disks, maxBatch, k - 1)
  }

  /** Afterwards everyone is up, and who was up before was left alone. */
  lemma {:induction false} AllAreUp(nodes: Nodes, disks: seq<Persistent>, maxBatch: nat, k: nat)
    requires k <= |nodes| <= |disks|
    ensures forall i :: 0 <= i < k ==> AllBooted(nodes, disks, maxBatch, k)[i].Some?
    ensures forall i :: 0 <= i < |nodes| && nodes[i].Some? ==> AllBooted(nodes, disks, maxBatch, k)[i] == nodes[i]
  {
    if k > 0 {
      AllAreUp(nodes, disks, maxBatch, k - 1);
    }
  }

  ghost function Restarted(net: Net, i: Option<NodeId>, maxBatch: nat): Net {
    if i.Some? && i.value < |net.nodes| <= |net.disks|
    then net.(nodes := BootedAt(net.nodes, net.disks, maxBatch, i.value))
    else net
  }

  ghost predicate IsCut(blocked: set<(NodeId, NodeId)>, side: seq<bool>) {
    forall a: NodeId, b: NodeId :: (a, b) in blocked <==> a < |side| && b < |side| && a != b && side[a] != side[b]
  }

  /** The live leader of the highest term. */
  ghost predicate IsTop(nodes: Nodes, l: NodeId) {
    && l < |nodes| && nodes[l].Some? && nodes[l].value.role.Leader?
    && forall i :: 0 <= i < |nodes| && i != l && nodes[i].Some? && nodes[i].value.role.Leader? ==>
         nodes[i].value.term < nodes[l].value.term
  }

  ghost predicate NoLeader(nodes: Nodes) {
    forall i :: 0 <= i < |nodes| && nodes[i].Some? ==> !nodes[i].value.role.Leader?
  }

  ghost predicate Proposed(net: Net, command: Option<seq<byte>>, net': Net) {
    if command.None? || NoLeader(net.nodes) then net' == net
    else exists l :: IsTop(net.nodes, l) && net' == Called(net, l, Input.Propose(command.value), false)
  }

  /** The injected events of one tick, in their order. */
  ghost predicate Injected(net: Net, ev: Events, maxBatch: nat, net': Net) {
    var booted := Restarted(Crashed(net, ev.crash), ev.restart, maxBatch);
    exists blocked ::
      && (if ev.heal then blocked == {}
          else if ev.partition.Some? then IsCut(blocked, ev.partition.value)
          else blocked == net.blocked)
      && Proposed(booted.(blocked := blocked), ev.propose, net')
  }

  ghost predicate Ticked(net: Net, ev: Events, maxBatch: nat, net': Net) {
    exists mid :: Injected(net, ev, maxBatch, mid) && net' == Timed(ArrivedAll(mid, ev.arrivals), ev.due, |ev.due|)
  }

  /** States of the cluster, one tick of `evs` apart. */
  ghost predicate IsHistory(nets: seq<Net>, evs: seq<Events>, maxBatch: nat) {
    && |nets| == |evs| + 1
    && forall k :: 0 <= k < |evs| ==> Ticked(nets[k], evs[k], maxBatch, nets[k + 1])
  }

  /** `net'` is reached from `net` by carrying out the ticks `evs`, in order. */
  ghost predicate TickedAll(net: Net, evs: seq<Events>, maxBatch: nat, net': Net) {
    exists nets :: IsHistory(nets, evs, maxBatch) && nets[0] == net && nets[|evs|] == net'
  }

  lemma NoTicks(net: Net, maxBatch: nat)
    ensures TickedAll(net, [], maxBatch, net)
  {
    assert IsHistory([net], [], maxBatch);
  }

  lemma OneMoreTick(net: Net, evs: seq<Events>, maxBatch: nat, net': Net, ev: Events, net'': Net)
    requires TickedAll(net, evs, maxBatch, net') && Ticked(net', ev, maxBatch, net'')
    ensures TickedAll(net, evs + [ev], maxBatch, net'')
  {
    var nets :| IsHistory(nets, evs, maxBatch) && nets[0] == net && nets[|evs|] == net';
    var longer := nets + [net''];
    forall k | 0 <= k < |evs + [ev]| ensures Ticked(longer[k], (evs + [ev])[k], maxBatch, longer[k + 1]) {
      if k < |evs| {
        assert Ticked(nets[k], evs[k], maxBatch, nets[k + 1]);
      }
    }
    assert IsHistory(longer, evs + [ev], maxBatch);
  }

  class Simulation {
    const n: nat
    const maxBatch: nat
    var nodes: seq<Option<NodeState>>
    var disks: seq<Persistent>
    var blocked: set<(NodeId, NodeId)>
    /** Every packet ever handed to a link; a link may deliver it any number of times, or never. */
    var wire: set<Packet>
    // The checker's memory.
    var leadersByTerm: map<Term, NodeId>
    var committed: seq<Entry>
    var maxCommitSeen: seq<Index>
    var maxTermSeen: seq<Term>
    ghost var run: seq<Cluster.System>

    ghost predicate Valid()
      reads this
    {
      && |run| > 0 && Cluster.IsRun(run)
      && Shows(Cluster.Last(run), n, maxBatch, nodes, disks, wire)
      && Seen(run, Memory(), n)
    }

    function Memory(): Watch
      reads this
    {
      Watch(leadersByTerm, committed, maxCommitSeen, maxTermSeen)
    }

    ghost function State(): Net
      reads this
    {
      Net(nodes, disks, blocked, wire)
    }

    constructor (n: nat, maxBatch: nat)
      ensures this.n == n && this.maxBatch == maxBatch && Valid() && |run| == 1
      ensures blocked == {} && wire == {} && Memory() == Watch(map[], [], Filled(n, 0), Filled(n, 0))
    {
      this.n := n;
      this.maxBatch := maxBatch;
      disks := Filled(n, EMPTY_DISK);
      blocked := {};
      wire := {};
      leadersByTerm := map[];
      committed := [];
      maxCommitSeen := Filled(n, 0);
      maxTermSeen := Filled(n, 0);
      nodes := Filled(n, None);
      new;
      for i := 0 to n
        invariant |nodes| == n && disks == Filled(n, EMPTY_DISK)
        invariant Memory() == Watch(map[], [], Filled(n, 0), Filled(n, 0)) && blocked == {} && wire == {}
        invariant forall j :: 0 <= j < i ==> nodes[j] == Some(NodeSpec.Boot(j, n, maxBatch, EMPTY_DISK))
      {
        Boot(i);
      }
      run := [Cluster.System(n, maxBatch, ServersOf(nodes), disks, {})];
      SeenFromStart(run, n);
    }

    method Boot(i: NodeId)
      requires i < n && |nodes| == n == |disks|
      modifies this`nodes
      ensures nodes == old(nodes)[i := Some(NodeSpec.Boot(i, n, maxBatch, disks[i]))]
    {
      nodes := nodes[i := Some(NodeSpec.Boot(i, n, maxBatch, disks[i]))];
    }

    method Crash(i: NodeId)
      requires Valid() && i < n
      modifies this`nodes, this`run
      ensures Valid() && nodes == old(nodes)[i := None] && old(run) <= run
    {
      RunsOn(run, Cluster.Crash(i), Memory(), n);
      ServersOfUpdate(nodes, i, None);
      run := Then(run, Cluster.Crash(i));
      nodes := nodes[i := None];
    }

    /** Boots a node that is down from its disk. The durability check then compares its recovered log
        with all it was ever seen to have committed, and never finds anything missing. */
    method Restart(i: NodeId) returns (v: Option<Violation>)
      requires Valid() && i < n
      modifies this`nodes, this`run
      ensures Valid() && old(run) <= run && v == None
      ensures nodes == BootedAt(old(nodes), disks, maxBatch, i)
    {
      if nodes[i].Some? {
        return None;
      }
      RunsOn(run, Cluster.Restart(i), Memory(), n);
      ServersOfUpdate(nodes, i, Some(NodeSpec.Boot(i, n, maxBatch, disks[i])));
      run := Then(run, Cluster.Restart(i));
      Boot(i);
      RestartPasses(run, Memory(), n, i);
      v := CheckRecovered(i);
    }

    /** The durability check: a loss is reported if and only if the log does not start with the recorded
        entries up to the node's mark. */
    method CheckRecovered(i: NodeId) returns (v: Option<Violation>)
      requires i < |nodes| && i < |maxCommitSeen| && nodes[i].Some?
      ensures v == None || v == Some(LostAcrossCrash(i))
      ensures v == None <==>
                forall k :: 0 <= k < maxCommitSeen[i] && k < |committed| ==>
                  HasEntry(nodes[i].value.log, k, committed[k])
    {
      var log := nodes[i].value.log;
      var known := Min(maxCommitSeen[i], |committed|);
      var lost := |log| < known || log[..known] != committed[..known];
      StartsWith(log, committed, known);
      v := if lost then Some(LostAcrossCrash(i)) else None;
    }

    /** Links between different sides are cut in both directions. */
    method Partition(side: seq<bool>)
      requires |side| == n
      modifies this`blocked
      ensures IsCut(blocked, side)
    {
      blocked := set a: NodeId, b: NodeId | 0 <= a < n && 0 <= b < n && a != b && side[a] != side[b] :: (a, b);
    }

    method Heal()
      modifies this`blocked
      ensures blocked == {}
    {
      blocked := {};
    }

    /** The end of the injected faults: the network is whole and every node is up. */
    method Quiesce() returns (v: Option<Violation>)
      requires Valid()
      modifies this`nodes, this`blocked, this`run
      ensures Valid() && old(run) <= run && v == None && blocked == {}
      ensures nodes == AllBooted(old(nodes), disks, maxBatch, n)
    {
      Heal();
      v := RestartAll();
    }

    method RestartAll() returns (v: Option<Violation>)
      requires Valid()
      modifies this`nodes, this`run
      ensures Valid() && old(run) <= run && v == None && nodes == AllBooted(old(nodes), disks, maxBatch, n)
    {
      v := None;
      ghost var target := old(nodes);
      for i := 0 to n
        invariant Valid() && old(run) <= run && v == None
        invariant target == AllBooted(old(nodes), disks, maxBatch, i) && nodes == target
      {
        target := BootedAt(target, disks, maxBatch, i);
        v := Restart(i);
      }
    }

    /** The live leader of the highest term, if any; no two leaders share a term, so it is unique. */
    method Leader() returns (l: Option<NodeId>)
      requires Valid()
      ensures if l == None then NoLeader(nodes) else IsTop(nodes, l.value)
    {
      l := None;
      for i := 0 to n
        invariant l == None ==> forall j :: 0 <= j < i && nodes[j].Some? ==> !nodes[j].value.role.Leader?
        invariant l.Some? ==>
                    && l.value < i && nodes[l.value].Some? && nodes[l.value].value.role.Leader?
                    && forall j :: 0 <= j < i && nodes[j].Some? && nodes[j].value.role.Leader? ==>
                         nodes[j].value.term <= nodes[l.value].value.term
      {
        if nodes[i].Some? && nodes[i].value.role.Leader? {
          if l == None || nodes[i].value.term >= nodes[l.value].value.term {
            l := Some(i);
          }
        }
      }
      if l.Some? {
        forall i: NodeId | i < n && i != l.value && nodes[i].Some? && nodes[i].value.role.Leader?
          ensures nodes[i].value.term != nodes[l.value].value.term
        {
          LeadersDiffer(run, nodes, i, l.value);
        }
      }
    }

    /** Hands messages to the links, except those across the partition. */
    method Route(from: NodeId, out: seq<Outgoing>)
      modifies this`wire
      ensures wire == old(wire) + Routed(from, out, blocked)
    {
      for k := 0 to |out|
        invariant wire == old(wire) + Routed(from, out[..k], blocked)
      {
        var o := out[k];
        assert out[..k + 1] == out[..k] + [o];
        if (from, o.to) !in blocked {
          wire := wire + {Cluster.Packet(from, o.to, o.message)};
        }
      }
      assert out[..|out|] == out;
    }

    method Call(i: NodeId, input: Input, crashAfter: bool)
      requires Valid() && i < n && nodes[i].Some?
      requires input.Receive? ==> Cluster.Packet(input.from, i, input.message) in wire
      modifies this`nodes, this`disks, this`wire, this`run
      ensures Valid() && old(run) < run
      ensures State() == Called(old(State()), i, input, crashAfter) && Shape(old(nodes)[i].value)
    {
      ghost var longer := CallRuns(run, Memory(), n, maxBatch, State(), i, input, crashAfter);
      var step := Step(nodes[i].value, input);
      Take(i, step, crashAfter);
      run := longer;
    }

    method Take(i: NodeId, step: StepOut, crashAfter: bool)
      requires i < |nodes| && i < |disks|
      modifies this`nodes, this`disks, this`wire
      ensures State() == Took(old(State()), i, step, crashAfter)
    {
      nodes := nodes[i := Some(step.node)];
      disks := disks[i := ApplyWrites(disks[i], step.writes)];
      if crashAfter {
        nodes := nodes[i := None];
      } else {
        Route(i, step.out);
      }
    }

    /** A client command goes to the live leader of the highest term. */
    method Propose(command: seq<byte>) returns (r: Result<(NodeId, Index), Option<NodeId>>)
      requires Valid()
      modifies this`nodes, this`disks, this`wire, this`run
      ensures Valid() && old(run) <= run
      ensures r.Failure? <==> NoLeader(old(nodes))
      ensures r.Failure? ==> State() == old(State()) && r == Failure(None)
      ensures r.Success? ==>
                var (l, index) := r.value;
                && IsTop(old(nodes), l) && State() == Called(old(State()), l, Input.Propose(command), false)
                && nodes[l].Some? && 0 < index == |nodes[l].value.log|
                && nodes[l].value.log == old(nodes)[l].value.log + [Entry(old(nodes)[l].value.term, command)]
    {
      var l := Leader();
      if l == None {
        return Failure(None);
      }
      Call(l.value, Input.Propose(command), false);
      r := Success((l.value, |nodes[l.value].value.log|));
    }

    /** One tick: injected events, arrivals, timers, and the audit, which reports exactly when a live
        leader lacks an entry of an earlier term that is in the record or committed at a live node; a
        later leader has then overtaken it. */
    method Tick(ev: Events) returns (v: Option<Violation>)
      requires Valid() && (ev.partition.Some? ==> |ev.partition.value| == n) && |ev.due| == n
      modifies this
      ensures Valid() && old(run) <= run && Ticked(old(State()), ev, maxBatch, State())
      ensures v.Some? ==> Stale(run, nodes, v.value)
      ensures LogsAudited(nodes, committed, v) && (v.Some? <==> AnyoneMisses(old(committed), nodes))
    {
      Inject(ev);
      ghost var mid := State();
      ArriveAll(ev.arrivals);
      Timers(ev.due);
      assert Injected(old(State()), ev, maxBatch, mid);
      v := Audit();
    }

    method Inject(ev: Events)
      requires Valid() && (ev.partition.Some? ==> |ev.partition.value| == n)
      modifies this`nodes, this`disks, this`wire, this`blocked, this`run
      ensures Valid() && old(run) <= run && Injected(old(State()), ev, maxBatch, State())
    {
      CrashAndRestart(ev.crash, ev.restart);
      label booted:
      if ev.partition.Some? {
        Partition(ev.partition.value);
      }
      if ev.heal {
        Heal();
      }
      ghost var net := State();
      assert net == old@booted(State()).(blocked := blocked);
      ProposeIfAny(ev.propose);
    }

    /** The restart inside never reports a loss, so the tick goes on. */
    method CrashAndRestart(crash: Option<NodeId>, restart: Option<NodeId>)
      requires Valid()
      modifies this`nodes, this`run
      ensures Valid() && old(run) <= run && State() == Restarted(Crashed(old(State()), crash), restart, maxBatch)
    {
      if crash.Some? && crash.value < n {
        Crash(crash.value);
      }
      if restart.Some? && restart.value < n {
        var lost := Restart(restart.value);
        assert lost == None;
      }
    }

    method ProposeIfAny(command: Option<seq<byte>>)
      requires Valid()
      modifies this`nodes, this`disks, this`wire, this`run
      ensures Valid() && old(run) <= run && Proposed(old(State()), command, State())
    {
      if command.Some? {
        var r := Propose(command.value);
        if r.Success? {
          assert IsTop(old(State()).nodes, r.value.0);
        } else {
          assert NoLeader(old(State()).nodes);
        }
      }
    }

    method ArriveAll(arrivals: seq<Arrival>)
      requires Valid()
      modifies this`nodes, this`disks, this`wire, this`run
      ensures Valid() && old(run) <= run && State() == ArrivedAll(old(State()), arrivals)
    {
      for k := 0 to |arrivals|
        invariant Valid() && old(run) <= run && State() == ArrivedAll(old(State()), arrivals[..k])
      {
        assert arrivals[..k + 1][..k] == arrivals[..k];
        Arrive(arrivals[k]);
      }
      assert arrivals[..|arrivals|] == arrivals;
    }

    method Timers(due: seq<bool>)
      requires Valid() && |due| == n
      modifies this`nodes, this`disks, this`wire, this`run
      ensures Valid() && old(run) <= run && State() == Timed(old(State()), due, n)
    {
      for i := 0 to n
        invariant Valid() && old(run) <= run && State() == Timed(old(State()), due, i)
      {
        if nodes[i].Some? {
          Call(i, Input.Tick(due[i]), false);
        }
      }
    }

    method Audit() returns (v: Option<Violation>)
      requires Valid()
      modifies this`leadersByTerm, this`committed, this`maxCommitSeen, this`maxTermSeen
      ensures Valid() && LogsAudited(nodes, committed, v)
      ensures v.Some? ==> Stale(run, nodes, v.value)
      ensures v.Some? <==> AnyoneMisses(old(committed), nodes)
    {
      ShownNodes(Cluster.Last(run), n, maxBatch, nodes, disks, wire);
      v := CheckInvariants();
      AuditOfRun(run, old(Memory()), nodes, Memory(), v);
      AuditExactly(run, old(Memory()), nodes, Memory(), v);
    }

    method Arrive(a: Arrival)
      requires Valid()
      modifies this`nodes, this`disks, this`wire, this`run
      ensures Valid() && old(run) <= run && State() == Arrived(old(State()), a)
    {
      var p := a.packet;
      if p in wire && p.to < n && nodes[p.to].Some? {
        Call(p.to, Receive(p.from, p.message), a.crashAfter);
      }
    }

    /** Tick after tick, until one reports; `done` of them were carried out, the last one reporting. */
    method RunTicks(evs: seq<Events>) returns (v: Option<Violation>, ghost done: nat)
      requires Valid()
      requires forall ev :: ev in evs ==> (ev.partition.Some? ==> |ev.partition.value| == n) && |ev.due| == n
      modifies this
      ensures Valid() && old(run) <= run
      ensures done <= |evs| && (v.None? ==> done == |evs|)
      ensures TickedAll(old(State()), evs[..done], maxBatch, State())
      ensures v.Some? ==> Stale(run, nodes, v.value)
      ensures done > 0 ==> LogsAudited(nodes, committed, v)
    {
      v, done := None, 0;
      NoTicks(State(), maxBatch);
      for k := 0 to |evs|
        invariant Valid() && old(run) <= run && done == k && v.None?
        invariant TickedAll(old(State()), evs[..k], maxBatch, State())
        invariant k > 0 ==> LogsAudited(nodes, committed, v)
      {
        ghost var before := State();
        v := Tick(evs[k]);
        OneMoreTick(old(State()), evs[..k], maxBatch, before, evs[k], State());
        assert evs[..k + 1] == evs[..k] + [evs[k]];
        done := k + 1;
        if v.Some? {
          return;
        }
      }
      assert evs[..done] == evs;
    }

    // ---------------------------------------------------------------- the audit

    method CheckInvariants() returns (v: Option<Violation>)
      requires |nodes| == n && Sized(Success(Memory()), n)
      modifies this`leadersByTerm, this`committed, this`maxCommitSeen, this`maxTermSeen
      ensures Audited(old(Memory()), nodes, Memory(), v)
    {
      v := CheckTerms();
      if v.Some? {
        return;
      }
      v := CheckCommits();
      if v.Some? {
        return;
      }
      v := CheckLeaders();
      if v.Some? {
        return;
      }
      v := CheckLogs();
    }

    method CheckTerms() returns (v: Option<Violation>)
      requires |nodes| == n && Sized(Success(Memory()), n)
      modifies this`leadersByTerm, this`maxTermSeen
      ensures TermsSeen(old(Memory()), nodes, n) == if v.Some? then Failure(v.value) else Success(Memory())
      ensures v.Some? <==> TermTrouble(old(Memory()), nodes)
      ensures if v.Some? then TermReport(old(Memory()), nodes, v.value) else TermsTaken(old(Memory()), nodes, Memory())
    {
      TermsExactly(Memory(), nodes, n);
      assert nodes[..n] == nodes;
      for i := 0 to n
        invariant Sized(Success(Memory()), n) && TermsSeen(old(Memory()), nodes, i) == Success(Memory())
      {
        if nodes[i].Some? {
          var nd := nodes[i].value;
          if nd.term < maxTermSeen[i] {
            FailureLasts(old(Memory()), nodes, i + 1, n);
            return Some(TermWentBack(i));
          }
          maxTermSeen := maxTermSeen[i := nd.term];
          if nd.role.Leader? {
            if nd.term !in leadersByTerm {
              leadersByTerm := leadersByTerm[nd.term := i];
            }
            if leadersByTerm[nd.term] != i {
              FailureLasts(old(Memory()), nodes, i + 1, n);
              return Some(TwoLeaders(i, leadersByTerm[nd.term]));
            }
          }
        }
      }
      v := None;
    }

    method CheckCommits() returns (v: Option<Violation>)
      requires |nodes| == n && Sized(Success(Memory()), n)
      modifies this`committed, this`maxCommitSeen
      ensures CommitsSeen(old(Memory()), nodes, n) == if v.Some? then Failure(v.value) else Success(Memory())
      ensures v.Some? <==> CommitTrouble(old(committed), nodes)
      ensures if v.Some? then CommitReport(old(committed), nodes, v.value)
              else CommitsTaken(old(Memory()), nodes, Memory())
    {
      CommitsExactly(Memory(), nodes, n);
      assert nodes[..n] == nodes;
      for i := 0 to n
        invariant Sized(Success(Memory()), n) && CommitsSeen(old(Memory()), nodes, i) == Success(Memory())
      {
        if nodes[i].Some? {
          var nd := nodes[i].value;
          var c := nd.commitIndex;
          if c > |nd.log| {
            CommitFailureLasts(old(Memory()), nodes, i + 1, n);
            return Some(CommitBeyondLog(i));
          }
          var differs := Adopt(nd.log[..c]);
          if differs.Some? {
            CommitFailureLasts(old(Memory()), nodes, i + 1, n);
            return Some(DifferentCommit(i, differs.value));
          }
          maxCommitSeen := maxCommitSeen[i := Max(maxCommitSeen[i], c)];
        }
      }
      v := None;
    }

    method Adopt(p: seq<Entry>) returns (differs: Option<Index>)
      modifies this`committed
      ensures Absorb(old(committed), p) == if differs.Some? then Failure(differs.value) else Success(committed)
    {
      for k := 0 to |p|
        invariant Absorb(old(committed), p[..k]) == Success(committed)
      {
        assert p[..k + 1][..k] == p[..k];
        if k < |committed| {
          if committed[k] != p[k] {
            AbsorbFailureLasts(old(committed), p, k + 1);
            return Some(k + 1);
          }
        } else {
          committed := committed + [p[k]];
        }
      }
      assert p[..|p|] == p;
      differs := None;
    }

    method CheckLeaders() returns (v: Option<Violation>)
      requires |nodes| == n
      ensures v == None ==> AllComplete(nodes, committed)
      ensures v.Some? ==> v.value.LeaderLacks? && LogsAudited(nodes, committed, v)
    {
      for i := 0 to n
        invariant forall j :: 0 <= j < i && nodes[j].Some? && nodes[j].value.role.Leader? ==>
                    Complete(nodes[j].value, committed)
      {
        if nodes[i].Some? && nodes[i].value.role.Leader? {
          var k := FirstLacking(nodes[i].value);
          if k.Some? {
            return Some(LeaderLacks(i, k.value + 1));
          }
        }
      }
      v := None;
    }

    method FirstLacking(nd: NodeState) returns (r: Option<nat>)
      ensures if r.None? then Complete(nd, committed) else Lacks(nd, committed, r.value)
    {
      var k := 0;
      while k < |committed|
        invariant k <= |committed|
        invariant forall j :: 0 <= j < k ==> committed[j].term < nd.term && HasEntry(nd.log, j, committed[j])
      {
        if committed[k].term >= nd.term {
          return None;
        }
        if k >= |nd.log| || nd.log[k] != committed[k] {
          return Some(k);
        }
        k := k + 1;
      }
      r := None;
    }

    method CheckLogs() returns (v: Option<Violation>)
      requires |nodes| == n
      ensures v == None ==> AllMatching(nodes)
      ensures v.Some? ==> v.value.LogsDiffer? && LogsAudited(nodes, committed, v)
    {
      for a := 0 to n
        invariant forall x, y :: 0 <= x < a && x < y < n && nodes[x].Some? && nodes[y].Some? ==>
                    Matching(nodes[x].value.log, nodes[y].value.log)
      {
        for b := a + 1 to n
          invariant forall x, y :: 0 <= x < a && x < y < n && nodes[x].Some? && nodes[y].Some? ==>
                      Matching(nodes[x].value.log, nodes[y].value.log)
          invariant forall y :: a < y < b && nodes[a].Some? && nodes[y].Some? ==>
                      Matching(nodes[a].value.log, nodes[y].value.log)
        {
          if nodes[a].Some? && nodes[b].Some? {
            var x, y := nodes[a].value.log, nodes[b].value.log;
            var top := HighestCommonTerm(x, y);
            HighestSuffices(x, y);
            if top.Some? && x[..top.value + 1] != y[..top.value + 1] {
              TopTerms(x, y, Min(|x|, |y|));
              return Some(LogsDiffer(a, b, top.value + 1));
            }
          }
        }
      }
      v := None;
    }

    method HighestCommonTerm(x: seq<Entry>, y: seq<Entry>) returns (top: Option<nat>)
      ensures top == TopMatch(x, y, Min(|x|, |y|))
    {
      var m: nat := Min(|x|, |y|);
      while m > 0
        invariant m <= |x| && m <= |y| && TopMatch(x, y, Min(|x|, |y|)) == TopMatch(x, y, m)
      {
        if x[m - 1].term == y[m - 1].term {
          return Some(m - 1);
        }
        m := m - 1;
      }
      top := None;
    }
  }

  // ---------------------------------------------------------------- small facts

  lemma StartsWith(log: seq<Entry>, committed: seq<Entry>, known: nat)
    requires known <= |committed|
    ensures |log| < known || log[..known] != committed[..known] <==>
              !(forall k :: 0 <= k < known ==> HasEntry(log, k, committed[k]))
  {
    if |log| < known {
      assert !HasEntry(log, |log|, committed[|log|]);
    } else if forall k :: 0 <= k < known ==> HasEntry(log, k, committed[k]) {
      assert forall k :: 0 <= k < known ==> log[..known][k] == committed[..known][k];
    } else {
      var k :| 0 <= k < known && !HasEntry(log, k, committed[k]);
      assert log[..known][k] != committed[..known][k];
    }
  }

  lemma {:induction false} LeadersDiffer(run: seq<Cluster.System>, nodes: Nodes, i: NodeId, j: NodeId)
    requires |run| > 0 && Cluster.IsRun(run) && Cluster.Last(run).servers == ServersOf(nodes)
    requires i < |nodes| && j < |nodes| && i != j && nodes[i].Some? && nodes[j].Some?
    requires nodes[i].value.role.Leader? && nodes[j].value.role.Leader?
    ensures nodes[i].value.term != nodes[j].value.term
  {
    if nodes[i].value.term == nodes[j].value.term {
      ElectionSafety(run, |run| - 1, |run| - 1, i, j, nodes[i].value.term);
    }
  }

  lemma RoutedArePackets(from: NodeId, out: seq<Outgoing>, blocked: set<(NodeId, NodeId)>)
    ensures Routed(from, out, blocked) <= Cluster.Packets(from, out)
  {
  }

  lemma {:induction false} FailureLasts(w: Watch, nodes: Nodes, k: nat, n: nat)
    requires Sized(Success(w), |nodes|) && k <= n <= |nodes| && TermsSeen(w, nodes, k).Failure?
    ensures TermsSeen(w, nodes, n) == TermsSeen(w, nodes, k)
  {
    if k < n {
      FailureLasts(w, nodes, k, n - 1);
    }
  }

  lemma {:induction false} CommitFailureLasts(w: Watch, nodes: Nodes, k: nat, n: nat)
    requires Sized(Success(w), |nodes|) && k <= n <= |nodes| && CommitsSeen(w, nodes, k).Failure?
    ensures CommitsSeen(w, nodes, n) == CommitsSeen(w, nodes, k)
  {
    if k < n {
      CommitFailureLasts(w, nodes, k, n - 1);
    }
  }

  lemma {:induction false} AbsorbFailureLasts(seen: seq<Entry>, p: seq<Entry>, k: nat)
    requires k <= |p| && Absorb(seen, p[..k]).Failure?
    ensures Absorb(seen, p) == Failure(Absorb(seen, p[..k]).error)
  {
    if k < |p| {
      assert p[..|p| - 1][..k] == p[..k];
      AbsorbFailureLasts(seen, p[..|p| - 1], k);
    } else {
      assert p[..k] == p;
    }
  }
}
