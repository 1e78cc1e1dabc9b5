/** What a simulated tick comes to, node by node: whose timers are checked, who handles which arrival, and what
    each injected event leaves behind. */
module Ticks {
  import opened Types
  import opened NodeSpec
  import opened Checker
  import opened Simulator
  import Cluster
  import Effects

  /** One node and one disk for each index, and every live node in shape. */
  ghost predicate Fits(net: Net) {
    |net.nodes| == |net.disks| && forall i :: 0 <= i < |net.nodes| && net.nodes[i].Some? ==> Shape(net.nodes[i].value)
  }

  /** Node `i` has made the call that came to `step`, and nobody else has done anything. */
  ghost predicate OneCalled(net: Net, i: NodeId, step: StepOut, crashAfter: bool, net': Net) {
    && i < |net.nodes| == |net'.nodes| && |net'.disks| == |net.disks| == |net.nodes| && net'.blocked == net.blocked
    && net'.nodes[i] == (if crashAfter then None else Some(step.node))
    && net'.disks[i] == ApplyWrites(net.disks[i], step.writes)
    && (forall j :: 0 <= j < |net.nodes| && j != i ==> net'.nodes[j] == net.nodes[j] && net'.disks[j] == net.disks[j])
    && forall m :: m in net'.wire <==> m in net.wire || (!crashAfter && SentThrough(net, i, step.out, m))
  }

  /** `m` is one of the messages of `out`, on a link that is not cut. */
  ghost predicate SentThrough(net: Net, i: NodeId, out: seq<Outgoing>, m: Packet) {
    m.from == i && Outgoing(m.to, m.message) in out && (i, m.to) !in net.blocked
  }

  lemma RoutedMeans(net: Net, i: NodeId, out: seq<Outgoing>, m: Packet)
    ensures m in Routed(i, out, net.blocked) <==> SentThrough(net, i, out, m)
  {
    if SentThrough(net, i, out, m) {
      var o := Outgoing(m.to, m.message);
      assert Cluster.Packet(i, o.to, o.message) == m;
    }
  }

  lemma CalledMeans(net: Net, i: NodeId, input: Input, crashAfter: bool)
    requires Fits(net) && i < |net.nodes| && net.nodes[i].Some?
    ensures OneCalled(net, i, Step(net.nodes[i].value, input), crashAfter, Called(net, i, input, crashAfter))
  {
    var step := Step(net.nodes[i].value, input);
    forall m ensures m in Routed(i, step.out, net.blocked) <==> SentThrough(net, i, step.out, m) {
      RoutedMeans(net, i, step.out, m);
    }
  }

  // ---------------------------------------------------------------- arrivals

  /** A packet on the wire is handled by the node it is for, if that is up; anything else changes nothing. */
  lemma ArrivalHandled(net: Net, a: Arrival)
    requires Fits(net)
    ensures var i := a.packet.to;
            if a.packet in net.wire && i < |net.nodes| && net.nodes[i].Some?
            then
              OneCalled(net, i, Step(net.nodes[i].value, Receive(a.packet.from, a.packet.message)), a.crashAfter,
                        Arrived(net, a))
            else Arrived(net, a) == net
  {
    if a.packet in net.wire && a.packet.to < |net.nodes| && net.nodes[a.packet.to].Some? {
      CalledMeans(net, a.packet.to, Receive(a.packet.from, a.packet.message), a.crashAfter);
    }
  }

  /** Arrivals are handled one after the other, in the order in which they are given. */
  lemma {:induction false} ArrivalsInOrder(net: Net, first: seq<Arrival>, rest: seq<Arrival>)
    ensures ArrivedAll(net, first + rest) == ArrivedAll(ArrivedAll(net, first), rest)
    ensures |rest| == 1 ==> ArrivedAll(net, rest) == Arrived(net, rest[0])
  {
    if rest == [] {
      assert first + rest == first;
    } else {
      var front, last := rest[..|rest| - 1], rest[|rest| - 1];
      ArrivalsInOrder(net, first, front);
      assert (first + rest)[..|first + rest| - 1] == first + front;
      assert |rest| == 1 ==> front == [];
    }
  }

  // ---------------------------------------------------------------- timers

  ghost function TimerStep(net: Net, due: seq<bool>, i: NodeId): StepOut
    requires Fits(net) && i < |net.nodes| == |due| && net.nodes[i].Some?
  {
    Step(net.nodes[i].value, Input.Tick(due[i]))
  }

  /** A message that the timer of one of the nodes below `k` has sent. */
  ghost predicate TimerSent(net: Net, due: seq<bool>, k: nat, m: Packet)
    requires Fits(net) && |net.nodes| == |due|
  {
    m.from < k && m.from < |net.nodes| && net.nodes[m.from].Some?
    && SentThrough(net, m.from, TimerStep(net, due, m.from).out, m)
  }

  /** If node `i` is below `k` and up, its own timer was checked once, from the state it was in. */
  ghost predicate TimerChecked(net: Net, due: seq<bool>, k: nat, i: NodeId, net': Net)
    requires Fits(net) && i < |net.nodes| == |due| && |net'.nodes| == |net'.disks| == |net.nodes|
  {
    if i < k && net.nodes[i].Some? then
      && net'.nodes[i] == Some(TimerStep(net, due, i).node)
      && net'.disks[i] == ApplyWrites(net.disks[i], TimerStep(net, due, i).writes)
    else net'.nodes[i] == net.nodes[i] && net'.disks[i] == net.disks[i]
  }

  /** What is on the wire was there before, or one of those timers sent it. */
  ghost predicate WireAfter(net: Net, due: seq<bool>, k: nat, net': Net)
    requires Fits(net) && |net.nodes| == |due|
  {
    forall m :: m in net'.wire <==> m in net.wire || TimerSent(net, due, k, m)
  }

  ghost predicate TimersChecked(net: Net, due: seq<bool>, k: nat, net': Net)
    requires Fits(net) && |net.nodes| == |due|
  {
    && |net'.nodes| == |net'.disks| == |net.nodes| && net'.blocked == net.blocked
    && (forall i: NodeId :: i < |net.nodes| ==> TimerChecked(net, due, k, i, net'))
    && WireAfter(net, due, k, net')
  }

  lemma OneTimer(net: Net, due: seq<bool>, k: nat, mid: Net)
    requires Fits(net) && |net.nodes| == |due| && k < |due| && TimersChecked(net, due, k, mid) && Fits(mid)
    ensures TimersChecked(net, due, k + 1, Called(mid, k, Input.Tick(due[k]), false))
  {
    var net', next := Called(mid, k, Input.Tick(due[k]), false), k + 1;
    assert TimerChecked(net, due, k, k, mid);
    if net.nodes[k].Some? {
      CalledMeans(mid, k, Input.Tick(due[k]), false);
    }
    forall i: NodeId | i < |net.nodes| ensures TimerChecked(net, due, next, i, net') {
      assert TimerChecked(net, due, k, i, mid);
    }
  }

  lemma CheckedFits(net: Net, due: seq<bool>, k: nat, net': Net)
    requires Fits(net) && |net.nodes| == |due| && TimersChecked(net, due, k, net')
    ensures Fits(net')
  {
    forall i: NodeId | i < |net'.nodes| && net'.nodes[i].Some? ensures Shape(net'.nodes[i].value) {
      assert TimerChecked(net, due, k, i, net');
      if net.nodes[i].Some? {
        StepShape(net.nodes[i].value, Input.Tick(due[i]));
      }
    }
  }

  lemma NextTimer(net: Net, due: seq<bool>, k: nat, mid: Net)
    requires Fits(net) && |net.nodes| == |due| && k < |due| && TimersChecked(net, due, k, mid)
    ensures TimersChecked(net, due, k + 1, Called(mid, k, Input.Tick(due[k]), false))
  {
    CheckedFits(net, due, k, mid);
    OneTimer(net, due, k, mid);
  }

  /** Every live node has its timer checked exactly once, each from the state it was in. */
  lemma {:induction false} TimersAllChecked(net: Net, due: seq<bool>, k: nat)
    requires Fits(net) && |net.nodes| == |due| && k <= |due|
    ensures TimersChecked(net, due, k, Timed(net, due, k))
  {
    if k > 0 {
      TimersAllChecked(net, due, k - 1);
      NextTimer(net, due, k - 1, Timed(net, due, k - 1));
    }
  }

  // ---------------------------------------------------------------- injected events

  /** The crash and the restart of a tick, in this order, and nothing else, for one node. */
  ghost predicate FaultsTaken(net: Net, ev: Events, i: NodeId, net': Net)
    requires i < |net.nodes| == |net'.nodes|
  {
    && (ev.restart == Some(i) ==> net'.nodes[i].Some?)
    && (ev.restart != Some(i) && ev.crash == Some(i) ==> net'.nodes[i].None?)
    && (ev.crash != Some(i) && net.nodes[i].Some? ==> net'.nodes[i] == net.nodes[i])
    && (ev.crash != Some(i) && ev.restart != Some(i) ==> net'.nodes[i] == net.nodes[i])
  }

  /** The live leader of the highest term, if there is one, has taken the command as its last entry, and nobody
      else has moved. */
  ghost predicate CommandTaken(net: Net, command: seq<byte>, net': Net) {
    NoLeader(net.nodes) || exists l: NodeId :: TakenBy(net, l, command, net')
  }

  ghost predicate TakenBy(net: Net, l: NodeId, command: seq<byte>, net': Net) {
    && IsTop(net.nodes, l) && |net'.nodes| == |net.nodes| && net'.nodes[l].Some?
    && net'.nodes[l].value.log == net.nodes[l].value.log + [Entry(net.nodes[l].value.term, command)]
    && forall j :: 0 <= j < |net.nodes| && j != l ==> net'.nodes[j] == net.nodes[j]
  }

  /** The events of a tick: first the crash, then the restart, then the partition or its end, and the command
      last, to the leader as it is then. */
  lemma EventsTaken(net: Net, ev: Events, maxBatch: nat, net': Net) returns (mid: Net)
    requires Fits(net) && Injected(net, ev, maxBatch, net')
    ensures |mid.nodes| == |net.nodes| == |net'.nodes| && mid.disks == net.disks && mid.wire == net.wire
    ensures forall i: NodeId :: i < |net.nodes| ==> FaultsTaken(net, ev, i, mid)
    ensures if ev.heal then mid.blocked == {}
            else if ev.partition.Some? then IsCut(mid.blocked, ev.partition.value)
            else mid.blocked == net.blocked
    ensures net'.blocked == mid.blocked
    ensures ev.propose == None ==> net' == mid
    ensures ev.propose.Some? ==> CommandTaken(mid, ev.propose.value, net')
  {
    var booted := Restarted(Crashed(net, ev.crash), ev.restart, maxBatch);
    var blocked :|
      && (if ev.heal then blocked == {}
          else if ev.partition.Some? then IsCut(blocked, ev.partition.value)
          else blocked == net.blocked)
      && Proposed(booted.(blocked := blocked), ev.propose, net');
    mid := booted.(blocked := blocked);
    FaultsAre(net, ev, maxBatch);
    ProposalTaken(mid, ev.propose, net');
  }

  lemma FaultsAre(net: Net, ev: Events, maxBatch: nat)
    requires Fits(net)
    ensures var booted := Restarted(Crashed(net, ev.crash), ev.restart, maxBatch);
            && Fits(booted) && |booted.nodes| == |net.nodes| && booted.disks == net.disks && booted.wire == net.wire
            && forall i: NodeId :: i < |net.nodes| ==> FaultsTaken(net, ev, i, booted)
  {
  }

  lemma ProposalTaken(net: Net, command: Option<seq<byte>>, net': Net)
    requires Fits(net) && Proposed(net, command, net')
    ensures |net'.nodes| == |net.nodes| && net'.blocked == net.blocked
    ensures if command == None then net' == net else CommandTaken(net, command.value, net')
  {
    if command.Some? && !NoLeader(net.nodes) {
      var l: NodeId :| IsTop(net.nodes, l) && net' == Called(net, l, Input.Propose(command.value), false);
      CalledMeans(net, l, Input.Propose(command.value), false);
      Effects.ProposalSent(net.nodes[l].value, command.value);
      assert TakenBy(net, l, command.value, net');
    }
  }
}
