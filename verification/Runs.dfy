/** From one call to whole runs: every state of every run of the cluster satisfies the invariant for
    some history, and the histories only grow. */
module Runs {
  import opened Types
  import opened Ledger
  import opened NodeSpec
  import opened Cluster
  import opened Coupling
  import Kv

  ghost predicate ServerOk(h: History, d: Persistent, sv: Server, i: NodeId, maxBatch: nat) {
    sv.Up? ==>
      && NodeOk(h, d, sv.node, i)
      && sv.node.maxBatch == maxBatch
      && Kv.Completes(sv.store, sv.node.log, sv.node.appliedIndex, sv.high)
      && Settled(h, sv.node.term, sv.node.log[..sv.high])
  }

  ghost predicate ServersOk(s: System, h: History) {
    && |s.servers| == s.n && |s.disks| == s.n && h.n == s.n
    && forall i: NodeId {:trigger ServerAt(s, h, i)} :: i < s.n ==> ServerAt(s, h, i)
  }

  ghost predicate ServerAt(s: System, h: History, i: NodeId)
    requires i < |s.servers| && i < |s.disks|
  {
    ServerOk(h, s.disks[i], s.servers[i], i, s.maxBatch)
  }

  ghost predicate SentOk(s: System, h: History) {
    forall m {:trigger PacketOk(h, m)} :: m in s.sent ==> PacketOk(h, m)
  }

  ghost function DurableOf(s: System, h: History): Durable {
    Durable(s.disks, h)
  }

  ghost predicate SystemOk(s: System, h: History) {
    Inv(DurableOf(s, h)) && ServersOk(s, h) && SentOk(s, h)
  }

  // ---------------------------------------------------------------- the first state

  lemma InitOk(s: System) returns (h: History)
    requires Init(s)
    ensures SystemOk(s, h)
  {
    h := History(s.n, map[], map[], map[], map[]);
    var a := DurableOf(s, h);
    forall v: NodeId | v < |a.disks| ensures DiskOk(a, v) {
    }
    forall i: NodeId | i < s.n ensures ServerAt(s, h, i) {
      BootedOk(a, s, i);
    }
  }

  lemma BootedOk(a: Durable, s: System, i: NodeId)
    requires i < s.n && i < |s.disks| && a.h.n == s.n
    ensures ServerOk(a.h, s.disks[i], Booted(s, i), i, s.maxBatch)
  {
    assert s.disks[i].log[..0] == [];
  }

  // ---------------------------------------------------------------- one step

  lemma ServerGrows(h: History, h': History, d: Persistent, sv: Server, i: NodeId, maxBatch: nat)
    requires Extends(h, h') && ServerOk(h, d, sv, i, maxBatch)
    ensures ServerOk(h', d, sv, i, maxBatch)
  {
    if sv.Up? {
      NodeOkGrows(h, h', d, sv.node, i);
      var p := sv.node.log[..sv.high];
      SettledGrows(h, h', sv.node.term, sv.node.term, p, p);
    }
  }

  /** Only server `i` and its disk changed, and the new messages are sound: the rest follows. */
  lemma OneServerChanged(s: System, h: History, s': System, h': History, i: NodeId)
    requires SystemOk(s, h) && i < s.n && Extends(h, h')
    requires s'.n == s.n && s'.maxBatch == s.maxBatch && |s'.servers| == |s'.disks| == s.n
    requires forall j :: 0 <= j < s.n && j != i ==> s'.servers[j] == s.servers[j] && s'.disks[j] == s.disks[j]
    requires Inv(DurableOf(s', h')) && ServerAt(s', h', i)
    requires forall m :: m in s'.sent && m !in s.sent ==> PacketOk(h', m)
    ensures SystemOk(s', h')
  {
    forall j: NodeId | j < s'.n ensures ServerAt(s', h', j) {
      if j != i {
        assert ServerAt(s, h, j);
        ServerGrows(h, h', s.disks[j], s.servers[j], j, s.maxBatch);
      }
    }
    forall m | m in s'.sent ensures PacketOk(h', m) {
      if m in s.sent {
        assert PacketOk(h, m);
        PacketOkGrows(h, h', m);
      }
    }
  }

  /** A completed call leaves the store's relation to the log alone: what it was given is committed,
      so it is still there. */
  lemma StoreKept(a: Durable, a': Durable, i: NodeId, up: Server, nd': NodeState, maxBatch: nat)
    requires i < |a.disks| && up.Up? && ServerOk(a.h, a.disks[i], up, i, maxBatch)
    requires Grows(a, a') && NodeOk(a'.h, a'.disks[i], nd', i) && SameNode(up.node, nd')
    ensures ServerOk(a'.h, a'.disks[i], up.(node := nd'), i, maxBatch)
  {
    var p := up.node.log[..up.high];
    assert Holds(a, i, p);
    assert Holds(a', i, p);
    assert nd'.log[..up.high] == p;
    assert nd'.log[up.node.appliedIndex..up.high] == up.node.log[up.node.appliedIndex..up.high];
  }

  lemma CompletedKeeps(s: System, h: History, i: NodeId, step: StepOut, h': History)
    requires SystemOk(s, h) && i < s.n && s.servers[i].Up? && SameNode(s.servers[i].node, step.node)
    requires Good(DurableOf(s, h), i, step, h')
    ensures SystemOk(Completed(s, i, step), h') && Grows(DurableOf(s, h), DurableOf(Completed(s, i, step), h'))
  {
    var s' := Completed(s, i, step);
    assert ServerAt(s, h, i);
    assert After(DurableOf(s, h), i, step.writes, h') == DurableOf(s', h');
    StoreKept(DurableOf(s, h), DurableOf(s', h'), i, s.servers[i], step.node, s.maxBatch);
    NewPacketsOk(h', i, step.out);
    OneServerChanged(s, h, s', h', i);
  }

  lemma RunKeeps(s: System, h: History, i: NodeId, input: Input) returns (h': History)
    requires SystemOk(s, h) && Available(s, i, input)
    ensures SystemOk(Next(s, Run(i, input)), h')
    ensures Grows(DurableOf(s, h), DurableOf(Next(s, Run(i, input)), h'))
  {
    var a, nd := DurableOf(s, h), s.servers[i].node;
    assert ServerAt(s, h, i);
    if input.Receive? {
      assert PacketOk(h, Packet(input.from, i, input.message));
    }
    StepOk(a, i, nd, input);
    h' :| Good(a, i, Step(nd, input), h');
    StepShape(nd, input);
    CompletedKeeps(s, h, i, Step(nd, input), h');
  }

  lemma NewPacketsOk(h: History, i: NodeId, out: seq<Outgoing>)
    requires OutOk(h, i, out)
    ensures forall m :: m in Packets(i, out) ==> PacketOk(h, m)
  {
  }

  lemma StepCut(a: Durable, i: NodeId, nd: NodeState, input: Input, k: nat) returns (h: History)
    requires Inv(a) && i < |a.disks| && NodeOk(a.h, a.disks[i], nd, i)
    requires input.Receive? ==> PacketOk(a.h, Packet(input.from, i, input.message))
    requires k <= |Step(nd, input).writes|
    ensures Recovers(a, After(a, i, Step(nd, input).writes[..k], h))
  {
    StepOk(a, i, nd, input);
    var ws := Step(nd, input).writes[..k];
    assert Survives(a, i, ws);
    h :| Recovers(a, After(a, i, ws, h));
  }

  lemma CrashDuringKeeps(s: System, h: History, i: NodeId, input: Input, k: nat) returns (h': History)
    requires SystemOk(s, h) && Available(s, i, input) && k <= |Step(s.servers[i].node, input).writes|
    ensures SystemOk(Next(s, CrashDuring(i, input, k)), h')
    ensures Grows(DurableOf(s, h), DurableOf(Next(s, CrashDuring(i, input, k)), h'))
  {
    var a, s', nd := DurableOf(s, h), Next(s, CrashDuring(i, input, k)), s.servers[i].node;
    assert ServerAt(s, h, i);
    if input.Receive? {
      assert PacketOk(h, Packet(input.from, i, input.message));
    }
    h' := StepCut(a, i, nd, input, k);
    assert After(a, i, Step(nd, input).writes[..k], h') == DurableOf(s', h');
    assert ServerAt(s', h', i);
    OneServerChanged(s, h, s', h', i);
  }

  lemma DeliverKeeps(s: System, h: History, i: NodeId)
    requires SystemOk(s, h) && Enabled(s, Deliver(i))
    ensures SystemOk(Next(s, Deliver(i)), h)
  {
    var s', up := Next(s, Deliver(i)), s.servers[i];
    var nd := up.node;
    assert ServerAt(s, h, i);
    BatchIsStretch(nd);
    Kv.DeliveryCompletes(up.store, nd.log, nd.appliedIndex, up.high, nd.commitIndex);
    NodeDelivered(h, s.disks[i], nd, i);
    assert ServerAt(s', h, i);
    OneServerChanged(s, h, s', h, i);
  }

  lemma NodeDelivered(h: History, d: Persistent, nd: NodeState, i: NodeId)
    requires NodeOk(h, d, nd, i)
    ensures NodeOk(h, d, Delivered(nd), i)
  {
    if nd.role == Leader {
      forall p: NodeId | p < nd.n ensures MatchOk(h, Delivered(nd), p) {
        assert MatchOk(h, nd, p);
      }
    }
  }

  /** Every action keeps the invariant for an extended history. */
  lemma NextKeeps(s: System, h: History, act: Action) returns (h': History)
    requires SystemOk(s, h) && Enabled(s, act)
    ensures SystemOk(Next(s, act), h') && Grows(DurableOf(s, h), DurableOf(Next(s, act), h'))
  {
    h' := h;
    match act
    case Run(i, input) =>
      h' := RunKeeps(s, h, i, input);
    case CrashDuring(i, input, k) =>
      h' := CrashDuringKeeps(s, h, i, input, k);
    case Deliver(i) =>
      DeliverKeeps(s, h, i);
    case Crash(i) =>
      assert ServerAt(Next(s, act), h, i);
      OneServerChanged(s, h, Next(s, act), h, i);
    case Restart(i) =>
      BootedOk(DurableOf(s, h), s, i);
      assert ServerAt(Next(s, act), h, i);
      OneServerChanged(s, h, Next(s, act), h, i);
  }

  // ---------------------------------------------------------------- whole runs

  ghost predicate GrowsFrom(s: System, h: History, s': System, h': History) {
    Grows(DurableOf(s, h), DurableOf(s', h'))
  }

  ghost predicate Witnessed(run: seq<System>, hs: seq<History>) {
    && |hs| == |run|
    && (forall k :: 0 <= k < |run| ==> SystemOk(run[k], hs[k]))
    && (forall j, k :: 0 <= j <= k < |run| ==> GrowsFrom(run[j], hs[j], run[k], hs[k]))
  }

  /** A run has a chain of growing histories, one for each state. */
  lemma {:induction false} RunWitnessed(run: seq<System>) returns (hs: seq<History>)
    requires IsRun(run)
    ensures Witnessed(run, hs)
    decreases |run|
  {
    if |run| == 1 {
      hs := WitnessFirst(run[0]);
      assert run == [run[0]];
    } else {
      PrefixIsRun(run, |run| - 1);
      var fs := RunWitnessed(run[..|run| - 1]);
      hs := WitnessLast(run, fs);
    }
  }

  lemma WitnessLast(run: seq<System>, fs: seq<History>) returns (hs: seq<History>)
    requires IsRun(run) && |run| > 1 && Witnessed(run[..|run| - 1], fs)
    ensures Witnessed(run, hs)
  {
    var front, s := run[..|run| - 1], run[|run| - 1];
    assert StepAt(run, |run| - 2) && run == front + [s];
    hs := WitnessNext(front, fs, s);
  }

  lemma WitnessNext(run: seq<System>, hs: seq<History>, s: System) returns (hs': seq<History>)
    requires Witnessed(run, hs) && |run| > 0 && IsStep(run[|run| - 1], s)
    ensures Witnessed(run + [s], hs')
  {
    var h := StepWitnessed(run[|run| - 1], hs[|run| - 1], s);
    hs' := hs + [h];
    WitnessExtends(run, hs, s, h);
  }

  lemma WitnessFirst(s: System) returns (hs: seq<History>)
    requires Init(s)
    ensures Witnessed([s], hs)
  {
    var h := InitOk(s);
    hs := [h];
    assert GrowsFrom(s, h, s, h);
  }

  lemma StepWitnessed(s: System, h: History, s': System) returns (h': History)
    requires SystemOk(s, h) && IsStep(s, s')
    ensures SystemOk(s', h') && GrowsFrom(s, h, s', h')
  {
    var act :| Enabled(s, act) && s' == Next(s, act);
    h' := NextKeeps(s, h, act);
  }

  lemma WitnessExtends(run: seq<System>, hs: seq<History>, s: System, h: History)
    requires Witnessed(run, hs) && |run| > 0 && SystemOk(s, h)
    requires GrowsFrom(run[|run| - 1], hs[|run| - 1], s, h)
    ensures Witnessed(run + [s], hs + [h])
  {
    var last := |run| - 1;
    forall j, k | 0 <= j <= k < |run + [s]|
      ensures GrowsFrom((run + [s])[j], (hs + [h])[j], (run + [s])[k], (hs + [h])[k])
    {
      if j <= last {
        assert GrowsFrom(run[j], hs[j], run[last], hs[last]);
        if k <= last {
          assert GrowsFrom(run[j], hs[j], run[k], hs[k]);
        } else {
          GrowsTransitive(DurableOf(run[j], hs[j]), DurableOf(run[last], hs[last]), DurableOf(s, h));
        }
      }
    }
  }
}
