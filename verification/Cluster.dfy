/** The cluster as a transition system: nodes that are up or down, a disk for each, and the set of
    messages ever sent. A message that was sent may arrive any number of times, in any order, or
    never, which covers loss, duplication, reordering and partitions. A node may crash between
    calls, or inside one after any number of its storage writes, before anything is sent. */
module Cluster {
  import opened Types
  import opened NodeSpec
  import Kv

  datatype Packet = Packet(from: NodeId, to: NodeId, message: Message)

  /** A live node with the key-value store it feeds; `high` is the highest index delivered to the
      store since boot. */
  datatype Server = Down | Up(node: NodeState, store: Kv.Contents, high: Index)

  datatype System = System(n: nat, maxBatch: nat, servers: seq<Server>, disks: seq<Persistent>, sent: set<Packet>)

  datatype Action =
    | Run(i: NodeId, input: Input)
    | CrashDuring(i: NodeId, input: Input, writes: nat)
    | Crash(i: NodeId)
    | Restart(i: NodeId)
    | Deliver(i: NodeId)

  function Booted(s: System, i: NodeId): Server
    requires i < s.n && i < |s.disks|
  {
    Up(Boot(i, s.n, s.maxBatch, s.disks[i]), map[], 0)
  }

  /** Every node starts from an empty disk. */
  ghost predicate Init(s: System) {
    && s.sent == {}
    && |s.servers| == s.n && |s.disks| == s.n
    && forall i :: 0 <= i < s.n ==> s.disks[i] == EMPTY_DISK && s.servers[i] == Booted(s, i)
  }

  ghost predicate Available(s: System, i: NodeId, input: Input) {
    && i < |s.servers| && i < |s.disks|
    && s.servers[i].Up?
    && Shape(s.servers[i].node)
    && (input.Receive? ==> Packet(input.from, i, input.message) in s.sent)
  }

  ghost function Packets(from: NodeId, out: seq<Outgoing>): set<Packet> {
    set o | o in out :: Packet(from, o.to, o.message)
  }

  /** What the state machine is given: the delivered entries without their indices. */
  function EntriesOf(batch: seq<(Index, Entry)>): seq<Entry> {
    seq(|batch|, i requires 0 <= i < |batch| => batch[i].1)
  }

  function DeliverTo(up: Server): Server
    requires up.Up? && up.node.commitIndex <= |up.node.log|
  {
    var batch := EntriesOf(Delivery(up.node));
    Up(Delivered(up.node), Kv.ApplyEntries(up.store, batch), Max(up.high, up.node.commitIndex))
  }

  lemma BatchIsStretch(nd: NodeState)
    requires nd.commitIndex <= |nd.log|
    ensures EntriesOf(Delivery(nd)) ==
            if nd.appliedIndex < nd.commitIndex then nd.log[nd.appliedIndex..nd.commitIndex] else []
  {
    DeliveryIsStretch(nd, nd.commitIndex);
  }

  ghost predicate Enabled(s: System, act: Action) {
    match act
    case Run(i, input) => Available(s, i, input)
    case CrashDuring(i, input, k) => Available(s, i, input) && k <= |Step(s.servers[i].node, input).writes|
    case Crash(i) => i < |s.servers|
    case Restart(i) => i < s.n && i < |s.servers| && i < |s.disks| && s.servers[i].Down?
    case Deliver(i) => i < |s.servers| && s.servers[i].Up? && s.servers[i].node.commitIndex <= |s.servers[i].node.log|
  }

  /** The state after a completed call that came to `step`. */
  ghost function Completed(s: System, i: NodeId, step: StepOut): System
    requires i < |s.servers| && i < |s.disks| && s.servers[i].Up?
  {
    s.(servers := s.servers[i := s.servers[i].(node := step.node)],
       disks := s.disks[i := ApplyWrites(s.disks[i], step.writes)],
       sent := s.sent + Packets(i, step.out))
  }

  ghost function Next(s: System, act: Action): System
    requires Enabled(s, act)
  {
    match act
    case Run(i, input) =>
      Completed(s, i, Step(s.servers[i].node, input))
    case CrashDuring(i, input, k) =>
      var step := Step(s.servers[i].node, input);
      s.(servers := s.servers[i := Down],
         disks := s.disks[i := ApplyWrites(s.disks[i], step.writes[..k])])
    case Crash(i) => s.(servers := s.servers[i := Down])
    case Restart(i) => s.(servers := s.servers[i := Booted(s, i)])
    case Deliver(i) => s.(servers := s.servers[i := DeliverTo(s.servers[i])])
  }

  ghost predicate IsStep(s: System, s': System) {
    exists act :: Enabled(s, act) && s' == Next(s, act)
  }

  ghost predicate StepAt(run: seq<System>, k: nat)
    requires k + 1 < |run|
  {
    IsStep(run[k], run[k + 1])
  }

  /** A run: any finite interleaving of the actions, from the empty cluster. */
  ghost predicate IsRun(run: seq<System>) {
    && |run| > 0 && Init(run[0])
    && forall k: nat {:trigger StepAt(run, k)} :: k + 1 < |run| ==> StepAt(run, k)
  }

  ghost function Last(run: seq<System>): System
    requires |run| > 0
  {
    run[|run| - 1]
  }

  lemma Extend(run: seq<System>, s: System)
    requires IsRun(run) && IsStep(Last(run), s)
    ensures IsRun(run + [s])
  {
    forall k: nat | k + 1 < |run + [s]| ensures StepAt(run + [s], k) {
      assert k + 1 < |run| ==> StepAt(run, k);
    }
  }

  lemma PrefixIsRun(run: seq<System>, n: nat)
    requires IsRun(run) && 0 < n <= |run|
    ensures IsRun(run[..n])
  {
    forall k: nat | k + 1 < n ensures StepAt(run[..n], k) {
      assert StepAt(run, k);
    }
  }
}
