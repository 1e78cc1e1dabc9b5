/** The storage a node writes to. `MemStorage` is the reference: a record that outlives the node. The
    ghost trace remembers the writes in order. */
module Storage {
  import opened Types

  class MemStorage {
    var disk: Persistent
    ghost var trace: seq<Write>

    constructor ()
      ensures disk == EMPTY_DISK && trace == []
    {
      disk := EMPTY_DISK;
      trace := [];
    }

    method Load() returns (p: Persistent)
      ensures p == disk
    {
      p := disk;
    }

    method SaveHardState(term: Term, votedFor: Option<NodeId>)
      modifies this
      ensures disk == ApplyWrite(old(disk), Write.SaveHardState(term, votedFor))
      ensures trace == old(trace) + [Write.SaveHardState(term, votedFor)]
    {
      disk := Persistent(term, votedFor, disk.log);
      trace := trace + [Write.SaveHardState(term, votedFor)];
    }

    method Append(entries: seq<Entry>)
      modifies this
      ensures disk == ApplyWrite(old(disk), Write.Append(entries))
      ensures trace == old(trace) + [Write.Append(entries)]
    {
      disk := Persistent(disk.term, disk.votedFor, disk.log + entries);
      trace := trace + [Write.Append(entries)];
    }

    method TruncateFrom(index: Index)
      modifies this
      ensures disk == ApplyWrite(old(disk), Write.TruncateFrom(index))
      ensures trace == old(trace) + [Write.TruncateFrom(index)]
    {
      var keep := if index == 0 then 0 else index - 1;
      if keep < |disk.log| {
        disk := Persistent(disk.term, disk.votedFor, disk.log[..keep]);
      }
      trace := trace + [Write.TruncateFrom(index)];
    }
  }
}
