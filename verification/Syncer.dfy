/** internal/agent/syncer.go: fetch, save, then acknowledge every item with the snapshot's revision. */
module Syncer {
  import opened Wrappers
  import opened Guardrails
  import opened Cohorts
  import opened DataPlane
  import opened AgentCache
  import SnapshotTheorems

  datatype Fetched = FetchFailed | Unchanged | Changed(snapshot: Snapshot, etag: string)

  /** The acknowledgements for a snapshot's first `n` items. */
  function AcksFor(agentID: string, s: Snapshot, n: nat, at: Time): (acks: seq<Ack>)
    requires n <= |s.configs|
    ensures |acks| == n && forall i :: 0 <= i < n ==>
      acks[i] == SnapshotTheorems.AckFor(agentID, s.configs[i], s.revision, at)
  {
    seq(n, i requires 0 <= i < n => SnapshotTheorems.AckFor(agentID, s.configs[i], s.revision, at))
  }

  class Syncer {
    const cache: SnapshotCache
    const agentID: string
    const acknowledges: bool
    var etag: string
    ghost var sent: seq<Ack>

    constructor (cache: SnapshotCache, agentID: string, acknowledges: bool)
      ensures this.cache == cache && this.agentID == agentID && this.acknowledges == acknowledges && etag == ""
      ensures sent == []
    {
      this.cache, this.agentID, this.acknowledges, etag, sent := cache, agentID, acknowledges, "", [];
    }

    /** The items to acknowledge: none without an acknowledger. */
    function Due(s: Snapshot): nat {
      if acknowledges then |s.configs| else 0
    }

    /**
     * Nothing is acknowledged, and the etag stays, unless the snapshot was saved; a refused acknowledgement ends the
     * round.
     */
    method SyncOnce(fetched: Fetched, f: Faults, accepts: Ack -> bool, at: Time) returns (ok: bool, ghost n: nat)
      modifies this`etag, this`sent, cache`snapshot, cache.files
      ensures var saved := fetched.Changed? && cache.codec.valid(fetched.snapshot)
        && Succeeds(old(cache.files.State()), f);
        && etag == (if saved then fetched.etag else old(etag))
        && cache.snapshot == (if saved then Some(fetched.snapshot) else old(cache.snapshot))
        && (!saved ==> sent == old(sent) && ok == fetched.Unchanged?)
        && (saved ==>
              n <= Due(fetched.snapshot) <= |fetched.snapshot.configs|
              && sent == old(sent) + AcksFor(agentID, fetched.snapshot, n, at)
              && (forall i :: 0 <= i < n - 1 ==> accepts(AcksFor(agentID, fetched.snapshot, n, at)[i]))
              && ok == (n == Due(fetched.snapshot)
                        && (n > 0 ==> accepts(AcksFor(agentID, fetched.snapshot, n, at)[n - 1]))))
    {
      hide Succeeds, SnapshotTheorems.AckFor;
      n := 0;
      match fetched {
        case FetchFailed => return false, 0;
        case Unchanged => return true, 0;
        case Changed(snapshot, newTag) =>
          var saved := cache.Save(snapshot, f);
          if !saved {
            return false, 0;
          }
          etag := newTag;
          for i := 0 to Due(snapshot)
            invariant etag == newTag && cache.snapshot == Some(snapshot)
            invariant sent == old(sent) + AcksFor(agentID, snapshot, i, at)
            invariant forall j :: 0 <= j < i ==>
              accepts(SnapshotTheorems.AckFor(agentID, snapshot.configs[j], snapshot.revision, at))
          {
            var ack := SnapshotTheorems.AckFor(agentID, snapshot.configs[i], snapshot.revision, at);
            sent := sent + [ack];
            n := i + 1;
            assert sent == old(sent) + AcksFor(agentID, snapshot, n, at);
            if !accepts(ack) {
              return false, n;
            }
          }
          return true, Due(snapshot);
      }
    }
  }
}
