/** The DeterministicSimulator object: two or three peers, a clock, offline queues and deletion receipts. */
module SyncHarness {
  import opened SyncModel
  import opened SyncTransitions
  import opened SyncPeer
  import opened SyncSimulator

  /** The space and the schema version of a peer that is set up without arguments. */
  const DEFAULT_CONFIG := Config("space_sync_synthetic", {1}, map[])

  class DeterministicSimulator {
    var peers: map<string, Peer>
    var tick: int
    var offline: set<string>
    var queue: map<string, seq<Envelope>>
    var required: map<string, set<string>>
    var receipts: map<string, set<string>>
    ghost var states: map<string, PeerState>  // what the peers hold

    /** Every peer is filed under its own id, so different ids name different objects. */
    ghost predicate Valid()
      reads this, peers.Values
    {
      && states.Keys == peers.Keys
      && (forall p :: p in peers ==> peers[p].peerId == p && peers[p].State() == states[p])
    }

    ghost function View(): SimState
      reads this
    {
      SimState(states, tick, offline, queue, required, receipts)
    }

    constructor (ids: seq<string>)
      requires |ids| in {2, 3} && forall i, j :: 0 <= i < j < |ids| ==> ids[i] != ids[j]
      ensures Valid() && forall p :: p in peers ==> fresh(peers[p])
      ensures View() == Start((set id | id in ids), DEFAULT_CONFIG)
    {
      peers, tick, offline, queue, required, receipts, states := map[], 0, {}, map[], map[], map[], map[];
      new;
      hide Fresh;
      for i := 0 to |ids|
        invariant Valid() && forall p :: p in peers ==> fresh(peers[p])
        invariant forall id :: id in peers <==> id in ids[..i]
        invariant forall p :: p in states ==> states[p] == Fresh(DEFAULT_CONFIG)
        invariant tick == 0 && offline == {} && queue == map[] && required == map[] && receipts == map[]
      {
        assert ids[..i + 1] == ids[..i] + [ids[i]];
        assert ids[i] !in ids[..i];
        AddPeer(ids[i]);
      }
      assert ids[..|ids|] == ids;
    }

    method AddPeer(id: string)
      requires Valid() && id !in peers
      modifies this`peers, this`states
      ensures Valid() && peers.Keys == old(peers).Keys + {id} && fresh(peers[id])
      ensures states == old(states)[id := Fresh(DEFAULT_CONFIG)]
      ensures forall p :: p in old(peers) ==> peers[p] == old(peers)[p]
    {
      var p := new Peer(id, DEFAULT_CONFIG.spaceId, DEFAULT_CONFIG.supported);
      peers, states := peers[id := p], states[id := p.State()];
    }

    /** A peer receives an envelope at the current tick and the receipt is tracked. */
    method HandTo(e: Envelope, peer: string) returns (receipt: Receipt)
      requires Valid() && peer in peers
      modifies this`required, this`receipts, this`states, peers[peer]
      ensures Valid() && View() == Hand(old(View()), e, peer)
      ensures receipt == Receive(old(states)[peer], e, tick).receipt
    {
      hide Receive, Track, Peer.State;
      receipt := ReceiveAt(e, peer);
      TrackTombstone(e, peer, receipt);
    }

    method ReceiveAt(e: Envelope, peer: string) returns (receipt: Receipt)
      requires Valid() && peer in peers
      modifies this`states, peers[peer]
      ensures Valid()
      ensures var r := Receive(old(states)[peer], e, tick); receipt == r.receipt && states == old(states)[peer := r.st]
    {
      hide Receive, Peer.State;
      ghost var r := Receive(states[peer], e, tick);
      receipt := peers[peer].ReceiveEnvelope(e, tick);
      states := states[peer := r.st];
    }

    method TrackTombstone(e: Envelope, peer: string, receipt: Receipt)
      requires states.Keys == peers.Keys
      modifies this`required, this`receipts
      ensures View() == Track(old(View()), e, peer, receipt)
    {
      if e.operation != Tombstone {
        return;
      }
      required := required[e.objectId := Ids(required, e.objectId) + e.payload.requiredPeers.GetOr(peers.Keys)];
      if receipt.semanticApplied || receipt.code == DuplicateEnvelope {
        receipts := receipts[e.objectId := Ids(receipts, e.objectId) + {peer}];
      }
    }

    method DeliverTo(e: Envelope, peer: string) returns (receipt: Receipt)
      requires Valid() && peer in peers
      modifies this`tick, this`queue, this`required, this`receipts, this`states, peers[peer]
      ensures Valid() && View() == Deliver(old(View()), e, peer)
      ensures peer in offline ==> receipt.status == QueuedOffline && receipt.code == PeerOffline
    {
      hide Receive, Hand, Peer.State;
      tick := tick + 1;
      if peer in offline {
        queue := queue[peer := (if peer in queue then queue[peer] else []) + [e]];
        return Receipt(SlotOf(e), QueuedOffline, PeerOffline, peers[peer].CursorOf(e.device), false);
      }
      receipt := HandTo(e, peer);
    }

    method SetOnline(peer: string, online: bool)
      requires Valid()
      modifies this`offline
      ensures Valid() && View() == Act(old(View()), if online then GoOnline(peer) else GoOffline(peer))
    {
      offline := if online then offline - {peer} else offline + {peer};
    }

    /** replay_offline; replaying for a peer that is still offline is an error and changes nothing. */
    method ReplayOffline(peer: string, reverse: bool) returns (replayed: bool)
      requires Valid() && peer in peers
      modifies this`tick, this`queue, this`required, this`receipts, this`states, peers[peer]
      ensures Valid() && replayed == (peer !in offline)
      ensures View() == if replayed then Replay(old(View()), peer, reverse) else old(View())
    {
      hide Receive, Hand, Deliver, DeliverAll, Peer.State;
      if peer in offline {
        return false;
      }
      var queued := if peer in queue then queue[peer] else [];
      if reverse {
        queued := Reverse(queued);
      }
      queue := queue - {peer};
      DeliverQueued(queued, peer);
      return true;
    }

    method DeliverQueued(queued: seq<Envelope>, peer: string)
      requires Valid() && peer in peers
      modifies this`tick, this`queue, this`required, this`receipts, this`states, peers[peer]
      ensures Valid() && View() == DeliverAll(old(View()), queued, peer)
    {
      hide Receive, Hand, Deliver, Peer.State;
      ghost var start := View();
      for i := 0 to |queued|
        invariant Valid() && View() == DeliverAll(start, queued[..i], peer)
      {
        assert queued[..i + 1][..i] == queued[..i];
        var _ := DeliverTo(queued[i], peer);
      }
      assert queued[..|queued|] == queued;
    }
  }
}
