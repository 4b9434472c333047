/**
 The peer table of a group call: a map from a peer's public key to the
 output channel subscribed for it, the effect of each table operation on
 the table and the ledger, and what a whole group call lifetime leaves
 behind.
 */
module GroupPeers {
  import opened Devices
  import opened CallLedger

  /** A peer's public key (ToxPk), as bytes. */
  type PeerKey = seq<bv8>

  // Map and multiset algebra helpers (Pick, RemoveShrinks, RemoveAbsent, UpdateThenRemove,
  // RemoveCommutes, SwapLast, Rebalance, JoinLost): each states one equation the solver
  // proves alone but not inside the larger proofs that use it.

  /** Some key of a non-empty table. */
  ghost function Pick(m: map<PeerKey, Handle>): (k: PeerKey)
    requires m != map[]
    ensures k in m
  {
    var k :| k in m; k
  }

  lemma RemoveShrinks(m: map<PeerKey, Handle>, k: PeerKey)
    requires k in m
    ensures |m - {k}| < |m|
  {
    assert (m - {k}).Keys < m.Keys;
  }

  lemma RemoveAbsent(m: map<PeerKey, Handle>, k: PeerKey)
    requires k !in m
    ensures m - {k} == m
  {
  }

  lemma UpdateThenRemove(m: map<PeerKey, Handle>, k: PeerKey, h: Handle)
    ensures m[k := h] - {k} == m - {k}
  {
  }

  lemma RemoveCommutes(m: map<PeerKey, Handle>, j: PeerKey, k: PeerKey)
    ensures m - {j} - {k} == m - {k} - {j}
  {
  }

  lemma SwapLast(a: multiset<Handle>, b: multiset<Handle>, c: multiset<Handle>, d: multiset<Handle>, x: Handle, y: Handle)
    requires a == multiset{x} + b && b == d + multiset{y} && c == d + multiset{x}
    ensures a == c + multiset{y}
  {
  }

  /** The channels held by the table, one per entry. */
  ghost function Values(m: map<PeerKey, Handle>): (r: multiset<Handle>)
    ensures r == multiset{} <==> m == map[]
    decreases |m|
  {
    if m == map[] then multiset{}
    else
      var k := Pick(m);
      RemoveShrinks(m, k);
      multiset{m[k]} + Values(m - {k})
  }

  /** Taking any one entry out of the table takes exactly its channel out of Values. */
  lemma {:induction false} ValuesRemove(m: map<PeerKey, Handle>, k: PeerKey)
    requires k in m
    ensures Values(m) == Values(m - {k}) + multiset{m[k]}
    decreases |m|
  {
    var j := Pick(m);
    if j != k {
      var mj, mk := m - {j}, m - {k};
      RemoveShrinks(m, j);
      RemoveShrinks(m, k);
      ValuesRemove(mj, k);
      ValuesRemove(mk, j);
      RemoveCommutes(m, j, k);
      SwapLast(Values(m), Values(mj), Values(mk), Values(mj - {k}), m[j], m[k]);
    }
  }

  /** Values holds exactly the channels of the table: each entry's, and no other. */
  lemma {:induction false} ValuesMembers(m: map<PeerKey, Handle>)
    ensures forall k :: k in m ==> m[k] in Values(m)
    ensures forall h :: h in Values(m) ==> exists k :: k in m && m[k] == h
    decreases |m|
  {
    if m != map[] {
      var j := Pick(m);
      RemoveShrinks(m, j);
      ValuesMembers(m - {j});
      forall k | k in m
        ensures m[k] in Values(m)
      {
        if k != j {
          assert k in m - {j};
        }
      }
      forall h | h in Values(m)
        ensures exists k :: k in m && m[k] == h
      {
        if h != m[j] {
          var k :| k in m - {j} && (m - {j})[k] == h;
          assert k in m && m[k] == h;
        }
      }
    }
  }

  /** One channel per entry. */
  lemma {:induction false} ValuesSize(m: map<PeerKey, Handle>)
    ensures |Values(m)| == |m|
    decreases |m|
  {
    if m != map[] {
      var k := Pick(m);
      RemoveShrinks(m, k);
      ValuesSize(m - {k});
    }
  }

  /** Storing h under key k replaces the channel k held, if any, by h. */
  lemma ValuesUpdate(m: map<PeerKey, Handle>, k: PeerKey, h: Handle)
    ensures Values(m[k := h]) == Values(m - {k}) + multiset{h}
    ensures k in m ==> Values(m) == Values(m - {k}) + multiset{m[k]}
  {
    UpdateThenRemove(m, k, h);
    ValuesRemove(m[k := h], k);
    if k in m {
      ValuesRemove(m, k);
    }
  }

  /** A group call's peer table together with the device ledger. */
  datatype GroupState = GroupState(ledger: Ledger, peers: map<PeerKey, Handle>)

  /** addPeer(p) after the audio service handed out channel h. */
  function AddPeerStep(s: GroupState, p: PeerKey, h: Handle): (r: GroupState)
    ensures p in r.peers && r.peers[p] == h && h in r.ledger.outputs
    ensures r.ledger.inputRefs == s.ledger.inputRefs && r.ledger.cameraRefs == s.ledger.cameraRefs
  {
    GroupState(s.ledger.(outputs := s.ledger.outputs + multiset{h}), s.peers[p := h])
  }

  /** removePeer(p). */
  function RemovePeerStep(s: GroupState, p: PeerKey): (r: GroupState)
    ensures p !in r.peers
    ensures r.ledger.inputRefs == s.ledger.inputRefs && r.ledger.cameraRefs == s.ledger.cameraRefs
  {
    if p !in s.peers then s
    else GroupState(s.ledger.(outputs := s.ledger.outputs - multiset{s.peers[p]}), s.peers - {p})
  }

  /** clearPeers(). */
  ghost function ClearPeersStep(s: GroupState): (r: GroupState)
    ensures r.peers == map[]
    ensures r.ledger.outputs <= s.ledger.outputs
    ensures r.ledger.inputRefs == s.ledger.inputRefs && r.ledger.cameraRefs == s.ledger.cameraRefs
  {
    GroupState(s.ledger.(outputs := s.ledger.outputs - Values(s.peers)), map[])
  }

  /** The group-call constructor: an empty table. */
  function GroupCreate(l: Ledger): (r: GroupState)
    ensures r.peers == map[] && Values(r.peers) == multiset{}
    ensures r.ledger == l.(inputRefs := l.inputRefs + 1)
  {
    GroupState(GroupAcquire(l), map[])
  }

  /** ~ToxGroupCall (every channel in the table) followed by ~ToxCall. */
  ghost function GroupDestroy(s: GroupState, videoEnabled: bool): (r: Ledger)
    ensures r.outputs == s.ledger.outputs - Values(s.peers)
    ensures r.inputRefs == s.ledger.inputRefs - 1
    ensures r.cameraRefs == (if videoEnabled then s.ledger.cameraRefs - 1 else s.ledger.cameraRefs)
  {
    ReleaseBase(s.ledger.(outputs := s.ledger.outputs - Values(s.peers)), videoEnabled)
  }

  /**
   After addPeer(p): p is in the table and maps to the new channel, the
   ledger holds one more channel, and no other entry changed. When p was
   already a key, its old channel is dropped from the table but stays
   subscribed.
   */
  lemma AddPeerEffect(s: GroupState, p: PeerKey, h: Handle)
    ensures p in AddPeerStep(s, p, h).peers && AddPeerStep(s, p, h).peers[p] == h
    ensures AddPeerStep(s, p, h).peers.Keys == s.peers.Keys + {p}
    ensures forall q :: q in s.peers && q != p ==> AddPeerStep(s, p, h).peers[q] == s.peers[q]
    ensures |AddPeerStep(s, p, h).ledger.outputs| == |s.ledger.outputs| + 1
    ensures p !in s.peers ==> Values(AddPeerStep(s, p, h).peers) == Values(s.peers) + multiset{h}
    ensures p in s.peers ==>
      Values(AddPeerStep(s, p, h).peers) + multiset{s.peers[p]} == Values(s.peers) + multiset{h}
    ensures s.ledger.outputs <= AddPeerStep(s, p, h).ledger.outputs
  {
    ValuesUpdate(s.peers, p, h);
    var r := AddPeerStep(s, p, h);
    if p in s.peers {
      var rest := Values(s.peers - {p});
      assert Values(r.peers) + multiset{s.peers[p]} == rest + multiset{h} + multiset{s.peers[p]};
    } else {
      RemoveAbsent(s.peers, p);
    }
  }

  /**
   removePeer(p) of an absent p changes nothing; of a present p it gives
   back exactly the channel p held, removes only key p, and keeps the
   table's channels in step with the ledger.
   */
  lemma RemovePeerEffect(s: GroupState, p: PeerKey)
    ensures p !in s.peers ==> RemovePeerStep(s, p) == s
    ensures p !in RemovePeerStep(s, p).peers
    ensures RemovePeerStep(s, p).peers.Keys == s.peers.Keys - {p}
    ensures forall q :: q in RemovePeerStep(s, p).peers ==> RemovePeerStep(s, p).peers[q] == s.peers[q]
    ensures p in s.peers ==>
      RemovePeerStep(s, p).ledger.outputs == s.ledger.outputs - multiset{s.peers[p]}
    ensures p in s.peers ==>
      Values(RemovePeerStep(s, p).peers) + multiset{s.peers[p]} == Values(s.peers)
    ensures RemovePeerStep(s, p).ledger.inputRefs == s.ledger.inputRefs
    ensures RemovePeerStep(s, p).ledger.cameraRefs == s.ledger.cameraRefs
  {
    if p in s.peers {
      ValuesRemove(s.peers, p);
    }
  }

  /**
   clearPeers() gives back one channel per entry, exactly the table's
   channels, and empties the table.
   */
  lemma ClearPeersEffect(s: GroupState)
    requires Values(s.peers) <= s.ledger.outputs
    ensures ClearPeersStep(s).peers == map[]
    ensures |s.ledger.outputs| - |ClearPeersStep(s).ledger.outputs| == |s.peers|
    ensures ClearPeersStep(s).ledger.outputs + Values(s.peers) == s.ledger.outputs
  {
    ValuesSize(s.peers);
    var r := ClearPeersStep(s).ledger.outputs;
    assert r + Values(s.peers) == s.ledger.outputs;
  }

  /** The peer-table operations a group call may see between construction and destruction. */
  datatype PeerOp = AddPeer(peer: PeerKey, handle: Handle) | RemovePeer(peer: PeerKey) | ClearPeers

  ghost function Apply(s: GroupState, op: PeerOp): GroupState
  {
    match op
    case AddPeer(p, h) => AddPeerStep(s, p, h)
    case RemovePeer(p) => RemovePeerStep(s, p)
    case ClearPeers => ClearPeersStep(s)
  }

  ghost function Run(s: GroupState, ops: seq<PeerOp>): GroupState
    decreases |ops|
  {
    if ops == [] then s else Run(Apply(s, ops[0]), ops[1..])
  }

  /** The channel one operation drops from the table without giving it back. */
  ghost function Lost(s: GroupState, op: PeerOp): multiset<Handle>
  {
    if op.AddPeer? && op.peer in s.peers then multiset{s.peers[op.peer]} else multiset{}
  }

  /** The channels that addPeer overwrote in the table, over a run of operations. */
  ghost function Orphaned(s: GroupState, ops: seq<PeerOp>): multiset<Handle>
    decreases |ops|
  {
    if ops == [] then multiset{} else Lost(s, ops[0]) + Orphaned(Apply(s, ops[0]), ops[1..])
  }

  /** No addPeer in the run names a peer that is in the table at that moment. */
  ghost predicate NoDuplicateAdd(s: GroupState, ops: seq<PeerOp>)
    decreases |ops|
  {
    ops == [] ||
    ((ops[0].AddPeer? ==> ops[0].peer !in s.peers) && NoDuplicateAdd(Apply(s, ops[0]), ops[1..]))
  }

  lemma AddKeepsOwnership(s: GroupState, p: PeerKey, h: Handle, extra: multiset<Handle>)
    requires s.ledger.outputs == extra + Values(s.peers)
    ensures AddPeerStep(s, p, h).ledger.outputs
         == extra + Lost(s, AddPeer(p, h)) + Values(AddPeerStep(s, p, h).peers)
  {
    AddPeerEffect(s, p, h);
    var v, v' := Values(s.peers), Values(AddPeerStep(s, p, h).peers);
    if p in s.peers {
      Rebalance(extra, v, v', multiset{s.peers[p]}, multiset{h});
    } else {
      Rebalance(extra, v, v', multiset{}, multiset{h});
    }
  }

  /** (e + v) + n == e + o + v' when v' + o == v + n. */
  lemma Rebalance(e: multiset<Handle>, v: multiset<Handle>, v': multiset<Handle>, o: multiset<Handle>, n: multiset<Handle>)
    requires v' + o == v + n
    ensures (e + v) + n == e + o + v'
  {
    calc {
      (e + v) + n;
      e + (v + n);
      e + (v' + o);
      e + o + v';
    }
  }

  lemma RemoveKeepsOwnership(s: GroupState, p: PeerKey, extra: multiset<Handle>)
    requires s.ledger.outputs == extra + Values(s.peers)
    ensures RemovePeerStep(s, p).ledger.outputs == extra + Values(RemovePeerStep(s, p).peers)
  {
    RemovePeerEffect(s, p);
    if p in s.peers {
      var v, v' := Values(s.peers), Values(RemovePeerStep(s, p).peers);
      Rebalance(extra, v', v, multiset{}, multiset{s.peers[p]});
    }
  }

  /** One operation keeps the split of the ledger into extra channels, lost ones and the table's. */
  lemma StepKeepsOwnership(s: GroupState, op: PeerOp, extra: multiset<Handle>)
    requires s.ledger.outputs == extra + Values(s.peers)
    ensures Apply(s, op).ledger.outputs == extra + Lost(s, op) + Values(Apply(s, op).peers)
    ensures Apply(s, op).ledger.inputRefs == s.ledger.inputRefs
    ensures Apply(s, op).ledger.cameraRefs == s.ledger.cameraRefs
  {
    match op
    case AddPeer(p, h) =>
      AddKeepsOwnership(s, p, h, extra);
    case RemovePeer(p) =>
      RemoveKeepsOwnership(s, p, extra);
    case ClearPeers =>
  }

  /**
   If the ledger holds extra channels on top of the table's, a run of
   table operations keeps that split: the extra channels plus the ones
   addPeer orphaned, plus the table's. The input and camera counts are
   never touched.
   */
  lemma {:induction false} RunKeepsOwnership(s: GroupState, ops: seq<PeerOp>, extra: multiset<Handle>)
    requires s.ledger.outputs == extra + Values(s.peers)
    ensures Run(s, ops).ledger.outputs == extra + Orphaned(s, ops) + Values(Run(s, ops).peers)
    ensures Run(s, ops).ledger.inputRefs == s.ledger.inputRefs
    ensures Run(s, ops).ledger.cameraRefs == s.ledger.cameraRefs
    decreases |ops|
  {
    if ops != [] {
      var t := Apply(s, ops[0]);
      StepKeepsOwnership(s, ops[0], extra);
      RunKeepsOwnership(t, ops[1..], extra + Lost(s, ops[0]));
      JoinLost(extra, Lost(s, ops[0]), Orphaned(t, ops[1..]), Values(Run(t, ops[1..]).peers));
    }
  }

  lemma JoinLost(a: multiset<Handle>, b: multiset<Handle>, c: multiset<Handle>, d: multiset<Handle>)
    ensures a + b + c + d == a + (b + c) + d
  {
  }

  /** Orphaned channels exist exactly when some addPeer named a peer already in the table. */
  lemma {:induction false} OrphanedEmpty(s: GroupState, ops: seq<PeerOp>)
    ensures Orphaned(s, ops) == multiset{} <==> NoDuplicateAdd(s, ops)
    decreases |ops|
  {
    if ops != [] {
      OrphanedEmpty(Apply(s, ops[0]), ops[1..]);
      if ops[0].AddPeer? && ops[0].peer in s.peers {
        assert s.peers[ops[0].peer] in Lost(s, ops[0]);
      }
    }
  }

  /**
   A group call built on ledger l, put through any run of table
   operations and destroyed with video still off, leaves l with exactly
   the orphaned channels added; so it leaves l unchanged if and only if
   no addPeer duplicated a key.
   */
  lemma GroupLifecycle(l: Ledger, ops: seq<PeerOp>)
    ensures GroupDestroy(Run(GroupCreate(l), ops), false)
        == l.(outputs := l.outputs + Orphaned(GroupCreate(l), ops))
    ensures GroupDestroy(Run(GroupCreate(l), ops), false) == l <==> NoDuplicateAdd(GroupCreate(l), ops)
  {
    var s := GroupCreate(l);
    assert Values(s.peers) == multiset{};
    RunKeepsOwnership(s, ops, l.outputs);
    var e := Run(s, ops);
    assert e.ledger.outputs - Values(e.peers) == l.outputs + Orphaned(s, ops);
    OrphanedEmpty(s, ops);
    var r := GroupDestroy(e, false);
    if r == l {
      assert r.outputs == l.outputs;
      assert l.outputs + Orphaned(s, ops) == l.outputs;
      assert |Orphaned(s, ops)| == 0;
    }
  }

  /**
   For every group call reached from construction by table operations,
   the table's channels are all subscribed, so clearPeers gives back
   exactly one channel per entry.
   */
  lemma ReachableClear(l: Ledger, ops: seq<PeerOp>)
    ensures Values(Run(GroupCreate(l), ops).peers) <= Run(GroupCreate(l), ops).ledger.outputs
    ensures var s := Run(GroupCreate(l), ops);
      |s.ledger.outputs| - |ClearPeersStep(s).ledger.outputs| == |s.peers|
  {
    var s := Run(GroupCreate(l), ops);
    RunKeepsOwnership(GroupCreate(l), ops, l.outputs);
    ClearPeersEffect(s);
  }

  /**
   Peers a and b join and a leaves: a has no entry, b keeps its channel,
   and destroying the call then restores the ledger it was built on.
   */
  lemma JoinLeaveScenario(l: Ledger, a: PeerKey, b: PeerKey, ha: Handle, hb: Handle)
    requires a != b
    ensures var s := RemovePeerStep(AddPeerStep(AddPeerStep(GroupCreate(l), a, ha), b, hb), a);
      a !in s.peers && b in s.peers && s.peers[b] == hb && GroupDestroy(s, false) == l
  {
    var s0 := GroupCreate(l);
    var s1 := AddPeerStep(s0, a, ha);
    var s2 := AddPeerStep(s1, b, hb);
    var s3 := RemovePeerStep(s2, a);
    var ops := [AddPeer(a, ha), AddPeer(b, hb), RemovePeer(a)];
    assert Run(s2, ops[2..]) == s3 by { assert ops[2..][1..] == []; }
    assert Run(s1, ops[1..]) == s3 by { assert ops[1..][1..] == ops[2..]; }
    assert Run(s0, ops) == s3;
    assert NoDuplicateAdd(s2, ops[2..]) by { assert ops[2..][1..] == []; }
    assert NoDuplicateAdd(s1, ops[1..]) by { assert ops[1..][1..] == ops[2..] && b !in s1.peers; }
    assert NoDuplicateAdd(s0, ops);
    GroupLifecycle(l, ops);
  }
}
