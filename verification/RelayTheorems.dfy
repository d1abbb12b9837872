/** Matching, fairness and cleanup of the relay, over every run. */
module RelayTheorems {
  import opened Prelude
  import opened RelayModel

  /** Registered, and its own unregister still to come. */
  predicate Live(p: Peer) {
    || p.phase.Replying? || p.phase.Waiting? || p.phase.Leaving?
    || p.phase.Pairing? || p.phase.Splicing? || p.phase.Closing?
  }

  predicate Registered(p: Peer) { !p.phase.Fresh? && !p.phase.Rejected? }

  predicate Queued(s: State, id: PeerId) {
    && id in s.peers && s.peers[id].room in s.rooms
    && id in QueueOf(s.rooms[s.peers[id].room], s.peers[id].role)
  }

  predicate Fits(p: Peer, name: string, token: string, role: Role) {
    && p.role == role && p.room == name && p.token == token && p.partner.None? && p.closes == 0
    && (p.phase == Replying(false) || p.phase.Waiting? || p.phase.Leaving?)
  }

  /** A queue holds unmatched peers of its room, role and token, in order of arrival. */
  predicate QueueOk(peers: map<PeerId, Peer>, name: string, token: string, role: Role, q: seq<PeerId>) {
    && (forall i | 0 <= i < |q| :: q[i] in peers && Fits(peers[q[i]], name, token, role))
    && (forall i, j | 0 <= i < j < |q| :: peers[q[i]].arrived < peers[q[j]].arrived)
  }

  predicate RoomOk(peers: map<PeerId, Peer>, name: string, r: Room) {
    && QueueOk(peers, name, r.token, Publish, r.idle)
    && QueueOk(peers, name, r.token, Attach, r.waiting)
    && (r.idle == [] || r.waiting == [])
  }

  /** id's partner o agrees in everything. */
  predicate Partners(id: PeerId, p: Peer, o: Peer) {
    && o.partner == Some(id) && o.matchedAt == p.matchedAt
    && o.room == p.room && o.token == p.token && o.role == Other(p.role)
  }

  predicate PeerOk(s: State, id: PeerId, p: Peer) {
    && p.closes <= 1 && (p.closes == 1 ==> p.partner.Some?)
    && (p.partner.Some? ==> Registered(p) && p.partner.value in s.peers && Partners(id, p, s.peers[p.partner.value]))
    && (Registered(p) ==> p.arrived < s.clock) && (p.partner.Some? ==> p.matchedAt < s.clock)
    && (p.phase == Replying(true) || p.phase.Pairing? || p.phase.Splicing?
        || p.phase.Closing? || p.phase.ClosingPartner?
        ==> p.partner.Some?)
    && (p.phase == Replying(false) || p.phase.Waiting? ==> (p.partner.Some? <==> p.closes == 1))
    && ((p.phase == Replying(false) || p.phase.Waiting?) && p.partner.None? ==> Queued(s, id))
  }

  /** First come, first paired: of two peers in one room and role, the later one is
      paired only after the earlier one was paired or had left the queue. */
  predicate Fair(s: State, a: PeerId, b: PeerId)
    requires a in s.peers && b in s.peers
  {
    var p, q := s.peers[a], s.peers[b];
    Registered(p) && Registered(q) && p.room == q.room && p.role == q.role && p.arrived < q.arrived && q.partner.Some?
    ==> if p.partner.Some? then p.matchedAt < q.matchedAt else !Queued(s, a)
  }

  /** Somebody who will still unregister keeps a room on the map. */
  ghost predicate Kept(s: State, name: string) {
    exists id :: id in s.peers && s.peers[id].room == name && Live(s.peers[id])
  }

  ghost predicate Inv(s: State) {
    && (forall name | name in s.rooms :: RoomOk(s.peers, name, s.rooms[name]))
    && (forall name | name in s.rooms :: Kept(s, name))
    && (forall id | id in s.peers :: PeerOk(s, id, s.peers[id]))
    && (forall a, b | a in s.peers && b in s.peers :: Fair(s, a, b))
  }

  // ------------------------------------------------------------------ the queues

  lemma {:induction false} WithoutKeeps(q: seq<PeerId>, id: PeerId)
    ensures forall x :: x in Without(q, id) <==> x in q && x != id
    ensures id !in q ==> Without(q, id) == q
    decreases |q|
  {
    if q != [] {
      WithoutKeeps(q[..|q| - 1], id);
      assert q == q[..|q| - 1] + [q[|q| - 1]];
    }
  }

  lemma QueueAppend(peers: map<PeerId, Peer>, name: string, token: string, role: Role, q: seq<PeerId>, id: PeerId)
    requires QueueOk(peers, name, token, role, q) && id in peers && Fits(peers[id], name, token, role)
    requires forall x | x in q :: x in peers && peers[x].arrived < peers[id].arrived
    ensures QueueOk(peers, name, token, role, q + [id])
  {
    forall i, j | 0 <= i < j < |q| + 1 ensures peers[(q + [id])[i]].arrived < peers[(q + [id])[j]].arrived {
      assert q[i] in q;
    }
  }

  lemma {:induction false} WithoutKeepsQueueOk(peers: map<PeerId, Peer>, name: string, token: string, role: Role,
                                               q: seq<PeerId>, id: PeerId)
    requires QueueOk(peers, name, token, role, q)
    ensures QueueOk(peers, name, token, role, Without(q, id))
    decreases |q|
  {
    if q != [] {
      var front, last := q[..|q| - 1], q[|q| - 1];
      WithoutKeepsQueueOk(peers, name, token, role, front, id);
      if last != id {
        WithoutKeeps(front, id);
        forall x | x in Without(front, id) ensures x in peers && peers[x].arrived < peers[last].arrived {
          var i :| 0 <= i < |front| && front[i] == x;
          assert q[i] == x;
        }
        QueueAppend(peers, name, token, role, Without(front, id), last);
      }
    }
  }

  /** Queues only look at their own members. */
  lemma QueueFrame(peers: map<PeerId, Peer>, peers': map<PeerId, Peer>, name: string, token: string, role: Role,
                   q: seq<PeerId>)
    requires QueueOk(peers, name, token, role, q)
    requires forall id | id in q ::
               id in peers' && Fits(peers'[id], name, token, role) && peers'[id].arrived == peers[id].arrived
    ensures QueueOk(peers', name, token, role, q)
  {
  }

  // ---------------------------------------------------------------- a peer moves on

  /** All but the phase, and registration with it, is as it was. */
  predicate SameButPhase(p: Peer, p': Peer) {
    p' == p.(phase := p'.phase) && (Registered(p') <==> Registered(p))
  }

  /** What fairness looks at. */
  lemma FairFrame(s: State, s': State, a: PeerId, b: PeerId)
    requires a in s.peers && b in s.peers && a in s'.peers && b in s'.peers && Fair(s, a, b)
    requires SameButPhase(s.peers[a], s'.peers[a]) && SameButPhase(s.peers[b], s'.peers[b])
    requires Queued(s', a) ==> Queued(s, a)
    ensures Fair(s', a, b)
  {
    hide Queued;
  }

  /** What a peer's own invariant looks at: itself, its partner and its queue. */
  lemma PeerFrame(s: State, s': State, x: PeerId, p': Peer)
    requires PeerOk(s, x, p') && s'.clock == s.clock
    requires p'.partner.Some? ==> p'.partner.value in s'.peers && p'.partner.value in s.peers
    requires p'.partner.Some? ==> SameButPhase(s.peers[p'.partner.value], s'.peers[p'.partner.value])
    requires p'.partner.None? && (p'.phase == Replying(false) || p'.phase.Waiting?) ==> (Queued(s, x) ==> Queued(s', x))
    ensures PeerOk(s', x, p')
  {
    hide Queued;
  }

  /** Moving on touches no queue. */
  lemma MoveQueued(s: State, id: PeerId, phase: Phase, x: PeerId)
    requires id in s.peers && x in s.peers
    ensures Queued(Move(s, id, phase), x) <==> Queued(s, x)
  {
  }

  lemma QueueMoves(s: State, id: PeerId, phase: Phase, name: string, role: Role)
    requires name in s.rooms && RoomOk(s.peers, name, s.rooms[name]) && id in s.peers
    requires var p := s.peers[id]; Queued(s, id) ==> Fits(p.(phase := phase), p.room, p.token, p.role)
    ensures QueueOk(Move(s, id, phase).peers, name, s.rooms[name].token, role, QueueOf(s.rooms[name], role))
  {
    var q := QueueOf(s.rooms[name], role);
    forall x | x in q ensures x in s.peers && Fits(s.peers[x], name, s.rooms[name].token, role) {
      var i :| 0 <= i < |q| && q[i] == x;
    }
    QueueFrame(s.peers, Move(s, id, phase).peers, name, s.rooms[name].token, role, q);
  }

  lemma KeptStays(s: State, s': State, name: string)
    requires Inv(s) && name in s.rooms
    requires forall x | x in s.peers && Live(s.peers[x]) ::
               x in s'.peers && s'.peers[x].room == s.peers[x].room && Live(s'.peers[x])
    ensures Kept(s', name)
  {
    assert Kept(s, name);
    var w :| w in s.peers && s.peers[w].room == name && Live(s.peers[w]);
    assert w in s'.peers && s'.peers[w].room == name && Live(s'.peers[w]);
  }

  lemma MovePeersAndFair(s: State, id: PeerId, phase: Phase)
    requires Inv(s) && id in s.peers
    requires var p' := s.peers[id].(phase := phase); SameButPhase(s.peers[id], p') && PeerOk(s, id, p')
    ensures var s' := Move(s, id, phase);
            && (forall x | x in s'.peers :: PeerOk(s', x, s'.peers[x]))
            && (forall a, b | a in s'.peers && b in s'.peers :: Fair(s', a, b))
  {
    hide RoomOk, Kept, Queued, Fair;
    var s' := Move(s, id, phase);
    forall x | x in s'.peers ensures PeerOk(s', x, s'.peers[x]) {
      assert PeerOk(s, x, s.peers[x]);
      MoveQueued(s, id, phase, x);
      PeerFrame(s, s', x, s'.peers[x]);
    }
    forall a, b | a in s'.peers && b in s'.peers ensures Fair(s', a, b) {
      assert Fair(s, a, b);
      MoveQueued(s, id, phase, a);
      FairFrame(s, s', a, b);
    }
  }

  /** A step that changes one peer's phase only. */
  lemma MoveKeepsInv(s: State, id: PeerId, phase: Phase)
    requires Inv(s) && id in s.peers
    requires var p := s.peers[id]; var p' := p.(phase := phase);
             && Registered(p) && Registered(p') && Live(p')
             && PeerOk(s, id, p') && (Queued(s, id) ==> Fits(p', p.room, p.token, p.role))
    ensures Inv(Move(s, id, phase))
  {
    hide QueueOk, Fits, Live, Queued, PeerOk, Fair, Kept;
    var s' := Move(s, id, phase);
    forall name | name in s.rooms ensures RoomOk(s'.peers, name, s.rooms[name]) && Kept(s', name) {
      assert RoomOk(s.peers, name, s.rooms[name]);
      QueueMoves(s, id, phase, name, Publish);
      QueueMoves(s, id, phase, name, Attach);
      KeptStays(s, s', name);
    }
    MovePeersAndFair(s, id, phase);
  }

  lemma ArriveKeepsRoom(s: State, s': State, name: string)
    requires Inv(s) && name in s.rooms
    requires forall x | x in s.peers :: x in s'.peers && s'.peers[x] == s.peers[x]
    ensures RoomOk(s'.peers, name, s.rooms[name])
  {
    hide Kept, Queued, Fair, PeerOk;
    assert RoomOk(s.peers, name, s.rooms[name]);
  }

  /** A newcomer concerns nobody yet. */
  predicate Joined(s: State, id: PeerId, s': State) {
    && id !in s.peers && id in s'.peers && s'.rooms == s.rooms && s'.clock == s.clock
    && s'.peers == s.peers[id := s'.peers[id]]
    && s'.peers[id].phase.Fresh? && s'.peers[id].partner.None? && s'.peers[id].closes == 0
  }

  lemma ArriveKeepsPeer(s: State, id: PeerId, s': State, x: PeerId)
    requires Inv(s) && Joined(s, id, s') && x in s'.peers
    ensures PeerOk(s', x, s'.peers[x])
  {
    hide Kept, Fair, RoomOk;
    if x != id {
      assert PeerOk(s, x, s.peers[x]);
      assert Queued(s', x) == Queued(s, x);
      PeerFrame(s, s', x, s'.peers[x]);
    }
  }

  lemma ArriveKeepsFair(s: State, id: PeerId, s': State, a: PeerId, b: PeerId)
    requires Inv(s) && Joined(s, id, s') && a in s'.peers && b in s'.peers
    ensures Fair(s', a, b)
  {
    hide Kept, PeerOk, RoomOk;
    if a != id && b != id {
      assert Fair(s, a, b) && Queued(s', a) == Queued(s, a);
      FairFrame(s, s', a, b);
    }
  }

  lemma ArriveKeepsInv(s: State, id: PeerId, role: Role, room: string, token: string)
    requires Inv(s) && Can(s, Arrive(id, role, room, token))
    ensures Inv(Do(s, Arrive(id, role, room, token)))
  {
    hide Kept, Queued, Fair, PeerOk, RoomOk;
    var s' := Do(s, Arrive(id, role, room, token));
    forall name | name in s.rooms ensures RoomOk(s'.peers, name, s.rooms[name]) && Kept(s', name) {
      ArriveKeepsRoom(s, s', name);
      KeptStays(s, s', name);
    }
    forall x | x in s'.peers ensures PeerOk(s', x, s'.peers[x]) { ArriveKeepsPeer(s, id, s', x); }
    forall a, b | a in s'.peers && b in s'.peers ensures Fair(s', a, b) { ArriveKeepsFair(s, id, s', a, b); }
  }

  lemma MembersFit(s: State, name: string, role: Role, x: PeerId)
    requires Inv(s) && name in s.rooms && x in QueueOf(s.rooms[name], role)
    ensures x in s.peers && Fits(s.peers[x], name, s.rooms[name].token, role) && Queued(s, x)
  {
    assert RoomOk(s.peers, name, s.rooms[name]);
    var q := QueueOf(s.rooms[name], role);
    var i :| 0 <= i < |q| && q[i] == x;
  }

  /** A queue none of whose members changed. */
  lemma QueueUntouched(s: State, peers': map<PeerId, Peer>, name: string, role: Role)
    requires Inv(s) && name in s.rooms
    requires forall x | x in QueueOf(s.rooms[name], role) :: x in s.peers && x in peers' && peers'[x] == s.peers[x]
    ensures QueueOk(peers', name, s.rooms[name].token, role, QueueOf(s.rooms[name], role))
  {
    assert RoomOk(s.peers, name, s.rooms[name]);
    var q := QueueOf(s.rooms[name], role);
    forall x | x in q ensures Fits(peers'[x], name, s.rooms[name].token, role) { MembersFit(s, name, role, x); }
    QueueFrame(s.peers, peers', name, s.rooms[name].token, role, q);
  }

  /** A Fresh peer is in no queue, so its own change disturbs none. */
  lemma FreshChangesNoQueue(s: State, id: PeerId, peers': map<PeerId, Peer>, name: string, role: Role)
    requires Inv(s) && id in s.peers && s.peers[id].phase.Fresh? && name in s.rooms
    requires forall x | x in s.peers && x != id :: x in peers' && peers'[x] == s.peers[x]
    ensures QueueOk(peers', name, s.rooms[name].token, role, QueueOf(s.rooms[name], role))
  {
    forall x | x in QueueOf(s.rooms[name], role) ensures x in s.peers && x != id { MembersFit(s, name, role, x); }
    QueueUntouched(s, peers', name, role);
  }

  lemma RejectKeepsInv(s: State, id: PeerId)
    requires Inv(s) && id in s.peers && s.peers[id].phase.Fresh?
    ensures Inv(Move(s, id, Rejected))
  {
    hide QueueOk, Queued, Fair, Kept;
    var s' := Move(s, id, Rejected);
    assert PeerOk(s, id, s.peers[id]);
    forall name | name in s.rooms ensures RoomOk(s'.peers, name, s.rooms[name]) && Kept(s', name) {
      assert RoomOk(s.peers, name, s.rooms[name]);
      FreshChangesNoQueue(s, id, s'.peers, name, Publish);
      FreshChangesNoQueue(s, id, s'.peers, name, Attach);
      KeptStays(s, s', name);
    }
    MovePeersAndFair(s, id, Rejected);
  }

  lemma NotQueuedUnlessFits(s: State, id: PeerId)
    requires Inv(s) && Queued(s, id)
    ensures var p := s.peers[id]; Fits(p, p.room, p.token, p.role)
  {
    var p := s.peers[id];
    assert RoomOk(s.peers, p.room, s.rooms[p.room]);
    var q := QueueOf(s.rooms[p.room], p.role);
    var i :| 0 <= i < |q| && q[i] == id;
    assert Fits(s.peers[q[i]], p.room, s.rooms[p.room].token, p.role);
  }

  // --------------------------------------------------------------- registering

  lemma RegisteredBefore(s: State, x: PeerId)
    requires Inv(s) && x in s.peers
    ensures Registered(s.peers[x]) ==> s.peers[x].arrived < s.clock
    ensures s.peers[x].partner.Some? ==> s.peers[x].matchedAt < s.clock
  {
    assert PeerOk(s, x, s.peers[x]);
  }

  lemma FreshHasNothing(s: State, id: PeerId)
    requires Inv(s) && id in s.peers && s.peers[id].phase.Fresh?
    ensures s.peers[id].partner.None? && s.peers[id].closes == 0 && !Queued(s, id)
  {
    assert PeerOk(s, id, s.peers[id]);
    if Queued(s, id) { NotQueuedUnlessFits(s, id); }
  }

  lemma EnqueuedRoom(s: State, id: PeerId)
    requires Inv(s) && id in s.peers && s.peers[id].phase.Fresh?
    requires var p := s.peers[id]; RoomFor(s, p).token == p.token && QueueOf(RoomFor(s, p), Other(p.role)) == []
    ensures var s' := Enqueued(s, id); RoomOk(s'.peers, s.peers[id].room, s'.rooms[s.peers[id].room])
  {
    hide Kept, Fair, PeerOk;
    var p, s' := s.peers[id], Enqueued(s, id);
    var q := QueueOf(RoomFor(s, p), p.role);
    if p.room in s.rooms { FreshChangesNoQueue(s, id, s'.peers, p.room, p.role); }
    forall x | x in q ensures x in s'.peers && s'.peers[x].arrived < s.clock {
      MembersFit(s, p.room, p.role, x);
      RegisteredBefore(s, x);
    }
    FreshHasNothing(s, id);
    QueueAppend(s'.peers, p.room, p.token, p.role, q, id);
  }

  lemma EnqueuedRooms(s: State, id: PeerId, name: string)
    requires Inv(s) && id in s.peers && s.peers[id].phase.Fresh?
    requires var p := s.peers[id]; RoomFor(s, p).token == p.token && QueueOf(RoomFor(s, p), Other(p.role)) == []
    requires name in Enqueued(s, id).rooms
    ensures RoomOk(Enqueued(s, id).peers, name, Enqueued(s, id).rooms[name]) && Kept(Enqueued(s, id), name)
  {
    var p, s' := s.peers[id], Enqueued(s, id);
    if name == p.room {
      EnqueuedRoom(s, id);
      assert s'.peers[id].room == name && Live(s'.peers[id]);
    } else {
      hide Fair, PeerOk;
      FreshChangesNoQueue(s, id, s'.peers, name, Publish);
      FreshChangesNoQueue(s, id, s'.peers, name, Attach);
      assert RoomOk(s.peers, name, s.rooms[name]);
      KeptStays(s, s', name);
    }
  }

  lemma EnqueuedQueued(s: State, id: PeerId, x: PeerId)
    requires Inv(s) && id in s.peers && s.peers[id].phase.Fresh? && x in s.peers
    ensures x != id ==> (Queued(Enqueued(s, id), x) <==> Queued(s, x))
    ensures Queued(Enqueued(s, id), id)
  {
    var p := s.peers[id];
    var q := QueueOf(RoomFor(s, p), p.role);
    assert id in q + [id];
    assert x != id ==> (x in q + [id] <==> x in q);
  }

  lemma EnqueueKeepsInv(s: State, id: PeerId)
    requires Inv(s) && id in s.peers && s.peers[id].phase.Fresh?
    requires var p := s.peers[id]; RoomFor(s, p).token == p.token && QueueOf(RoomFor(s, p), Other(p.role)) == []
    ensures Inv(Enqueued(s, id))
  {
    hide Queued, RoomOk, QueueOk, Kept, RoomFor;
    var s' := Enqueued(s, id);
    assert PeerOk(s, id, s.peers[id]);
    forall name | name in s'.rooms ensures RoomOk(s'.peers, name, s'.rooms[name]) && Kept(s', name) {
      EnqueuedRooms(s, id, name);
    }
    forall x | x in s'.peers ensures PeerOk(s', x, s'.peers[x]) {
      assert PeerOk(s, x, s.peers[x]);
      EnqueuedQueued(s, id, x);
    }
    forall a, b | a in s'.peers && b in s'.peers ensures Fair(s', a, b) {
      assert Fair(s, a, b) && PeerOk(s, b, s.peers[b]);
      EnqueuedQueued(s, id, a);
    }
  }

  /** The situation of a match: id arrives, o is the first of the other role. */
  ghost predicate Meets(s: State, id: PeerId, o: PeerId) {
    && Inv(s) && id in s.peers && s.peers[id].phase.Fresh?
    && var p := s.peers[id];
       && p.room in s.rooms && s.rooms[p.room].token == p.token
       && QueueOf(s.rooms[p.room], Other(p.role)) != [] && o == QueueOf(s.rooms[p.room], Other(p.role))[0]
  }

  lemma MeetsFacts(s: State, id: PeerId, o: PeerId)
    requires Meets(s, id, o)
    ensures o in s.peers && o != id && Queued(s, o)
    ensures var p := s.peers[id];
            && Fits(s.peers[o], p.room, p.token, Other(p.role))
            && QueueOf(s.rooms[p.room], p.role) == []
            && p.partner.None? && p.closes == 0
  {
    var p := s.peers[id];
    FreshHasNothing(s, id);
    assert RoomOk(s.peers, p.room, s.rooms[p.room]);
    MembersFit(s, p.room, Other(p.role), o);
  }

  lemma HeadOnce(peers: map<PeerId, Peer>, name: string, token: string, role: Role, q: seq<PeerId>)
    requires QueueOk(peers, name, token, role, q) && q != []
    ensures q[0] !in q[1..]
  {
    forall i | 0 <= i < |q[1..]| ensures q[1..][i] != q[0] {
      assert peers[q[0]].arrived < peers[q[i + 1]].arrived;
    }
  }

  /** Behind the head of a queue stand others, in order. */
  lemma RestOfQueue(peers: map<PeerId, Peer>, name: string, token: string, role: Role, q: seq<PeerId>, id: PeerId)
    requires QueueOk(peers, name, token, role, q) && q != []
    requires id in peers && !Fits(peers[id], name, token, role)
    ensures QueueOk(peers, name, token, role, q[1..]) && id !in q[1..] && q[0] !in q[1..]
  {
    hide Fits;
    HeadOnce(peers, name, token, role, q);
    forall i | 0 <= i < |q[1..]| ensures q[1..][i] in peers && Fits(peers[q[1..][i]], name, token, role) {
      assert q[1..][i] == q[i + 1];
    }
  }

  lemma EmptyQueueOk(peers: map<PeerId, Peer>, name: string, token: string, role: Role)
    ensures QueueOk(peers, name, token, role, [])
  {
  }

  lemma MatchedRoom(s: State, id: PeerId, o: PeerId)
    requires Meets(s, id, o)
    ensures o in s.peers
    ensures var s' := Matched(s, id, o); RoomOk(s'.peers, s.peers[id].room, s'.rooms[s.peers[id].room])
  {
    hide Kept, Fair, PeerOk, QueueOk;
    MeetsFacts(s, id, o);
    var p, s' := s.peers[id], Matched(s, id, o);
    var q := QueueOf(s.rooms[p.room], Other(p.role));
    assert RoomOk(s.peers, p.room, s.rooms[p.room]);
    RestOfQueue(s.peers, p.room, p.token, Other(p.role), q, id);
    forall x | x in q[1..]
      ensures x in s.peers && s'.peers[x] == s.peers[x] && Fits(s.peers[x], p.room, p.token, Other(p.role))
    {
      MembersFit(s, p.room, Other(p.role), x);
    }
    QueueFrame(s.peers, s'.peers, p.room, p.token, Other(p.role), q[1..]);
    EmptyQueueOk(s'.peers, p.room, p.token, p.role);
  }

  lemma MatchedElsewhere(s: State, id: PeerId, o: PeerId, name: string)
    requires Meets(s, id, o) && name in s.rooms && name != s.peers[id].room
    ensures o in s.peers
    ensures RoomOk(Matched(s, id, o).peers, name, s.rooms[name])
  {
    hide Kept, Fair, PeerOk;
    MeetsFacts(s, id, o);
    var s' := Matched(s, id, o);
    assert RoomOk(s.peers, name, s.rooms[name]);
    forall role: Role ensures QueueOk(s'.peers, name, s.rooms[name].token, role, QueueOf(s.rooms[name], role)) {
      forall x | x in QueueOf(s.rooms[name], role) ensures x in s.peers && s'.peers[x] == s.peers[x] {
        MembersFit(s, name, role, x);
      }
      QueueUntouched(s, s'.peers, name, role);
    }
    assert QueueOk(s'.peers, name, s.rooms[name].token, Publish, QueueOf(s.rooms[name], Publish));
    assert QueueOk(s'.peers, name, s.rooms[name].token, Attach, QueueOf(s.rooms[name], Attach));
  }

  lemma FitsHere(p: Peer, name: string, token: string, role: Role)
    requires Fits(p, name, token, role)
    ensures p.room == name && p.role == role
  {
  }

  lemma MatchedQueued(s: State, id: PeerId, o: PeerId, x: PeerId)
    requires Meets(s, id, o) && x in s.peers
    ensures o in s.peers
    ensures var s' := Matched(s, id, o);
            if x == o then !Queued(s', x) else (Queued(s', x) <==> Queued(s, x))
  {
    hide Kept, Fair, PeerOk, QueueOk, Fits;
    MeetsFacts(s, id, o);
    var p := s.peers[id];
    var q := QueueOf(s.rooms[p.room], Other(p.role));
    assert q == [q[0]] + q[1..];
    assert RoomOk(s.peers, p.room, s.rooms[p.room]);
    HeadOnce(s.peers, p.room, p.token, Other(p.role), q);
    FitsHere(s.peers[o], p.room, p.token, Other(p.role));
  }

  lemma MatchedPeer(s: State, id: PeerId, o: PeerId, x: PeerId)
    requires Meets(s, id, o) && x in s.peers
    ensures o in s.peers
    ensures PeerOk(Matched(s, id, o), x, Matched(s, id, o).peers[x])
  {
    hide Kept, Fair, RoomOk, Queued;
    MeetsFacts(s, id, o);
    MatchedQueued(s, id, o, x);
    assert PeerOk(s, x, s.peers[x]) && PeerOk(s, o, s.peers[o]);
  }

  lemma FirstIsEarliest(s: State, id: PeerId, o: PeerId, a: PeerId)
    requires Meets(s, id, o) && Queued(s, a) && o in s.peers
    requires s.peers[a].room == s.peers[o].room == s.peers[id].room
    requires s.peers[a].role == s.peers[o].role == Other(s.peers[id].role)
    ensures s.peers[o].arrived <= s.peers[a].arrived
  {
    var q := QueueOf(s.rooms[s.peers[a].room], s.peers[a].role);
    assert RoomOk(s.peers, s.peers[a].room, s.rooms[s.peers[a].room]);
    var i :| 0 <= i < |q| && q[i] == a;
  }

  lemma MatchedFair(s: State, id: PeerId, o: PeerId, a: PeerId, b: PeerId)
    requires Meets(s, id, o) && a in s.peers && b in s.peers
    ensures o in s.peers
    ensures Fair(Matched(s, id, o), a, b)
  {
    hide Kept, RoomOk, PeerOk;
    MeetsFacts(s, id, o);
    MatchedQueued(s, id, o, a);
    RegisteredBefore(s, a);
    RegisteredBefore(s, b);
    assert Fair(s, a, b);
    if b == o && Queued(s, a) && s.peers[a].room == s.peers[o].room && s.peers[a].role == s.peers[o].role {
      FirstIsEarliest(s, id, o, a);
    }
  }

  lemma MatchKeepsInv(s: State, id: PeerId, o: PeerId)
    requires Meets(s, id, o)
    ensures o in s.peers && Inv(Matched(s, id, o))
  {
    hide RoomOk, Fair, Queued, PeerOk;
    MeetsFacts(s, id, o);
    var s' := Matched(s, id, o);
    MatchedRoom(s, id, o);
    forall name | name in s'.rooms ensures RoomOk(s'.peers, name, s'.rooms[name]) && Kept(s', name) {
      if name == s.peers[id].room {
        assert s'.peers[id].room == name && Live(s'.peers[id]);
      } else {
        MatchedElsewhere(s, id, o, name);
        KeptStays(s, s', name);
      }
    }
    forall x | x in s'.peers ensures PeerOk(s', x, s'.peers[x]) { MatchedPeer(s, id, o, x); }
    forall a, b | a in s'.peers && b in s'.peers ensures Fair(s', a, b) { MatchedFair(s, id, o, a, b); }
  }

  lemma RegisterKeepsInv(s: State, id: PeerId)
    requires Inv(s) && id in s.peers && s.peers[id].phase.Fresh?
    ensures Inv(Register(s, id))
  {
    var p := s.peers[id];
    var room := RoomFor(s, p);
    var opposite := QueueOf(room, Other(p.role));
    if room.token != p.token {
      RejectKeepsInv(s, id);
    } else if opposite == [] {
      EnqueueKeepsInv(s, id);
    } else {
      MeetsFacts(s, id, opposite[0]);
      MatchKeepsInv(s, id, opposite[0]);
    }
  }

  // ------------------------------------------------------------- unregistering

  /** Peer id is at an unregister step for v: itself, or the partner it closed. */
  predicate Drops(s: State, id: PeerId, v: PeerId) {
    && id in s.peers && v in s.peers
    && var p := s.peers[id];
       || ((p.phase.Leaving? || p.phase.Closing?) && v == id)
       || (p.phase.ClosingPartner? && p.partner == Some(v))
  }

  /** The state after that step, whatever the peer's next position. */
  function Dropped(s: State, id: PeerId, v: PeerId, phase: Phase): (r: State)
    requires Drops(s, id, v)
  {
    Move(s.(rooms := Unregister(s.rooms, s.peers[id].room, v)), id, phase)
  }

  lemma DropFacts(s: State, id: PeerId, v: PeerId)
    requires Inv(s) && Drops(s, id, v)
    ensures s.peers[v].room == s.peers[id].room
    ensures v != id ==> !Queued(s, v) && !Queued(s, id)
    ensures s.peers[v].partner.None? ==> v == id && s.peers[id].phase.Leaving?
  {
    var p := s.peers[id];
    assert PeerOk(s, id, p) && PeerOk(s, v, s.peers[v]);
    if Queued(s, v) { NotQueuedUnlessFits(s, v); }
    if Queued(s, id) { NotQueuedUnlessFits(s, id); }
  }

  predicate InQueue(rooms: map<string, Room>, name: string, role: Role, x: PeerId) {
    name in rooms && x in QueueOf(rooms[name], role)
  }

  /** unregister takes v out of the queues of that room, and nobody else out of any. */
  lemma UnregisterTakesOne(rooms: map<string, Room>, room: string, v: PeerId, name: string, role: Role, x: PeerId)
    ensures InQueue(Unregister(rooms, room, v), name, role, x)
            <==> InQueue(rooms, name, role, x) && !(name == room && x == v)
  {
    if room in rooms {
      WithoutKeeps(rooms[room].idle, v);
      WithoutKeeps(rooms[room].waiting, v);
    }
  }

  lemma DroppedQueued(s: State, id: PeerId, v: PeerId, phase: Phase, x: PeerId)
    requires Inv(s) && Drops(s, id, v) && x in s.peers
    ensures Queued(Dropped(s, id, v, phase), x) <==> Queued(s, x) && x != v
  {
    hide RoomOk, Fair, Kept, Unregister;
    DropFacts(s, id, v);
    UnregisterTakesOne(s.rooms, s.peers[id].room, v, s.peers[x].room, s.peers[x].role, x);
  }

  lemma DroppedQueue(s: State, id: PeerId, v: PeerId, phase: Phase, name: string, role: Role)
    requires Inv(s) && Drops(s, id, v) && (phase.Exited? || phase.ClosingPartner?)
    requires name in s.rooms
    ensures var q := QueueOf(s.rooms[name], role);
            QueueOk(Dropped(s, id, v, phase).peers, name, s.rooms[name].token, role,
                    if name == s.peers[id].room then Without(q, v) else q)
  {
    hide Fair, Kept, PeerOk;
    var s' := Dropped(s, id, v, phase);
    var q := QueueOf(s.rooms[name], role);
    var q' := if name == s.peers[id].room then Without(q, v) else q;
    assert RoomOk(s.peers, name, s.rooms[name]);
    WithoutKeepsQueueOk(s.peers, name, s.rooms[name].token, role, q, v);
    WithoutKeeps(q, v);
    DropFacts(s, id, v);
    forall x | x in q'
      ensures x in s'.peers && s'.peers[x] == s.peers[x] && Fits(s.peers[x], name, s.rooms[name].token, role)
    {
      MembersFit(s, name, role, x);
    }
    QueueFrame(s.peers, s'.peers, name, s.rooms[name].token, role, q');
  }

  lemma DroppedRoom(s: State, id: PeerId, v: PeerId, phase: Phase, name: string)
    requires Inv(s) && Drops(s, id, v) && (phase.Exited? || phase.ClosingPartner?)
    requires name in Dropped(s, id, v, phase).rooms
    ensures RoomOk(Dropped(s, id, v, phase).peers, name, Dropped(s, id, v, phase).rooms[name])
  {
    hide Fair, Kept, PeerOk;
    var s' := Dropped(s, id, v, phase);
    DropFacts(s, id, v);
    assert RoomOk(s.peers, name, s.rooms[name]);
    DroppedQueue(s, id, v, phase, name, Publish);
    DroppedQueue(s, id, v, phase, name, Attach);
  }

  lemma DroppedKept(s: State, id: PeerId, v: PeerId, phase: Phase, name: string)
    requires Inv(s) && Drops(s, id, v) && (phase.Exited? || phase.ClosingPartner?)
    requires name in Dropped(s, id, v, phase).rooms
    ensures Kept(Dropped(s, id, v, phase), name)
  {
    hide Fair, PeerOk, RoomOk;
    var s' := Dropped(s, id, v, phase);
    if name == s.peers[id].room {
      var r := s'.rooms[name];
      var x, role := if r.idle != [] then r.idle[0] else r.waiting[0], if r.idle != [] then Publish else Attach;
      assert x in QueueOf(r, role);
      WithoutKeeps(s.rooms[name].idle, v);
      WithoutKeeps(s.rooms[name].waiting, v);
      MembersFit(s, name, role, x);
      DropFacts(s, id, v);
      assert x in s'.peers && s'.peers[x].room == name && Live(s'.peers[x]);
    } else {
      assert Kept(s, name);
      var w :| w in s.peers && s.peers[w].room == name && Live(s.peers[w]);
      assert w in s'.peers && s'.peers[w].room == name && Live(s'.peers[w]);
    }
  }

  lemma DropKeepsPeer(s: State, id: PeerId, v: PeerId, phase: Phase, x: PeerId)
    requires Inv(s) && Drops(s, id, v) && x in s.peers
    requires phase.Exited? || (phase.ClosingPartner? && s.peers[id].partner.Some?)
    ensures PeerOk(Dropped(s, id, v, phase), x, Dropped(s, id, v, phase).peers[x])
  {
    hide RoomOk, Kept, Queued, Fair, Unregister;
    var s' := Dropped(s, id, v, phase);
    DropFacts(s, id, v);
    assert PeerOk(s, x, s.peers[x]) && PeerOk(s, id, s.peers[id]);
    DroppedQueued(s, id, v, phase, x);
    PeerFrame(s, s', x, s'.peers[x]);
  }

  lemma DropKeepsFair(s: State, id: PeerId, v: PeerId, phase: Phase, a: PeerId, b: PeerId)
    requires Inv(s) && Drops(s, id, v) && a in s.peers && b in s.peers && (phase.Exited? || phase.ClosingPartner?)
    ensures Fair(Dropped(s, id, v, phase), a, b)
  {
    hide RoomOk, Kept, Queued, PeerOk, Unregister;
    assert Fair(s, a, b);
    DroppedQueued(s, id, v, phase, a);
    FairFrame(s, Dropped(s, id, v, phase), a, b);
  }

  lemma DropKeepsInv(s: State, id: PeerId, v: PeerId, phase: Phase)
    requires Inv(s) && Drops(s, id, v)
    requires phase.Exited? || (phase.ClosingPartner? && s.peers[id].partner.Some?)
    ensures Inv(Dropped(s, id, v, phase))
  {
    hide RoomOk, Queued, Kept, PeerOk, Fair, Unregister;
    var s' := Dropped(s, id, v, phase);
    forall name | name in s'.rooms ensures RoomOk(s'.peers, name, s'.rooms[name]) && Kept(s', name) {
      DroppedRoom(s, id, v, phase, name);
      DroppedKept(s, id, v, phase, name);
    }
    forall x | x in s'.peers ensures PeerOk(s', x, s'.peers[x]) { DropKeepsPeer(s, id, v, phase, x); }
    forall a, b | a in s'.peers && b in s'.peers ensures Fair(s', a, b) { DropKeepsFair(s, id, v, phase, a, b); }
  }

  // ------------------------------------------------------------------ every run

  /** Steps in which a registered peer just goes on. */
  predicate GoesOn(e: Event) { !e.Arrive? && !e.DoRegister? && !e.DoUnregister? }

  lemma PeerFits(s: State, id: PeerId)
    requires Inv(s) && id in s.peers
    ensures var p := s.peers[id]; PeerOk(s, id, p) && (Queued(s, id) ==> Fits(p, p.room, p.token, p.role))
  {
    hide RoomOk, Kept, Fair, Queued, Fits;
    if Queued(s, id) { NotQueuedUnlessFits(s, id); }
  }

  lemma GoingOnKeepsInv(s: State, e: Event)
    requires Inv(s) && Can(s, e) && GoesOn(e)
    ensures Inv(Do(s, e))
  {
    hide RoomOk, Kept, Fair, Inv, Queued;
    PeerFits(s, e.id);
    MoveKeepsInv(s, e.id, Do(s, e).peers[e.id].phase);
  }

  lemma StepKeepsInv(s: State, e: Event)
    requires Inv(s) && Can(s, e)
    ensures Inv(Do(s, e))
  {
    hide RoomOk, Kept, Fair, Inv, Register, Unregister, Queued;
    match e
    case Arrive(id, role, room, token) => ArriveKeepsInv(s, id, role, room, token);
    case DoRegister(id) => RegisterKeepsInv(s, id);
    case DoUnregister(id) =>
      var p := s.peers[id];
      PeerFits(s, id);
      if p.phase.ClosingPartner? { DropKeepsInv(s, id, p.partner.value, Exited); }
      else { DropKeepsInv(s, id, id, if p.phase.Closing? then ClosingPartner else Exited); }
    case _ => GoingOnKeepsInv(s, e);
  }

  lemma {:induction false} ReachedInv(es: seq<Event>)
    requires IsRun(es)
    ensures Inv(Reached(es))
    decreases |es|
  {
    if es != [] {
      ReachedInv(es[..|es| - 1]);
      StepKeepsInv(Reached(es[..|es| - 1]), es[|es| - 1]);
    }
  }

  /** Partnership is symmetric and between opposite roles of one room and token; and
      nobody has two partners, for a partner names one peer and is named back by it. */
  lemma MatchingIsProper(es: seq<Event>, id: PeerId, other: PeerId)
    requires IsRun(es) && id in Reached(es).peers && other in Reached(es).peers
    ensures var s := Reached(es); var p := s.peers[id];
            && (p.partner.Some? ==> p.partner.value in s.peers && Partners(id, p, s.peers[p.partner.value]))
            && (s.peers[other].partner == Some(id) ==> p.partner == Some(other))
            && p.closes <= 1 && (p.closes == 1 ==> p.partner.Some?)
  {
    ReachedInv(es);
    var s := Reached(es);
    assert PeerOk(s, id, s.peers[id]) && PeerOk(s, other, s.peers[other]);
  }

  lemma RegisterKeepsPartner(s: State, id: PeerId, x: PeerId)
    requires Inv(s) && id in s.peers && s.peers[id].phase.Fresh? && x in s.peers && s.peers[x].partner.Some?
    ensures var s' := Register(s, id);
            && x in s'.peers && s'.peers[x].partner == s.peers[x].partner
            && s'.peers[x].matchedAt == s.peers[x].matchedAt
  {
    hide Kept, Fair, PeerOk, QueueOk;
    FreshHasNothing(s, id);
    var p := s.peers[id];
    var opposite := QueueOf(RoomFor(s, p), Other(p.role));
    if RoomFor(s, p).token == p.token && opposite != [] { MeetsFacts(s, id, opposite[0]); }
  }

  /** A step pairs only peers that have no partner yet, and unpairs nobody. */
  lemma StepKeepsPartner(s: State, e: Event, id: PeerId)
    requires Inv(s) && Can(s, e) && id in s.peers && s.peers[id].partner.Some?
    ensures var s' := Do(s, e);
            && id in s'.peers && s'.peers[id].partner == s.peers[id].partner
            && s'.peers[id].matchedAt == s.peers[id].matchedAt
  {
    hide Inv, Unregister, QueueOk, Kept, Fair;
    if e.DoRegister? { RegisterKeepsPartner(s, e.id, id); }
  }

  /** In every run a peer gets at most one partner: whoever it has been paired with after
      some steps is its partner after any more, paired at the same time. */
  lemma {:induction false} PartnerIsForLife(es: seq<Event>, more: seq<Event>, id: PeerId)
    requires IsRun(es) && IsRun(es + more)
    requires id in Reached(es).peers && Reached(es).peers[id].partner.Some?
    ensures var once, now := Reached(es).peers[id], Reached(es + more).peers;
            id in now && now[id].partner == once.partner && now[id].matchedAt == once.matchedAt
    decreases |more|
  {
    hide Do, Can;
    if more == [] {
      assert es + more == es;
    } else {
      var front := more[..|more| - 1];
      assert (es + more)[..|es + more| - 1] == es + front;
      PartnerIsForLife(es, front, id);
      ReachedInv(es + front);
      StepKeepsPartner(Reached(es + front), more[|more| - 1], id);
    }
  }

  /** A waiting peer is in the queue of its room and role or has been woken, never both. */
  lemma WaitingIsQueuedOrPaired(es: seq<Event>, id: PeerId)
    requires IsRun(es) && id in Reached(es).peers && Reached(es).peers[id].phase.Waiting?
    ensures var s := Reached(es); var p := s.peers[id];
            && (Queued(s, id) <==> p.closes == 0) && (p.closes == 1 <==> p.partner.Some?)
  {
    ReachedInv(es);
    var s := Reached(es);
    assert PeerOk(s, id, s.peers[id]);
    if Queued(s, id) { NotQueuedUnlessFits(s, id); }
  }

  /** No room keeps a publisher and an attacher waiting past each other. */
  lemma NobodyWaitsInVain(es: seq<Event>, name: string)
    requires IsRun(es) && name in Reached(es).rooms
    ensures var r := Reached(es).rooms[name]; r.idle == [] || r.waiting == []
  {
    ReachedInv(es);
    assert RoomOk(Reached(es).peers, name, Reached(es).rooms[name]);
  }

  /** Pairing follows arrival within a room and role. */
  lemma FirstComeFirstPaired(es: seq<Event>, a: PeerId, b: PeerId)
    requires IsRun(es) && a in Reached(es).peers && b in Reached(es).peers
    ensures Fair(Reached(es), a, b)
  {
    ReachedInv(es);
  }

  /** When every ServeConn has ended, nothing is left of any room. */
  lemma NothingLeaks(es: seq<Event>)
    requires IsRun(es)
    requires forall id | id in Reached(es).peers ::
               var p := Reached(es).peers[id].phase; p.Fresh? || p.Rejected? || p.Exited?
    ensures Reached(es).rooms == map[]
  {
    ReachedInv(es);
    var s := Reached(es);
    assert forall name | name in s.rooms :: Kept(s, name);
    assert forall name :: !Kept(s, name);
    assert s.rooms.Keys == {};
  }
}
