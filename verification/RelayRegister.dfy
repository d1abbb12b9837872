/** What registering comes to: who is refused, who is paired with whom, and who waits. */
module RelayRegister {
  import opened Prelude
  import opened RelayModel
  import opened RelayTheorems

  /** x is queued in that room under that role. */
  predicate WaitsIn(s: State, x: PeerId, room: string, role: Role) {
    Queued(s, x) && s.peers[x].room == room && s.peers[x].role == role
  }

  predicate NobodyQueued(s: State, room: string) {
    forall x | x in s.peers && s.peers[x].room == room :: !Queued(s, x)
  }

  // ------------------------------------------------------------ the token of a room

  /** The token a room goes by, told from the run alone: that of the peer that opened it,
      until somebody unregisters there and leaves nobody queued. */
  function TokenOf(es: seq<Event>, room: string): (r: Option<string>)
    requires IsRun(es)
    decreases |es|
  {
    if es == [] then None
    else
      var front, e := es[..|es| - 1], es[|es| - 1];
      var before, s := TokenOf(front, room), Reached(front);
      if e.DoRegister? && s.peers[e.id].room == room && before.None? then Some(s.peers[e.id].token)
      else if e.DoUnregister? && s.peers[e.id].room == room && NobodyQueued(Reached(es), room) then None
      else before
  }

  predicate TokenIs(s: State, room: string, token: Option<string>) {
    if room in s.rooms then token == Some(s.rooms[room].token) else token.None?
  }

  lemma RegisterKeepsToken(s: State, id: PeerId, room: string)
    requires id in s.peers
    ensures var s' := Register(s, id);
            if room in s.rooms then room in s'.rooms && s'.rooms[room].token == s.rooms[room].token
            else if room == s.peers[id].room then room in s'.rooms && s'.rooms[room].token == s.peers[id].token
            else room !in s'.rooms
  {
  }

  lemma UnregisterKeepsToken(rooms: map<string, Room>, name: string, v: PeerId, room: string)
    ensures var rooms' := Unregister(rooms, name, v);
            && (room in rooms' ==> room in rooms && rooms'[room].token == rooms[room].token)
            && (room in rooms && room != name ==> room in rooms')
            && (room in rooms' && room == name ==> rooms'[room].idle != [] || rooms'[room].waiting != [])
  {
  }

  lemma EmptyRoomIsGone(s: State, room: string)
    requires Inv(s) && room in s.rooms && (s.rooms[room].idle != [] || s.rooms[room].waiting != [])
    ensures !NobodyQueued(s, room)
  {
    hide Inv;
    var r := s.rooms[room];
    var role := if r.idle != [] then Publish else Attach;
    var x := QueueOf(r, role)[0];
    MembersFit(s, room, role, x);
  }

  lemma NoRoomNobodyQueued(s: State, room: string)
    requires room !in s.rooms
    ensures NobodyQueued(s, room)
  {
  }

  lemma StepKeepsToken(es: seq<Event>, room: string)
    requires IsRun(es) && es != [] && TokenIs(Reached(es[..|es| - 1]), room, TokenOf(es[..|es| - 1], room))
    ensures TokenIs(Reached(es), room, TokenOf(es, room))
  {
    hide Inv, Register, Unregister, NobodyQueued;
    var front, e := es[..|es| - 1], es[|es| - 1];
    var s, s' := Reached(front), Reached(es);
    ReachedInv(front);
    ReachedInv(es);
    match e
    case DoRegister(id) => RegisterKeepsToken(s, id, room);
    case DoUnregister(id) =>
      var p := s.peers[id];
      PeerFits(s, id);
      var v := if p.phase.ClosingPartner? then p.partner.value else id;
      UnregisterKeepsToken(s.rooms, p.room, v, room);
      if room in s'.rooms && room == p.room { EmptyRoomIsGone(s', room); }
      if room !in s'.rooms { NoRoomNobodyQueued(s', room); }
    case _ =>
  }

  lemma NoTokenAtFirst(room: string)
    ensures TokenOf([], room) == None
  {
  }

  /** The room is on the map, under that token, exactly as long as it goes by it. */
  lemma {:induction false} RoomGoesByItsToken(es: seq<Event>, room: string)
    requires IsRun(es)
    ensures TokenIs(Reached(es), room, TokenOf(es, room))
    decreases |es|
  {
    hide Do, Can, TokenOf;
    if es == [] {
      NoTokenAtFirst(room);
    } else {
      RoomGoesByItsToken(es[..|es| - 1], room);
      StepKeepsToken(es, room);
    }
  }

  // ---------------------------------------------------------------------- the outcomes

  /** All peers but these are as they were, and queued where they were. */
  predicate OthersStay(s: State, s': State, touched: set<PeerId>) {
    && s'.peers.Keys == s.peers.Keys
    && forall y | y in s.peers && y !in touched :: s'.peers[y] == s.peers[y] && (Queued(s', y) <==> Queued(s, y))
  }

  /** A newcomer is refused exactly if its room goes by another token, and then nothing
      else has happened. */
  lemma RefusedIffOtherToken(es: seq<Event>, id: PeerId)
    requires IsRun(es) && Can(Reached(es), DoRegister(id))
    ensures var s, s' := Reached(es), Do(Reached(es), DoRegister(id)); var p := s.peers[id];
            && id in s'.peers
            && (s'.peers[id].phase.Rejected? <==> TokenOf(es, p.room).Some? && TokenOf(es, p.room).value != p.token)
            && (s'.peers[id].phase.Rejected? ==> s' == s.(peers := s.peers[id := p.(phase := Rejected)]))
  {
    hide IsRun, Reached, TokenOf;
    RoomGoesByItsToken(es, Reached(es).peers[id].room);
  }

  /** A queued peer's token is its room's. So whoever comes while somebody is queued is
      refused exactly if the tokens differ. */
  lemma QueuedPeerRules(es: seq<Event>, id: PeerId, x: PeerId)
    requires IsRun(es) && Can(Reached(es), DoRegister(id))
    requires Queued(Reached(es), x) && Reached(es).peers[x].room == Reached(es).peers[id].room
    ensures var s, s' := Reached(es), Do(Reached(es), DoRegister(id));
            id in s'.peers && (s'.peers[id].phase.Rejected? <==> s.peers[x].token != s.peers[id].token)
  {
    hide Inv, IsRun, Reached;
    ReachedInv(es);
    var s := Reached(es);
    MembersFit(s, s.peers[x].room, s.peers[x].role, x);
  }

  /** Nobody is refused in a room nobody still has to unregister from. */
  lemma NewRoomRefusesNobody(es: seq<Event>, id: PeerId)
    requires IsRun(es) && Can(Reached(es), DoRegister(id))
    requires var s := Reached(es);
             forall x | x in s.peers && s.peers[x].room == s.peers[id].room :: !Live(s.peers[x])
    ensures var s' := Do(Reached(es), DoRegister(id)); id in s'.peers && !s'.peers[id].phase.Rejected?
  {
    hide IsRun, Reached;
    ReachedInv(es);
    var s := Reached(es);
    assert !Kept(s, s.peers[id].room);
  }

  lemma MetPeer(s: State, id: PeerId, x: PeerId) returns (o: PeerId)
    requires Inv(s) && Can(s, DoRegister(id)) && WaitsIn(s, x, s.peers[id].room, Other(s.peers[id].role))
    requires s.peers[x].token == s.peers[id].token
    ensures Meets(s, id, o) && o in s.peers && Do(s, DoRegister(id)) == Matched(s, id, o)
    ensures WaitsIn(s, o, s.peers[id].room, Other(s.peers[id].role))
  {
    hide Inv;
    var p := s.peers[id];
    MembersFit(s, p.room, Other(p.role), x);
    o := QueueOf(s.rooms[p.room], Other(p.role))[0];
    MembersFit(s, p.room, Other(p.role), o);
  }

  lemma MatchedPeers(s: State, id: PeerId, o: PeerId)
    requires id in s.peers && o in s.peers && id != o
    ensures var p, s' := s.peers[id], Matched(s, id, o);
            && s'.peers.Keys == s.peers.Keys
            && s'.peers[id] == p.(partner := Some(o), phase := Replying(true), arrived := s.clock, matchedAt := s.clock)
            && s'.peers[o] == s.peers[o].(partner := Some(id), closes := s.peers[o].closes + 1, matchedAt := s.clock)
            && forall y | y in s.peers && y != id && y != o :: s'.peers[y] == s.peers[y]
  {
  }

  lemma MatchedStays(s: State, id: PeerId, o: PeerId)
    requires Meets(s, id, o) && o in s.peers
    ensures OthersStay(s, Matched(s, id, o), {id, o}) && !Queued(Matched(s, id, o), o)
  {
    hide Inv, Queued, Matched;
    MeetsFacts(s, id, o);
    MatchedPeers(s, id, o);
    MatchedQueued(s, id, o, o);
    forall y | y in s.peers ensures y != o ==> (Queued(Matched(s, id, o), y) <==> Queued(s, y)) {
      MatchedQueued(s, id, o, y);
    }
  }

  /** If peers of the other role are queued, the newcomer's partner is the one of them that
      came first: each names the other, the partner's channel is closed, it is queued no
      more, and nobody else is touched. */
  lemma EarliestIsPaired(es: seq<Event>, id: PeerId, x: PeerId) returns (o: PeerId)
    requires IsRun(es) && Can(Reached(es), DoRegister(id))
    requires var s := Reached(es); WaitsIn(s, x, s.peers[id].room, Other(s.peers[id].role))
    requires Reached(es).peers[x].token == Reached(es).peers[id].token
    ensures var s, s' := Reached(es), Do(Reached(es), DoRegister(id));
            var room, other := s.peers[id].room, Other(s.peers[id].role);
            && WaitsIn(s, o, room, other)
            && (forall y | y in s.peers && WaitsIn(s, y, room, other) :: s.peers[o].arrived <= s.peers[y].arrived)
            && OthersStay(s, s', {id, o})
            && s'.peers[id].partner == Some(o) && s'.peers[id].phase == Replying(true)
            && s'.peers[o].partner == Some(id) && s'.peers[o].closes == 1 && !Queued(s', o)
            && s'.peers[o].phase == s.peers[o].phase
  {
    hide Inv, IsRun, Reached, Matched, Do, Can, Queued;
    ReachedInv(es);
    var s := Reached(es);
    o := MetPeer(s, id, x);
    MeetsFacts(s, id, o);
    MatchedPeers(s, id, o);
    MatchedStays(s, id, o);
    forall y | y in s.peers && WaitsIn(s, y, s.peers[id].room, Other(s.peers[id].role))
      ensures s.peers[o].arrived <= s.peers[y].arrived
    {
      FirstIsEarliest(s, id, o, y);
    }
  }

  lemma NoneToMeet(s: State, id: PeerId)
    requires Inv(s) && id in s.peers
    requires forall x | x in s.peers :: !WaitsIn(s, x, s.peers[id].room, Other(s.peers[id].role))
    ensures QueueOf(RoomFor(s, s.peers[id]), Other(s.peers[id].role)) == []
  {
    hide Inv;
    var p := s.peers[id];
    if p.room in s.rooms && QueueOf(s.rooms[p.room], Other(p.role)) != [] {
      MembersFit(s, p.room, Other(p.role), QueueOf(s.rooms[p.room], Other(p.role))[0]);
    }
  }

  /** If none is, it is queued itself, behind all others of its role in the room. */
  lemma ElseQueuedLast(es: seq<Event>, id: PeerId)
    requires IsRun(es) && Can(Reached(es), DoRegister(id))
    requires var s := Reached(es);
             forall x | x in s.peers :: !WaitsIn(s, x, s.peers[id].room, Other(s.peers[id].role))
    requires !Do(Reached(es), DoRegister(id)).peers[id].phase.Rejected?
    ensures var s, s' := Reached(es), Do(Reached(es), DoRegister(id)); var p := s.peers[id];
            && OthersStay(s, s', {id})
            && WaitsIn(s', id, p.room, p.role) && s'.peers[id].partner.None? && s'.peers[id].phase == Replying(false)
            && forall y | y in s.peers && y != id && WaitsIn(s', y, p.room, p.role) ::
                 s'.peers[y].arrived < s'.peers[id].arrived
  {
    hide Inv, IsRun, Reached, Queued;
    ReachedInv(es);
    var s := Reached(es);
    NoneToMeet(s, id);
    FreshHasNothing(s, id);
    forall y | y in s.peers
      ensures y != id ==> (Queued(Enqueued(s, id), y) <==> Queued(s, y))
      ensures Queued(s, y) ==> s.peers[y].arrived < s.clock
    {
      EnqueuedQueued(s, id, y);
      RegisteredBefore(s, y);
      if Queued(s, y) { NotQueuedUnlessFits(s, y); }
    }
    assert Do(s, DoRegister(id)) == Enqueued(s, id);
    EnqueuedQueued(s, id, id);
  }

  predicate SaidHello(s: State) { forall x | x in s.peers :: s.peers[x].room != "" && |s.peers[x].token| >= 16 }

  lemma RegisterKeepsHello(s: State, id: PeerId)
    requires id in s.peers && SaidHello(s)
    ensures SaidHello(Register(s, id))
  {
  }

  /** Nobody gets as far as registering without a room and a token of 16 characters. */
  lemma {:induction false} EverybodySaidHello(es: seq<Event>)
    requires IsRun(es)
    ensures SaidHello(Reached(es))
    decreases |es|
  {
    hide Register, Unregister;
    if es != [] {
      var front, e := es[..|es| - 1], es[|es| - 1];
      EverybodySaidHello(front);
      if e.DoRegister? { RegisterKeepsHello(Reached(front), e.id); }
    }
  }

  // -------------------------------------------------------------- runs and what follows

  lemma RunExtends(es: seq<Event>, e: Event)
    requires IsRun(es) && Can(Reached(es), e)
    ensures IsRun(es + [e]) && Reached(es + [e]) == Do(Reached(es), e)
  {
    assert (es + [e])[..|es|] == es;
  }

  /** A peer that has a partner goes on to splice with it: after its reply if it was paired
      on arrival, when it is woken if it had to wait. */
  lemma PairedPeerCanSplice(es: seq<Event>, id: PeerId) returns (es': seq<Event>)
    requires IsRun(es) && id in Reached(es).peers
    requires var p := Reached(es).peers[id]; p.partner.Some? && (p.phase == Replying(true) || p.phase.Waiting?)
    ensures es' == es + [if Reached(es).peers[id].phase.Waiting? then Woken(id) else ReplyOk(id)] + [PairedOk(id)]
    ensures IsRun(es')
    ensures var s, s' := Reached(es), Reached(es'); s' == s.(peers := s.peers[id := s.peers[id].(phase := Splicing)])
  {
    hide Inv, IsRun, Reached;
    ReachedInv(es);
    var s := Reached(es);
    PeerFits(s, id);
    var e := if s.peers[id].phase.Waiting? then Woken(id) else ReplyOk(id);
    RunExtends(es, e);
    RunExtends(es + [e], PairedOk(id));
    es' := es + [e] + [PairedOk(id)];
  }

  /** A peer without one waits in its queue, and may leave it at any moment; then it is
      queued no more, and nobody else has lost its place. */
  lemma UnpairedPeerCanLeave(es: seq<Event>, id: PeerId) returns (es': seq<Event>)
    requires IsRun(es) && id in Reached(es).peers && Reached(es).peers[id].phase == Replying(false)
    requires Reached(es).peers[id].partner.None?
    ensures es' == es + [ReplyOk(id)] + [TimesOut(id)] + [DoUnregister(id)]
    ensures IsRun(es') && Queued(Reached(es + [ReplyOk(id)]), id)
    ensures var s, s' := Reached(es), Reached(es');
            && id in s'.peers && s'.peers[id].phase.Exited? && !Queued(s', id)
            && OthersStay(s, s', {id})
  {
    hide Inv, IsRun, Reached, Queued, Unregister;
    ReachedInv(es);
    var s := Reached(es);
    PeerFits(s, id);
    RunExtends(es, ReplyOk(id));
    RunExtends(es + [ReplyOk(id)], TimesOut(id));
    var mid := es + [ReplyOk(id)] + [TimesOut(id)];
    RunExtends(mid, DoUnregister(id));
    es' := mid + [DoUnregister(id)];
    ReachedInv(mid);
    forall y | y in s.peers
      ensures Queued(Move(s, id, Waiting), y) <==> Queued(s, y)
      ensures Queued(Reached(mid), y) <==> Queued(s, y)
      ensures Queued(Reached(es'), y) <==> Queued(s, y) && y != id
    {
      MoveQueued(s, id, Waiting, y);
      MoveQueued(Move(s, id, Waiting), id, Leaving, y);
      DroppedQueued(Reached(mid), id, id, Exited, y);
    }
  }

  /** A peer that splices ends with its own unregister and its partner's, which take nobody
      out of a queue. */
  lemma SplicingPeerCanEnd(es: seq<Event>, id: PeerId) returns (es': seq<Event>)
    requires IsRun(es) && id in Reached(es).peers && Reached(es).peers[id].phase.Splicing?
    ensures es' == es + [SpliceEnds(id)] + [DoUnregister(id)] + [DoUnregister(id)]
    ensures IsRun(es')
    ensures var s, s' := Reached(es), Reached(es'); var p := s.peers[id];
            && id in s'.peers && s'.peers[id].phase.Exited? && OthersStay(s, s', {id})
            && (p.partner.Some? ==> !Queued(s', p.partner.value)) && !Queued(s', id)
  {
    hide Inv, IsRun, Reached, Queued, Unregister;
    ReachedInv(es);
    var s := Reached(es);
    PeerFits(s, id);
    RunExtends(es, SpliceEnds(id));
    var es1 := es + [SpliceEnds(id)];
    RunExtends(es1, DoUnregister(id));
    var es2 := es1 + [DoUnregister(id)];
    RunExtends(es2, DoUnregister(id));
    es' := es2 + [DoUnregister(id)];
    ReachedInv(es1);
    ReachedInv(es2);
    var o := s.peers[id].partner.value;
    DropFacts(Reached(es1), id, id);
    DropFacts(Reached(es2), id, o);
    PeerFits(s, o);
    forall y | y in s.peers
      ensures Queued(Reached(es1), y) <==> Queued(s, y)
      ensures Queued(Reached(es2), y) <==> Queued(s, y) && y != id
      ensures Queued(Reached(es'), y) <==> Queued(s, y) && y != id && y != o
    {
      MoveQueued(s, id, Closing, y);
      DroppedQueued(Reached(es1), id, id, ClosingPartner, y);
      DroppedQueued(Reached(es2), id, o, Exited, y);
    }
  }

  // ------------------------------------------------------------------------- two runs

  const LAB := "lab"

  /** A publisher and an attacher meet. */
  function Pair(token: string): (es: seq<Event>) {
    [] + [Arrive(0, Publish, LAB, token)] + [DoRegister(0)] + [Arrive(1, Attach, LAB, token)] + [DoRegister(1)]
  }

  lemma PairMeets(token: string)
    requires |token| >= MIN_TOKEN_LEN
    ensures IsRun(Pair(token))
    ensures var s := Reached(Pair(token));
            && s.rooms == map[LAB := Room(token, [], [])] && s.peers.Keys == {0, 1}
            && s.peers[0].partner == Some(1) && s.peers[1].partner == Some(0)
            && Live(s.peers[0]) && Live(s.peers[1])
            && s.peers[0].room == LAB == s.peers[1].room && s.peers[0].token == token == s.peers[1].token
  {
    var first := Arrive(0, Publish, LAB, token);
    assert IsRun([]);
    RunExtends([], first);
    RunExtends([] + [first], DoRegister(0));
    var second := Arrive(1, Attach, LAB, token);
    var es := [] + [first] + [DoRegister(0)];
    RunExtends(es, second);
    RunExtends(es + [second], DoRegister(1));
  }

  /** Its room is on the map with nobody queued, and still refuses another token. */
  lemma PairKeepsItsRoom(token: string, stranger: string)
    requires |token| >= MIN_TOKEN_LEN && |stranger| >= MIN_TOKEN_LEN && stranger != token
    ensures var es := Pair(token) + [Arrive(2, Attach, LAB, stranger)];
            && IsRun(es) && Can(Reached(es), DoRegister(2))
            && NobodyQueued(Reached(es), LAB)
            && 2 in Do(Reached(es), DoRegister(2)).peers && Do(Reached(es), DoRegister(2)).peers[2].phase.Rejected?
  {
    hide IsRun, Reached, Pair;
    PairMeets(token);
    RunExtends(Pair(token), Arrive(2, Attach, LAB, stranger));
  }

  /** A third peer comes under the pair's token and leaves again. */
  function ThirdLeaves(token: string): (es: seq<Event>) {
    Pair(token) + [Arrive(2, Attach, LAB, token)] + [DoRegister(2)] + [ReplyFails(2)] + [DoUnregister(2)]
  }

  lemma ThirdTakesTheRoom(token: string)
    requires |token| >= MIN_TOKEN_LEN
    ensures IsRun(ThirdLeaves(token))
    ensures var s := Reached(ThirdLeaves(token));
            && s.rooms == map[] && s.peers.Keys == {0, 1, 2}
            && s.peers[0].partner == Some(1) && s.peers[1].partner == Some(0)
            && Live(s.peers[0]) && Live(s.peers[1])
            && s.peers[0].room == LAB == s.peers[1].room && s.peers[0].token == token == s.peers[1].token
  {
    hide IsRun, Reached, Pair;
    PairMeets(token);
    var es := Pair(token);
    RunExtends(es, Arrive(2, Attach, LAB, token));
    es := es + [Arrive(2, Attach, LAB, token)];
    RunExtends(es, DoRegister(2));
    es := es + [DoRegister(2)];
    assert Reached(es).rooms == map[LAB := Room(token, [], [2])] by { assert [] + [2] == [2]; }
    RunExtends(es, ReplyFails(2));
    es := es + [ReplyFails(2)];
    assert Without([2], 2) == [] && Without([], 2) == [] by { assert [2][..0] == []; }
    RunExtends(es, DoUnregister(2));
    assert map[LAB := Room(token, [], [2])] - {LAB} == map[];
  }

  /** Then the room has forgotten its token, though the pair is still connected: the next
      comer opens it under another. */
  lemma ConnectedPairLosesItsRoom(token: string, stranger: string)
    requires |token| >= MIN_TOKEN_LEN && |stranger| >= MIN_TOKEN_LEN && stranger != token
    ensures var es := ThirdLeaves(token) + [Arrive(3, Attach, LAB, stranger)] + [DoRegister(3)];
            && IsRun(es)
            && var s := Reached(es);
               && {0, 1, 3} <= s.peers.Keys && s.peers[0].partner == Some(1) && s.peers[1].partner == Some(0)
               && Live(s.peers[0]) && Live(s.peers[1]) && s.peers[0].token == token == s.peers[1].token
               && Queued(s, 3) && s.peers[3].room == s.peers[0].room && s.peers[3].token == stranger
  {
    hide IsRun, Reached, ThirdLeaves;
    ThirdTakesTheRoom(token);
    var es := ThirdLeaves(token);
    RunExtends(es, Arrive(3, Attach, LAB, stranger));
    RunExtends(es + [Arrive(3, Attach, LAB, stranger)], DoRegister(3));
    assert 3 in [] + [3];
  }
}
