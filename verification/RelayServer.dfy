/** The relay server as an object: register, unregister and remove as the source
    runs them under Server.mu, each proved to be its step of RelayModel. */
module RelayServer {
  import opened Prelude
  import opened RelayModel

  /** remove (server.go:233-241): filters the list in its own storage. */
  method RemoveInPlace(list: array<PeerId>, id: PeerId) returns (n: nat)
    modifies list
    ensures n <= list.Length && list[..n] == Without(old(list[..]), id)
  {
    n := 0;
    for i := 0 to list.Length
      invariant n <= i
      invariant list[..n] == Without(old(list[..])[..i], id)
      invariant list[i..] == old(list[..])[i..]
    {
      var q := list[i];
      assert list[i..][0] == q && old(list[..])[i..][0] == old(list[..])[i];
      assert old(list[..])[..i + 1][..i] == old(list[..])[..i];
      ghost var kept := list[..n];
      ghost var tail := list[i + 1..];
      assert tail == list[i..][1..];
      if q != id {
        list[n] := q;
        n := n + 1;
        assert list[..n] == kept + [q];
      }
      assert list[i + 1..] == tail;
    }
    assert old(list[..])[..list.Length] == old(list[..]);
  }

  method Remove(q: seq<PeerId>, id: PeerId) returns (out: seq<PeerId>)
    ensures out == Without(q, id)
  {
    var list := new PeerId[|q|](i requires 0 <= i < |q| => q[i]);
    assert list[..] == q;
    var n := RemoveInPlace(list, id);
    out := list[..n];
  }

  class Server {
    var rooms: map<string, Room>
    var peers: map<PeerId, Peer>
    var clock: nat

    constructor ()
      ensures Abs() == INIT
    {
      rooms, peers, clock := map[], map[], 0;
    }

    function Abs(): (s: State)
      reads this
    {
      State(rooms, peers, clock)
    }

    /** Queues hold peers the server knows. */
    ghost predicate Valid()
      reads this
    {
      forall name, x | name in rooms && (x in rooms[name].idle || x in rooms[name].waiting) :: x in peers
    }

    /** The queues in register: the first of the other role, or a place at the end. */
    method MeetOrQueue(name: string, r: Room, role: Role, id: PeerId) returns (partner: Option<PeerId>)
      modifies this`rooms
      ensures var q := QueueOf(r, Other(role));
              if q != [] then partner == Some(q[0]) && rooms == old(rooms)[name := WithQueue(r, Other(role), q[1..])]
              else partner == None && rooms == old(rooms)[name := WithQueue(r, role, QueueOf(r, role) + [id])]
    {
      partner := None;
      match role {
        case Publish =>
          if |r.waiting| > 0 {
            partner := Some(r.waiting[0]);
            rooms := rooms[name := r.(waiting := r.waiting[1..])];
          } else {
            rooms := rooms[name := r.(idle := r.idle + [id])];
          }
        case Attach =>
          if |r.idle| > 0 {
            partner := Some(r.idle[0]);
            rooms := rooms[name := r.(idle := r.idle[1..])];
          } else {
            rooms := rooms[name := r.(waiting := r.waiting + [id])];
          }
      }
    }

    /** register: a match, a place in the queue, or a refusal. */
    method RegisterPeer(id: PeerId) returns (partner: Option<PeerId>, refused: bool)
      requires Valid() && id in peers
      modifies this
      ensures Abs() == Register(old(Abs()), id)
      ensures refused <==> peers[id].phase.Rejected?
      ensures partner.Some? ==> peers[id].partner == partner && peers[id].phase == Replying(true)
      ensures partner.None? && !refused ==> peers[id].phase == Replying(false)
    {
      var p := peers[id];
      var r := RoomFor(Abs(), p);
      if r.token != p.token {
        peers := peers[id := p.(phase := Rejected)];
        return None, true;
      }
      partner := MeetOrQueue(p.room, r, p.role, id);
      if partner.Some? {
        var o := partner.value;
        peers := peers[id := p.(partner := Some(o), phase := Replying(true), arrived := clock, matchedAt := clock)];
        peers := peers[o := peers[o].(partner := Some(id), closes := peers[o].closes + 1, matchedAt := clock)];
      } else {
        peers := peers[id := p.(phase := Replying(false), arrived := clock)];
      }
      clock := clock + 1;
      refused := false;
    }

    /** unregister: out of both queues, and the room goes with its last peer. */
    method UnregisterPeer(room: string, id: PeerId)
      modifies this`rooms
      ensures rooms == Unregister(old(rooms), room, id)
    {
      if room !in rooms { return; }
      var r := rooms[room];
      var idle := Remove(r.idle, id);
      var waiting := Remove(r.waiting, id);
      if |idle| == 0 && |waiting| == 0 {
        rooms := rooms - {room};
      } else {
        rooms := rooms[room := Room(r.token, idle, waiting)];
      }
    }
  }
}
