/** The relay's rendezvous server (internal/relay/server.go): peers register,
    queue, are paired, time out and leave, one step per section of Server.mu. */
module RelayModel {
  import opened Prelude

  type PeerId = nat

  datatype Role = Publish | Attach

  function Other(r: Role): (o: Role) { if r.Publish? then Attach else Publish }

  /** Where a peer's ServeConn stands. */
  datatype Phase =
    | Fresh                     // hello accepted, about to register
    | Rejected                  // wrong token
    | Replying(matched: bool)   // registered; writing the "waiting" reply
    | Waiting                   // selecting between p.paired and the timeout
    | Leaving                   // reply failed or timed out: its unregister is next
    | Pairing                   // writing the "paired" reply
    | Splicing
    | Closing                   // closeBoth: unregister(p) is next
    | ClosingPartner            // closeBoth: unregister(partner) is next
    | Exited

  /** `closes` counts closings of the paired channel; `arrived` and `matchedAt` are
      history: the times of registration and of pairing. */
  datatype Peer = Peer(role: Role, room: string, token: string, partner: Option<PeerId>, closes: nat,
                       phase: Phase, arrived: nat, matchedAt: nat)

  datatype Room = Room(token: string, idle: seq<PeerId>, waiting: seq<PeerId>)

  function QueueOf(r: Room, role: Role): (q: seq<PeerId>) { if role.Publish? then r.idle else r.waiting }

  function WithQueue(r: Room, role: Role, q: seq<PeerId>): (n: Room) {
    if role.Publish? then r.(idle := q) else r.(waiting := q)
  }

  datatype State = State(rooms: map<string, Room>, peers: map<PeerId, Peer>, clock: nat)

  const INIT := State(map[], map[], 0)

  const MIN_TOKEN_LEN := 16

  /** The room a peer registers in: the existing one, or a new one under its token. */
  function RoomFor(s: State, p: Peer): (r: Room) {
    if p.room in s.rooms then s.rooms[p.room] else Room(p.token, [], [])
  }

  function Enqueued(s: State, id: PeerId): (r: State)
    requires id in s.peers
  {
    var p := s.peers[id];
    var r := RoomFor(s, p);
    State(s.rooms[p.room := WithQueue(r, p.role, QueueOf(r, p.role) + [id])],
          s.peers[id := p.(phase := Replying(false), arrived := s.clock)], s.clock + 1)
  }

  function Matched(s: State, id: PeerId, o: PeerId): (r: State)
    requires id in s.peers && o in s.peers
  {
    var p := s.peers[id];
    var r := RoomFor(s, p);
    var q := QueueOf(r, Other(p.role));
    var p' := p.(partner := Some(o), phase := Replying(true), arrived := s.clock, matchedAt := s.clock);
    var peers := s.peers[id := p'];
    State(s.rooms[p.room := WithQueue(r, Other(p.role), if q == [] then [] else q[1..])],
          peers[o := peers[o].(partner := Some(id), closes := peers[o].closes + 1, matchedAt := s.clock)], s.clock + 1)
  }

  /** register (server.go:176-215). */
  function Register(s: State, id: PeerId): (r: State)
    requires id in s.peers
  {
    var p := s.peers[id];
    var room := RoomFor(s, p);
    if room.token != p.token then s.(peers := s.peers[id := p.(phase := Rejected)])
    else
      var opposite := QueueOf(room, Other(p.role));
      if opposite != [] && opposite[0] in s.peers then Matched(s, id, opposite[0]) else Enqueued(s, id)
  }

  /** remove: the list without p, in the same order. */
  function Without(q: seq<PeerId>, id: PeerId): (r: seq<PeerId>) {
    if q == [] then []
    else Without(q[..|q| - 1], id) + if q[|q| - 1] == id then [] else [q[|q| - 1]]
  }

  /** unregister (server.go:217-231) on the map of rooms. */
  function Unregister(rooms: map<string, Room>, room: string, id: PeerId): (r: map<string, Room>) {
    if room !in rooms then rooms
    else
      var r := rooms[room];
      var left := Room(r.token, Without(r.idle, id), Without(r.waiting, id));
      if left.idle == [] && left.waiting == [] then rooms - {room} else rooms[room := left]
  }

  datatype Event =
    | Arrive(id: PeerId, role: Role, room: string, token: string)
    | DoRegister(id: PeerId)
    | ReplyOk(id: PeerId) | ReplyFails(id: PeerId)
    | Woken(id: PeerId) | TimesOut(id: PeerId)
    | PairedOk(id: PeerId) | PairedFails(id: PeerId)
    | SpliceEnds(id: PeerId)
    | DoUnregister(id: PeerId)

  predicate Can(s: State, e: Event) {
    match e
    case Arrive(id, _, room, token) => id !in s.peers && room != "" && |token| >= MIN_TOKEN_LEN
    case DoRegister(id) => id in s.peers && s.peers[id].phase.Fresh?
    case ReplyOk(id) => id in s.peers && s.peers[id].phase.Replying?
    case ReplyFails(id) => id in s.peers && s.peers[id].phase.Replying?
    case Woken(id) => id in s.peers && s.peers[id].phase.Waiting? && s.peers[id].closes > 0
    case TimesOut(id) => id in s.peers && s.peers[id].phase.Waiting?
    case PairedOk(id) => id in s.peers && s.peers[id].phase.Pairing?
    case PairedFails(id) => id in s.peers && s.peers[id].phase.Pairing?
    case SpliceEnds(id) => id in s.peers && s.peers[id].phase.Splicing?
    case DoUnregister(id) =>
      id in s.peers && (s.peers[id].phase.Leaving? || s.peers[id].phase.Closing? || s.peers[id].phase.ClosingPartner?)
  }

  function Move(s: State, id: PeerId, phase: Phase): (r: State)
    requires id in s.peers
  {
    s.(peers := s.peers[id := s.peers[id].(phase := phase)])
  }

  function Do(s: State, e: Event): (r: State)
    requires Can(s, e)
  {
    match e
    case Arrive(id, role, room, token) =>
      s.(peers := s.peers[id := Peer(role, room, token, None, 0, Fresh, 0, 0)])
    case DoRegister(id) => Register(s, id)
    case ReplyOk(id) => Move(s, id, if s.peers[id].phase.matched then Pairing else Waiting)
    case ReplyFails(id) => Move(s, id, Leaving)
    case Woken(id) => Move(s, id, Pairing)
    case TimesOut(id) => Move(s, id, Leaving)
    case PairedOk(id) => Move(s, id, Splicing)
    case PairedFails(id) => Move(s, id, Closing)
    case SpliceEnds(id) => Move(s, id, Closing)
    case DoUnregister(id) =>
      var p := s.peers[id];
      if p.phase.ClosingPartner? then
        Move(s.(rooms := if p.partner.Some? then Unregister(s.rooms, p.room, p.partner.value) else s.rooms), id, Exited)
      else
        Move(s.(rooms := Unregister(s.rooms, p.room, id)), id, if p.phase.Closing? then ClosingPartner else Exited)
  }

  predicate IsRun(es: seq<Event>)
    decreases |es|, 0
  {
    es == [] || (IsRun(es[..|es| - 1]) && Can(Reached(es[..|es| - 1]), es[|es| - 1]))
  }

  function Reached(es: seq<Event>): (s: State)
    requires IsRun(es)
    decreases |es|, 1
  {
    if es == [] then INIT else Do(Reached(es[..|es| - 1]), es[|es| - 1])
  }
}
