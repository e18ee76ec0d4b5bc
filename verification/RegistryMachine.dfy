// Every interleaving of the data-plane bookkeeping, one lock-held region per
// step. A multi-lock helper (`insert_udp_session`, `remove_udp_session`,
// `remove_stream_entry`) is split into its regions; `flights` keeps what a
// half-finished helper still has to do. A task that is aborted between two
// regions leaves its insert behind as `Leaked`, its removal as `Stale`.
module RegistryMachine {
  import opened Wrappers
  import opened Registry

  datatype Flight =
    | Closing(place: Key)
    | Removing(session: UdpSession, decremented: bool)
    | Inserting(session: UdpSession, indexed: bool)
    | Leaked(session: UdpSession, indexed: bool)
    | Stale(session: UdpSession)
  {
    // Does this helper still own one unit of its channel's load?
    predicate Charges() {
      !Stale? && (Removing? ==> !decremented)
    }

    function Place(): Key {
      if Closing? then place else session.Place()
    }

    // Does this helper still own an entry of the peer index?
    predicate Indexes() {
      Removing? || Stale? || ((Inserting? || Leaked?) && indexed)
    }
  }

  // One UDP listener task: no datagram in hand, a peer with no session, the
  // same after the connection-limit check, or inside `insert_udp_session`.
  datatype Listener = Idle | Looked(peer: Peer) | Checked(peer: Peer) | Busy(id: StreamId)

  // `limits` holds each tunnel's `max_connections`; it never changes.
  datatype Machine = Machine(
    limits: map<Uuid, nat>,
    streams: Streams,
    udpSessions: UdpSessions,
    loads: Loads,
    peers: PeerIndex,
    flights: map<StreamId, Flight>,
    listeners: map<Uuid, Listener>,
    drawn: set<StreamId>)

  // `remove_stream_entry` and `try_register_stream`, for one stream id.
  datatype StreamStep = TryRegister(entry: StreamEntry) | RemoveStream | DecrementStream

  // `remove_udp_session`, for one stream id.
  datatype UdpStep = RemoveUdp | DecrementUdp | UnindexUdp | AbortUdp

  // The listener task of one tunnel.
  datatype ListenStep =
    LookPeer(peer: Peer) | CheckLimit | CountUdp(id: StreamId, session: UdpSession) | IndexUdp | PublishUdp | Abort

  datatype Step =
    | OnStream(id: StreamId, stream: StreamStep)
    | OnUdp(id: StreamId, udp: UdpStep)
    | OnListener(tunnel: Uuid, listen: ListenStep)

  function Start(limits: map<Uuid, nat>): Machine {
    Machine(limits, map[], map[], map[], map[], map[], map[], {})
  }

  function Limit(m: Machine, t: Uuid): nat {
    if t in m.limits then m.limits[t] else 0
  }

  function ListenerOf(m: Machine, t: Uuid): Listener {
    if t in m.listeners then m.listeners[t] else Idle
  }

  // The insert a busy listener is in the middle of.
  function InsertOf(m: Machine, t: Uuid): Option<Flight> {
    match ListenerOf(m, t)
    case Busy(id) => if id in m.flights && m.flights[id].Inserting? then Some(m.flights[id]) else None
    case _ => None
  }

  // Stream ids are fresh v4 UUIDs, and a session is created for the listener's
  // own tunnel and the datagram's peer; the rest is the source's control flow.
  predicate Enabled(m: Machine, step: Step) {
    match step
    case OnStream(id, s) => StreamEnabled(m, id, s)
    case OnUdp(id, s) => UdpEnabled(m, id, s)
    case OnListener(t, s) => ListenEnabled(m, t, s)
  }

  predicate StreamEnabled(m: Machine, id: StreamId, step: StreamStep) {
    match step
    case TryRegister(_) => id !in m.drawn
    case RemoveStream => id in m.streams
    case DecrementStream => id in m.flights && m.flights[id].Closing?
  }

  predicate UdpEnabled(m: Machine, id: StreamId, step: UdpStep) {
    match step
    case RemoveUdp => id in m.udpSessions
    case DecrementUdp => id in m.flights && m.flights[id].Removing? && !m.flights[id].decremented
    case UnindexUdp => id in m.flights && m.flights[id].Removing? && m.flights[id].decremented
    case AbortUdp => id in m.flights && m.flights[id].Removing? && m.flights[id].decremented
  }

  predicate ListenEnabled(m: Machine, t: Uuid, step: ListenStep) {
    match step
    case LookPeer(_) => ListenerOf(m, t).Idle?
    case CheckLimit => ListenerOf(m, t).Looked?
    case CountUdp(id, s) =>
      ListenerOf(m, t).Checked? && id !in m.drawn && s.tunnelId == t && s.peer == ListenerOf(m, t).peer
    case IndexUdp => InsertOf(m, t).Some? && !InsertOf(m, t).value.indexed
    case PublishUdp => InsertOf(m, t).Some? && InsertOf(m, t).value.indexed
    case Abort => ListenerOf(m, t).Busy? ==> InsertOf(m, t).Some?
  }

  function Apply(m: Machine, step: Step): Machine
    requires Enabled(m, step)
  {
    match step
    case OnStream(id, s) => ApplyStream(m, id, s)
    case OnUdp(id, s) => ApplyUdp(m, id, s)
    case OnListener(t, s) => ApplyListen(m, t, s)
  }

  function ApplyStream(m: Machine, id: StreamId, step: StreamStep): (m': Machine)
    requires StreamEnabled(m, id, step)
    ensures m'.limits == m.limits && m'.peers == m.peers && m'.udpSessions == m.udpSessions && m'.listeners == m.listeners
  {
    match step
    case TryRegister(entry) =>
      if |ActiveStreams(m.streams, entry.deviceId, entry.tunnelId)| >= Limit(m, entry.tunnelId) then
        m.(drawn := m.drawn + {id})
      else
        m.(streams := m.streams[id := entry], loads := Incremented(m.loads, entry.Place()), drawn := m.drawn + {id})
    case RemoveStream =>
      m.(streams := m.streams - {id}, flights := m.flights[id := Closing(m.streams[id].Place())])
    case DecrementStream =>
      m.(flights := m.flights - {id}, loads := Decremented(m.loads, m.flights[id].place))
  }

  function ApplyUdp(m: Machine, id: StreamId, step: UdpStep): (m': Machine)
    requires UdpEnabled(m, id, step)
    ensures m'.limits == m.limits && m'.streams == m.streams && m'.listeners == m.listeners
  {
    match step
    case RemoveUdp =>
      m.(udpSessions := m.udpSessions - {id}, flights := m.flights[id := Removing(m.udpSessions[id], false)])
    case DecrementUdp =>
      var s := m.flights[id].session;
      m.(loads := Decremented(m.loads, s.Place()), flights := m.flights[id := Removing(s, true)])
    case UnindexUdp =>
      var s := m.flights[id].session;
      m.(peers := Unindexed(m.peers, s.tunnelId, s.peer), flights := m.flights - {id})
    case AbortUdp =>
      m.(flights := m.flights[id := Stale(m.flights[id].session)])
  }

  function ApplyListen(m: Machine, t: Uuid, step: ListenStep): (m': Machine)
    requires ListenEnabled(m, t, step)
    ensures m'.limits == m.limits && m'.streams == m.streams
  {
    match step
    case LookPeer(p) =>
      if Lookup(m.peers, t, p) == None then m.(listeners := m.listeners[t := Looked(p)]) else m
    case CheckLimit =>
      var pc := if |PeersOf(m.peers, t)| >= Limit(m, t) then Idle else Checked(m.listeners[t].peer);
      m.(listeners := m.listeners[t := pc])
    case CountUdp(id, s) =>
      m.(loads := Incremented(m.loads, s.Place()), flights := m.flights[id := Inserting(s, false)],
         listeners := m.listeners[t := Busy(id)], drawn := m.drawn + {id})
    case IndexUdp =>
      var id := m.listeners[t].id;
      var s := m.flights[id].session;
      m.(peers := Indexed(m.peers, s.tunnelId, s.peer, id), flights := m.flights[id := Inserting(s, true)])
    case PublishUdp =>
      var id := m.listeners[t].id;
      m.(udpSessions := m.udpSessions[id := m.flights[id].session], flights := m.flights - {id},
         listeners := m.listeners[t := Idle])
    case Abort =>
      var m' := m.(listeners := m.listeners[t := Idle]);
      if ListenerOf(m, t).Busy? then
        var id := m.listeners[t].id;
        m'.(flights := m.flights[id := Leaked(m.flights[id].session, m.flights[id].indexed)])
      else m'
  }

  ghost predicate IsRun(m: Machine, steps: seq<Step>)
    decreases steps
  {
    steps != [] ==> Enabled(m, steps[0]) && IsRun(Apply(m, steps[0]), steps[1..])
  }

  ghost function After(m: Machine, steps: seq<Step>): Machine
    requires IsRun(m, steps)
    decreases steps
  {
    if steps == [] then m else After(Apply(m, steps[0]), steps[1..])
  }

  // ---- The life of one stream id ---------------------------------------------

  datatype Stage = Unseen | Stream(entry: StreamEntry) | Udp(session: UdpSession) | Flying(flight: Flight) {
    // The channel one unit of whose load this id accounts for.
    function Charge(): Option<Key> {
      match this
      case Unseen => None
      case Stream(e) => Some(e.Place())
      case Udp(s) => Some(s.Place())
      case Flying(f) => if f.Charges() then Some(f.Place()) else None
    }

    // The entry of the peer index this id accounts for.
    function PeerSlot(): Option<(Uuid, Peer)> {
      match this
      case Udp(s) => Some((s.tunnelId, s.peer))
      case Flying(f) => if f.Indexes() then Some((f.session.tunnelId, f.session.peer)) else None
      case _ => None
    }
  }

  function StageOf(m: Machine, id: StreamId): Stage {
    if id in m.streams then Stream(m.streams[id])
    else if id in m.udpSessions then Udp(m.udpSessions[id])
    else if id in m.flights then Flying(m.flights[id])
    else Unseen
  }

  function Holders(m: Machine, k: Key): set<StreamId> {
    set id | id in m.drawn && StageOf(m, id).Charge() == Some(k)
  }

  function FlightsOn(m: Machine, k: Key): set<StreamId> {
    set id | id in m.flights && m.flights[id].Charges() && m.flights[id].Place() == k
  }

  // ---- Invariant --------------------------------------------------------------

  // A stream id is in exactly one stage of its life.
  ghost predicate OneStage(m: Machine) {
    && (forall id | id in m.streams :: id in m.drawn && id !in m.udpSessions && id !in m.flights)
    && (forall id | id in m.udpSessions :: id in m.drawn && id !in m.flights)
    && (forall id | id in m.flights :: id in m.drawn)
  }

  ghost predicate LoadsExact(m: Machine) {
    forall k: Key :: Load(m.loads, k) == |Holders(m, k)|
  }

  ghost predicate IndexExact(m: Machine) {
    && NoEmptyInner(m.peers)
    && forall t: Uuid, p: Peer, id: StreamId ::
         Lookup(m.peers, t, p) == Some(id) <==> StageOf(m, id).PeerSlot() == Some((t, p))
  }

  // Room is kept for a peer from the limit check until it is indexed.
  ghost predicate Unpublished(m: Machine, t: Uuid, p: Peer) {
    Lookup(m.peers, t, p) == None && |PeersOf(m.peers, t)| < Limit(m, t)
  }

  ghost predicate ListenerExact(m: Machine, t: Uuid, l: Listener) {
    match l
    case Idle => true
    case Looked(p) => Lookup(m.peers, t, p) == None
    case Checked(p) => Unpublished(m, t, p)
    case Busy(id) =>
      && id in m.flights && m.flights[id].Inserting?
      && m.flights[id].session.tunnelId == t
      && (m.flights[id].indexed || Unpublished(m, t, m.flights[id].session.peer))
  }

  ghost predicate ListenersExact(m: Machine) {
    && (forall t: Uuid :: ListenerExact(m, t, ListenerOf(m, t)))
    && (forall id | id in m.flights && m.flights[id].Inserting? ::
          ListenerOf(m, m.flights[id].session.tunnelId) == Busy(id))
  }

  ghost predicate WithinLimits(m: Machine) {
    && (forall t: Uuid :: |PeersOf(m.peers, t)| <= Limit(m, t))
    && (forall d: Uuid, t: Uuid :: |ActiveStreams(m.streams, d, t)| <= Limit(m, t))
  }

  ghost predicate Inv(m: Machine) {
    OneStage(m) && LoadsExact(m) && IndexExact(m) && ListenersExact(m) && WithinLimits(m)
  }

  // ---- Every step keeps the invariant ------------------------------------------

  lemma StreamKeepsOneStage(m: Machine, id: StreamId, step: StreamStep)
    requires OneStage(m) && StreamEnabled(m, id, step)
    ensures OneStage(ApplyStream(m, id, step))
  {
  }

  lemma UdpKeepsOneStage(m: Machine, id: StreamId, step: UdpStep)
    requires OneStage(m) && UdpEnabled(m, id, step)
    ensures OneStage(ApplyUdp(m, id, step))
  {
  }

  lemma ListenKeepsOneStage(m: Machine, t: Uuid, step: ListenStep)
    requires OneStage(m) && ListenEnabled(m, t, step)
    ensures OneStage(ApplyListen(m, t, step))
  {
  }

  lemma KeepsOneStage(m: Machine, step: Step)
    requires OneStage(m) && Enabled(m, step)
    ensures OneStage(Apply(m, step))
  {
    match step
    case OnStream(id, s) => StreamKeepsOneStage(m, id, s);
    case OnUdp(id, s) => UdpKeepsOneStage(m, id, s);
    case OnListener(t, s) => ListenKeepsOneStage(m, t, s);
  }

  // The one id a step moves to another stage, and that stage.
  function Moves(m: Machine, step: Step): Option<(StreamId, Stage)>
    requires Enabled(m, step)
  {
    match step
    case OnStream(id, s) => StreamMoves(m, id, s)
    case OnUdp(id, s) => UdpMoves(m, id, s)
    case OnListener(t, s) => ListenMoves(m, t, s)
  }

  function StreamMoves(m: Machine, id: StreamId, step: StreamStep): Option<(StreamId, Stage)>
    requires StreamEnabled(m, id, step)
  {
    match step
    case TryRegister(e) =>
      if |ActiveStreams(m.streams, e.deviceId, e.tunnelId)| >= Limit(m, e.tunnelId) then None else Some((id, Stream(e)))
    case RemoveStream => Some((id, Flying(Closing(m.streams[id].Place()))))
    case DecrementStream => Some((id, Unseen))
  }

  function UdpMoves(m: Machine, id: StreamId, step: UdpStep): Option<(StreamId, Stage)>
    requires UdpEnabled(m, id, step)
  {
    match step
    case RemoveUdp => Some((id, Flying(Removing(m.udpSessions[id], false))))
    case DecrementUdp => Some((id, Flying(Removing(m.flights[id].session, true))))
    case UnindexUdp => Some((id, Unseen))
    case AbortUdp => Some((id, Flying(Stale(m.flights[id].session))))
  }

  function ListenMoves(m: Machine, t: Uuid, step: ListenStep): Option<(StreamId, Stage)>
    requires ListenEnabled(m, t, step)
  {
    match step
    case LookPeer(_) => None
    case CheckLimit => None
    case CountUdp(id, s) => Some((id, Flying(Inserting(s, false))))
    case IndexUdp =>
      var id := m.listeners[t].id; Some((id, Flying(Inserting(m.flights[id].session, true))))
    case PublishUdp =>
      var id := m.listeners[t].id; Some((id, Udp(m.flights[id].session)))
    case Abort =>
      if !ListenerOf(m, t).Busy? then None
      else
        var id := m.listeners[t].id; Some((id, Flying(Leaked(m.flights[id].session, m.flights[id].indexed))))
  }

  ghost function StageAfter(m: Machine, moved: Option<(StreamId, Stage)>, id: StreamId): Stage {
    match moved
    case Some(g) => if id == g.0 then g.1 else StageOf(m, id)
    case None => StageOf(m, id)
  }

  lemma ListenMovesOnly(m: Machine, t: Uuid, step: ListenStep, id: StreamId)
    requires OneStage(m) && ListenEnabled(m, t, step)
    ensures StageOf(ApplyListen(m, t, step), id) == StageAfter(m, ListenMoves(m, t, step), id)
  {
  }

  lemma StreamMovesOnly(m: Machine, r: StreamId, step: StreamStep, id: StreamId)
    requires OneStage(m) && StreamEnabled(m, r, step)
    ensures StageOf(ApplyStream(m, r, step), id) == StageAfter(m, StreamMoves(m, r, step), id)
  {
    match step
    case TryRegister(e) =>
      if |ActiveStreams(m.streams, e.deviceId, e.tunnelId)| < Limit(m, e.tunnelId) && id != r {
        var m' := ApplyStream(m, r, step);
        assert id in m'.streams <==> id in m.streams;
        assert id in m'.streams ==> m'.streams[id] == m.streams[id];
      }
    case _ =>
  }

  lemma UdpMovesOnly(m: Machine, r: StreamId, step: UdpStep, id: StreamId)
    requires OneStage(m) && UdpEnabled(m, r, step)
    ensures StageOf(ApplyUdp(m, r, step), id) == StageAfter(m, UdpMoves(m, r, step), id)
  {
  }

  lemma MovesOnly(m: Machine, step: Step, id: StreamId)
    requires OneStage(m) && Enabled(m, step)
    ensures StageOf(Apply(m, step), id) == StageAfter(m, Moves(m, step), id)
  {
    match step
    case OnStream(r, s) => StreamMovesOnly(m, r, s, id);
    case OnUdp(r, s) => UdpMovesOnly(m, r, s, id);
    case OnListener(t, s) => ListenMovesOnly(m, t, s, id);
  }

  // ---- Loads ----

  lemma InHolders(m: Machine, id: StreamId, k: Key)
    requires OneStage(m)
    ensures id in Holders(m, k) <==> StageOf(m, id).Charge() == Some(k)
  {
  }

  // Two states that differ in the stage of at most one id.
  ghost predicate MovedTo(m: Machine, m': Machine, moved: Option<(StreamId, Stage)>) {
    OneStage(m) && OneStage(m') && forall id: StreamId :: StageOf(m', id) == StageAfter(m, moved, id)
  }

  lemma StepMoves(m: Machine, step: Step)
    requires OneStage(m) && Enabled(m, step)
    ensures MovedTo(m, Apply(m, step), Moves(m, step))
  {
    KeepsOneStage(m, step);
    forall id: StreamId ensures StageOf(Apply(m, step), id) == StageAfter(m, Moves(m, step), id) {
      MovesOnly(m, step, id);
    }
  }

  lemma HoldersAfter(m: Machine, m': Machine, moved: Option<(StreamId, Stage)>, k: Key)
    requires MovedTo(m, m', moved)
    ensures Holders(m', k) ==
              match moved
              case None => Holders(m, k)
              case Some(g) => if g.1.Charge() == Some(k) then Holders(m, k) + {g.0} else Holders(m, k) - {g.0}
  {
    forall id: StreamId
      ensures id in Holders(m', k) <==> StageAfter(m, moved, id).Charge() == Some(k)
      ensures id in Holders(m, k) <==> StageOf(m, id).Charge() == Some(k) {
      InHolders(m', id, k);
      InHolders(m, id, k);
    }
  }

  ghost function LoadMoved(m: Machine, moved: Option<(StreamId, Stage)>, k: Key): nat {
    var l := Load(m.loads, k);
    match moved
    case None => l
    case Some(g) =>
      var before := StageOf(m, g.0).Charge() == Some(k);
      var after := g.1.Charge() == Some(k);
      if before == after then l else if after then l + 1 else if l == 0 then 0 else l - 1
  }

  lemma RegisterLoad(m: Machine, id: StreamId, entry: StreamEntry, k: Key)
    requires OneStage(m) && StreamEnabled(m, id, TryRegister(entry))
    ensures Load(ApplyStream(m, id, TryRegister(entry)).loads, k) == LoadMoved(m, StreamMoves(m, id, TryRegister(entry)), k)
  {
    assert StageOf(m, id) == Unseen;
  }

  lemma StreamLoad(m: Machine, id: StreamId, step: StreamStep, k: Key)
    requires OneStage(m) && StreamEnabled(m, id, step)
    ensures Load(ApplyStream(m, id, step).loads, k) == LoadMoved(m, StreamMoves(m, id, step), k)
  {
    match step
    case TryRegister(entry) => RegisterLoad(m, id, entry, k);
    case RemoveStream =>
    case DecrementStream =>
  }

  lemma UdpLoad(m: Machine, id: StreamId, step: UdpStep, k: Key)
    requires OneStage(m) && UdpEnabled(m, id, step)
    ensures Load(ApplyUdp(m, id, step).loads, k) == LoadMoved(m, UdpMoves(m, id, step), k)
  {
  }

  lemma ListenLoad(m: Machine, t: Uuid, step: ListenStep, k: Key)
    requires OneStage(m) && ListenEnabled(m, t, step)
    ensures Load(ApplyListen(m, t, step).loads, k) == LoadMoved(m, ListenMoves(m, t, step), k)
  {
  }

  lemma LoadAfter(m: Machine, step: Step, k: Key)
    requires OneStage(m) && Enabled(m, step)
    ensures Load(Apply(m, step).loads, k) == LoadMoved(m, Moves(m, step), k)
  {
    match step
    case OnStream(id, s) => StreamLoad(m, id, s, k);
    case OnUdp(id, s) => UdpLoad(m, id, s, k);
    case OnListener(t, s) => ListenLoad(m, t, s, k);
  }

  // The counter moves by one exactly when the moved id's charge appears or goes.
  lemma KeepsLoads(m: Machine, step: Step)
    requires OneStage(m) && LoadsExact(m) && Enabled(m, step)
    ensures LoadsExact(Apply(m, step))
  {
    StepMoves(m, step);
    forall k: Key ensures Load(Apply(m, step).loads, k) == |Holders(Apply(m, step), k)| {
      assert Load(m.loads, k) == |Holders(m, k)|;
      HoldersAfter(m, Apply(m, step), Moves(m, step), k);
      LoadAfter(m, step, k);
      if Moves(m, step).Some? {
        InHolders(m, Moves(m, step).value.0, k);
      }
    }
  }

  // ---- Peer index ----

  ghost function LookupMoved(m: Machine, moved: Option<(StreamId, Stage)>, t: Uuid, p: Peer): Option<StreamId> {
    match moved
    case None => Lookup(m.peers, t, p)
    case Some(g) =>
      var before := StageOf(m, g.0).PeerSlot() == Some((t, p));
      var after := g.1.PeerSlot() == Some((t, p));
      if before == after then Lookup(m.peers, t, p) else if after then Some(g.0) else None
  }

  lemma UdpLookup(m: Machine, id: StreamId, step: UdpStep, t: Uuid, p: Peer)
    requires OneStage(m) && UdpEnabled(m, id, step)
    ensures Lookup(ApplyUdp(m, id, step).peers, t, p) == LookupMoved(m, UdpMoves(m, id, step), t, p)
  {
    if step.UnindexUdp? {
      var s := m.flights[id].session;
      UnindexedLookup(m.peers, s.tunnelId, s.peer, t, p);
    }
  }

  lemma StreamLookup(m: Machine, id: StreamId, step: StreamStep, t: Uuid, p: Peer)
    requires OneStage(m) && StreamEnabled(m, id, step)
    ensures Lookup(ApplyStream(m, id, step).peers, t, p) == LookupMoved(m, StreamMoves(m, id, step), t, p)
  {
  }

  lemma ListenLookup(m: Machine, u: Uuid, step: ListenStep, t: Uuid, p: Peer)
    requires OneStage(m) && ListenEnabled(m, u, step)
    ensures Lookup(ApplyListen(m, u, step).peers, t, p) == LookupMoved(m, ListenMoves(m, u, step), t, p)
  {
  }

  lemma LookupAfter(m: Machine, step: Step, t: Uuid, p: Peer)
    requires OneStage(m) && Enabled(m, step)
    ensures Lookup(Apply(m, step).peers, t, p) == LookupMoved(m, Moves(m, step), t, p)
  {
    match step
    case OnStream(id, s) => StreamLookup(m, id, s, t, p);
    case OnUdp(id, s) => UdpLookup(m, id, s, t, p);
    case OnListener(u, s) => ListenLookup(m, u, s, t, p);
  }

  lemma ListenKeepsInner(m: Machine, t: Uuid, step: ListenStep)
    requires NoEmptyInner(m.peers) && ListenEnabled(m, t, step)
    ensures NoEmptyInner(ApplyListen(m, t, step).peers)
  {
    if step.IndexUdp? {
      var f := InsertOf(m, t).value;
      assert f.session.peer in ApplyListen(m, t, step).peers[f.session.tunnelId];
    }
  }

  lemma UdpKeepsInner(m: Machine, id: StreamId, step: UdpStep)
    requires NoEmptyInner(m.peers) && UdpEnabled(m, id, step)
    ensures NoEmptyInner(ApplyUdp(m, id, step).peers)
  {
  }

  lemma KeepsInner(m: Machine, step: Step)
    requires NoEmptyInner(m.peers) && Enabled(m, step)
    ensures NoEmptyInner(Apply(m, step).peers)
  {
    match step
    case OnStream(id, s) => assert ApplyStream(m, id, s).peers == m.peers;
    case OnUdp(id, s) => UdpKeepsInner(m, id, s);
    case OnListener(t, s) => ListenKeepsInner(m, t, s);
  }

  // An entry appears only for a peer that had none.
  lemma KeepsIndex(m: Machine, step: Step)
    requires OneStage(m) && IndexExact(m) && ListenersExact(m) && Enabled(m, step)
    ensures IndexExact(Apply(m, step))
  {
    StepMoves(m, step);
    KeepsInner(m, step);
    var m' := Apply(m, step);
    forall t: Uuid, p: Peer, id: StreamId
      ensures Lookup(m'.peers, t, p) == Some(id) <==> StageOf(m', id).PeerSlot() == Some((t, p)) {
      LookupAfter(m, step, t, p);
      if Gains(m, Moves(m, step), t, p) {
        NewPeerWasFree(m, step, t, p);
      }
      IndexEntryAfter(m, m', Moves(m, step), t, p, id);
    }
  }

  ghost predicate Gains(m: Machine, moved: Option<(StreamId, Stage)>, t: Uuid, p: Peer) {
    moved.Some? && moved.value.1.PeerSlot() == Some((t, p)) && StageOf(m, moved.value.0).PeerSlot() != Some((t, p))
  }

  lemma NewPeerWasFree(m: Machine, step: Step, t: Uuid, p: Peer)
    requires OneStage(m) && ListenersExact(m) && Enabled(m, step) && Gains(m, Moves(m, step), t, p)
    ensures Lookup(m.peers, t, p) == None
  {
    match step
    case OnStream(id, s) =>
    case OnUdp(id, s) =>
    case OnListener(u, s) =>
      assert s.IndexUdp?;
      assert ListenerExact(m, u, ListenerOf(m, u));
  }

  lemma IndexEntryAfter(m: Machine, m': Machine, moved: Option<(StreamId, Stage)>, t: Uuid, p: Peer, id: StreamId)
    requires MovedTo(m, m', moved) && IndexExact(m)
    requires Lookup(m'.peers, t, p) == LookupMoved(m, moved, t, p)
    requires Gains(m, moved, t, p) ==> Lookup(m.peers, t, p) == None
    ensures Lookup(m'.peers, t, p) == Some(id) <==> StageOf(m', id).PeerSlot() == Some((t, p))
  {
    assert Lookup(m.peers, t, p) == Some(id) <==> StageOf(m, id).PeerSlot() == Some((t, p));
    if moved.Some? {
      var r := moved.value.0;
      assert Lookup(m.peers, t, p) == Some(r) <==> StageOf(m, r).PeerSlot() == Some((t, p));
    }
  }

  // ---- Listeners ----

  // Nothing but its own listener adds a peer to a tunnel.
  ghost predicate PeersShrink(m: Machine, m': Machine, t: Uuid) {
    PeersOf(m'.peers, t).Keys <= PeersOf(m.peers, t).Keys
  }

  lemma UdpShrinksPeers(m: Machine, id: StreamId, step: UdpStep, t: Uuid)
    requires UdpEnabled(m, id, step)
    ensures PeersShrink(m, ApplyUdp(m, id, step), t)
  {
  }

  lemma OtherListenerKeepsPeers(m: Machine, u: Uuid, step: ListenStep, t: Uuid)
    requires ListenersExact(m) && ListenEnabled(m, u, step) && t != u
    ensures PeersOf(ApplyListen(m, u, step).peers, t) == PeersOf(m.peers, t)
  {
    assert ListenerExact(m, u, ListenerOf(m, u));
  }

  lemma ShrinkKeepsListener(m: Machine, m': Machine, t: Uuid)
    requires ListenerExact(m, t, ListenerOf(m, t)) && PeersShrink(m, m', t) && m'.limits == m.limits
    requires ListenerOf(m', t) == ListenerOf(m, t)
    requires forall id | id in m.flights && m.flights[id].Inserting? && m.flights[id].session.tunnelId == t ::
               id in m'.flights && m'.flights[id] == m.flights[id]
    ensures ListenerExact(m', t, ListenerOf(m', t))
  {
    SubsetSize(PeersOf(m'.peers, t).Keys, PeersOf(m.peers, t).Keys);
    assert |PeersOf(m.peers, t)| == |PeersOf(m.peers, t).Keys|;
    assert |PeersOf(m'.peers, t)| == |PeersOf(m'.peers, t).Keys|;
  }

  lemma OwnStepKeepsListener(m: Machine, t: Uuid, step: ListenStep)
    requires ListenersExact(m) && ListenEnabled(m, t, step)
    ensures ListenerExact(ApplyListen(m, t, step), t, ListenerOf(ApplyListen(m, t, step), t))
  {
    assert ListenerExact(m, t, ListenerOf(m, t));
  }

  lemma StreamKeepsInserts(m: Machine, r: StreamId, step: StreamStep, id: StreamId)
    requires OneStage(m) && StreamEnabled(m, r, step)
    ensures var f := ApplyStream(m, r, step).flights;
            (id in f && f[id].Inserting?) == (id in m.flights && m.flights[id].Inserting?)
            && (id in f && f[id].Inserting? ==> f[id] == m.flights[id])
  {
  }

  lemma UdpKeepsInserts(m: Machine, r: StreamId, step: UdpStep, id: StreamId)
    requires OneStage(m) && UdpEnabled(m, r, step)
    ensures var f := ApplyUdp(m, r, step).flights;
            (id in f && f[id].Inserting?) == (id in m.flights && m.flights[id].Inserting?)
            && (id in f && f[id].Inserting? ==> f[id] == m.flights[id])
  {
  }

  lemma StreamKeepsListeners(m: Machine, r: StreamId, step: StreamStep)
    requires OneStage(m) && ListenersExact(m) && StreamEnabled(m, r, step)
    ensures ListenersExact(ApplyStream(m, r, step))
  {
    var m' := ApplyStream(m, r, step);
    assert m'.listeners == m.listeners && m'.peers == m.peers && m'.limits == m.limits;
    forall id: StreamId ensures (id in m'.flights && m'.flights[id].Inserting?) == (id in m.flights && m.flights[id].Inserting?)
                     && (id in m'.flights && m'.flights[id].Inserting? ==> m'.flights[id] == m.flights[id]) {
      StreamKeepsInserts(m, r, step, id);
    }
    forall t: Uuid ensures ListenerExact(m', t, ListenerOf(m', t)) {
      ShrinkKeepsListener(m, m', t);
    }
  }

  lemma UdpKeepsListeners(m: Machine, r: StreamId, step: UdpStep)
    requires OneStage(m) && ListenersExact(m) && UdpEnabled(m, r, step)
    ensures ListenersExact(ApplyUdp(m, r, step))
  {
    var m' := ApplyUdp(m, r, step);
    assert m'.listeners == m.listeners && m'.limits == m.limits;
    forall id: StreamId ensures (id in m'.flights && m'.flights[id].Inserting?) == (id in m.flights && m.flights[id].Inserting?)
                     && (id in m'.flights && m'.flights[id].Inserting? ==> m'.flights[id] == m.flights[id]) {
      UdpKeepsInserts(m, r, step, id);
    }
    forall t: Uuid ensures ListenerExact(m', t, ListenerOf(m', t)) {
      UdpShrinksPeers(m, r, step, t);
      ShrinkKeepsListener(m, m', t);
    }
  }

  lemma OtherListenerKeepsInsert(m: Machine, u: Uuid, step: ListenStep, id: StreamId)
    requires OneStage(m) && ListenerExact(m, u, ListenerOf(m, u)) && ListenEnabled(m, u, step)
    requires id in m.flights && m.flights[id].Inserting? && m.flights[id].session.tunnelId != u
    ensures var m' := ApplyListen(m, u, step); id in m'.flights && m'.flights[id] == m.flights[id]
  {
    ListenMovesOnly(m, u, step, id);
  }

  lemma OtherListenerKeepsListener(m: Machine, u: Uuid, step: ListenStep, t: Uuid)
    requires OneStage(m) && ListenersExact(m) && ListenEnabled(m, u, step) && t != u
    ensures ListenerExact(ApplyListen(m, u, step), t, ListenerOf(ApplyListen(m, u, step), t))
  {
    var m' := ApplyListen(m, u, step);
    OtherListenerKeepsPeers(m, u, step, t);
    assert ListenerExact(m, t, ListenerOf(m, t)) && ListenerExact(m, u, ListenerOf(m, u));
    forall id | id in m.flights && m.flights[id].Inserting? && m.flights[id].session.tunnelId == t
      ensures id in m'.flights && m'.flights[id] == m.flights[id] {
      OtherListenerKeepsInsert(m, u, step, id);
    }
    assert ListenerOf(m', t) == ListenerOf(m, t);
    ShrinkKeepsListener(m, m', t);
  }

  lemma ListenKeepsBusy(m: Machine, u: Uuid, step: ListenStep, id: StreamId)
    requires OneStage(m) && ListenersExact(m) && ListenEnabled(m, u, step)
    requires var m' := ApplyListen(m, u, step); id in m'.flights && m'.flights[id].Inserting?
    ensures var m' := ApplyListen(m, u, step); ListenerOf(m', m'.flights[id].session.tunnelId) == Busy(id)
  {
    var m' := ApplyListen(m, u, step);
    if id in m.flights && m.flights[id].Inserting? && m.flights[id].session.tunnelId != u {
      OtherListenerKeepsInsert(m, u, step, id);
      assert ListenerOf(m, m.flights[id].session.tunnelId) == Busy(id);
    } else {
      OwnInsertIsBusy(m, u, step, id);
    }
  }

  lemma OwnInsertIsBusy(m: Machine, u: Uuid, step: ListenStep, id: StreamId)
    requires OneStage(m) && ListenerExact(m, u, ListenerOf(m, u)) && ListenEnabled(m, u, step)
    requires id in m.flights && m.flights[id].Inserting? ==>
               m.flights[id].session.tunnelId == u && ListenerOf(m, u) == Busy(id)
    requires var m' := ApplyListen(m, u, step); id in m'.flights && m'.flights[id].Inserting?
    ensures var m' := ApplyListen(m, u, step); ListenerOf(m', m'.flights[id].session.tunnelId) == Busy(id)
  {
  }

  lemma KeepsListeners(m: Machine, step: Step)
    requires OneStage(m) && ListenersExact(m) && Enabled(m, step)
    ensures ListenersExact(Apply(m, step))
  {
    match step
    case OnStream(id, s) => StreamKeepsListeners(m, id, s);
    case OnUdp(id, s) => UdpKeepsListeners(m, id, s);
    case OnListener(u, s) =>
      var m' := ApplyListen(m, u, s);
      forall t: Uuid ensures ListenerExact(m', t, ListenerOf(m', t)) {
        if t == u { OwnStepKeepsListener(m, u, s); } else { OtherListenerKeepsListener(m, u, s, t); }
      }
      forall id | id in m'.flights && m'.flights[id].Inserting?
        ensures ListenerOf(m', m'.flights[id].session.tunnelId) == Busy(id) {
        ListenKeepsBusy(m, u, s, id);
      }
  }

  // ---- Limits ----

  lemma ListenKeepsPeerLimit(m: Machine, u: Uuid, step: ListenStep, t: Uuid)
    requires ListenersExact(m) && ListenEnabled(m, u, step) && |PeersOf(m.peers, t)| <= Limit(m, t)
    ensures var m' := ApplyListen(m, u, step); |PeersOf(m'.peers, t)| <= Limit(m', t)
  {
    if t != u {
      OtherListenerKeepsPeers(m, u, step, t);
    } else {
      assert ListenerExact(m, u, ListenerOf(m, u));
    }
  }

  lemma KeepsPeerLimit(m: Machine, step: Step, t: Uuid)
    requires ListenersExact(m) && Enabled(m, step) && |PeersOf(m.peers, t)| <= Limit(m, t)
    ensures |PeersOf(Apply(m, step).peers, t)| <= Limit(Apply(m, step), t)
  {
    match step
    case OnStream(id, s) =>
    case OnUdp(id, s) => UdpKeepsPeerLimit(m, id, s, t);
    case OnListener(u, s) => ListenKeepsPeerLimit(m, u, s, t);
  }

  lemma UdpKeepsPeerLimit(m: Machine, id: StreamId, step: UdpStep, t: Uuid)
    requires UdpEnabled(m, id, step) && |PeersOf(m.peers, t)| <= Limit(m, t)
    ensures |PeersOf(ApplyUdp(m, id, step).peers, t)| <= Limit(m, t)
  {
    UdpShrinksPeers(m, id, step, t);
    var after := PeersOf(ApplyUdp(m, id, step).peers, t);
    SubsetSize(after.Keys, PeersOf(m.peers, t).Keys);
    assert |after| == |after.Keys| && |PeersOf(m.peers, t)| == |PeersOf(m.peers, t).Keys|;
  }

  lemma StreamKeepsLimit(m: Machine, id: StreamId, step: StreamStep, d: Uuid, t: Uuid)
    requires OneStage(m) && StreamEnabled(m, id, step)
    requires |ActiveStreams(m.streams, d, t)| <= Limit(m, t)
    ensures |ActiveStreams(ApplyStream(m, id, step).streams, d, t)| <= Limit(m, t)
  {
    match step
    case TryRegister(e) => ActiveAfterInsert(m.streams, id, e, d, t);
    case RemoveStream => assert ActiveStreams(m.streams - {id}, d, t) == ActiveStreams(m.streams, d, t) - {id};
    case DecrementStream =>
  }

  lemma ActiveAfterInsert(streams: Streams, id: StreamId, e: StreamEntry, d: Uuid, t: Uuid)
    requires id !in streams
    ensures ActiveStreams(streams[id := e], d, t) ==
            if e.deviceId == d && e.tunnelId == t then ActiveStreams(streams, d, t) + {id}
            else ActiveStreams(streams, d, t)
  {
  }

  lemma KeepsStreamLimit(m: Machine, step: Step, d: Uuid, t: Uuid)
    requires OneStage(m) && Enabled(m, step) && |ActiveStreams(m.streams, d, t)| <= Limit(m, t)
    ensures |ActiveStreams(Apply(m, step).streams, d, t)| <= Limit(Apply(m, step), t)
  {
    match step
    case OnStream(id, s) => StreamKeepsLimit(m, id, s, d, t);
    case OnUdp(id, s) =>
    case OnListener(u, s) =>
  }

  lemma KeepsLimits(m: Machine, step: Step)
    requires OneStage(m) && ListenersExact(m) && WithinLimits(m) && Enabled(m, step)
    ensures WithinLimits(Apply(m, step))
  {
    var m' := Apply(m, step);
    forall t: Uuid ensures |PeersOf(m'.peers, t)| <= Limit(m', t) {
      KeepsPeerLimit(m, step, t);
    }
    forall d: Uuid, t: Uuid ensures |ActiveStreams(m'.streams, d, t)| <= Limit(m', t) {
      KeepsStreamLimit(m, step, d, t);
    }
  }

  // ---- Whole runs ----

  lemma KeepsInv(m: Machine, step: Step)
    requires Inv(m) && Enabled(m, step)
    ensures Inv(Apply(m, step))
  {
    KeepsOneStage(m, step);
    KeepsLoads(m, step);
    KeepsIndex(m, step);
    KeepsListeners(m, step);
    KeepsLimits(m, step);
  }

  lemma {:induction false} RunKeepsInv(m: Machine, steps: seq<Step>)
    requires Inv(m) && IsRun(m, steps)
    ensures Inv(After(m, steps))
    decreases steps
  {
    if steps != [] {
      KeepsInv(m, steps[0]);
      RunKeepsInv(Apply(m, steps[0]), steps[1..]);
    }
  }

  lemma StartInv(limits: map<Uuid, nat>)
    ensures Inv(Start(limits))
  {
    var m := Start(limits);
    assert forall k: Key :: Holders(m, k) == {};
    assert forall d: Uuid, t: Uuid :: ActiveStreams(m.streams, d, t) == {};
  }

  ghost predicate Reachable(m: Machine) {
    exists limits, steps :: IsRun(Start(limits), steps) && m == After(Start(limits), steps)
  }

  lemma ReachableInv(m: Machine)
    requires Reachable(m)
    ensures Inv(m)
  {
    var limits, steps :| IsRun(Start(limits), steps) && m == After(Start(limits), steps);
    StartInv(limits);
    RunKeepsInv(Start(limits), steps);
  }

  lemma {:induction false} RunExtends(m: Machine, steps: seq<Step>, step: Step)
    requires IsRun(m, steps) && Enabled(After(m, steps), step)
    ensures IsRun(m, steps + [step]) && After(m, steps + [step]) == Apply(After(m, steps), step)
    decreases steps
  {
    if steps == [] {
      assert [step][1..] == [];
    } else {
      RunExtends(Apply(m, steps[0]), steps[1..], step);
      assert (steps + [step])[1..] == steps[1..] + [step];
    }
  }

  lemma ReachableExtends(m: Machine, step: Step)
    requires Reachable(m) && Enabled(m, step)
    ensures Reachable(Apply(m, step))
  {
    var limits, steps :| IsRun(Start(limits), steps) && m == After(Start(limits), steps);
    RunExtends(Start(limits), steps, step);
  }

  lemma HoldersSplit(m: Machine, k: Key)
    requires OneStage(m)
    ensures |Holders(m, k)| == |StreamsOn(m.streams, k)| + |UdpOn(m.udpSessions, k)| + |FlightsOn(m, k)|
  {
    var s, u, f := StreamsOn(m.streams, k), UdpOn(m.udpSessions, k), FlightsOn(m, k);
    forall id: StreamId ensures id in Holders(m, k) <==> id in s + u + f {
      InHolders(m, id, k);
    }
    assert Holders(m, k) == s + u + f;
    assert s !! u && (s + u) !! f;
  }

  // In every reachable state the counter is the scan of the two maps plus the
  // helpers that are between their map change and their counter change.
  lemma LoadEquation(m: Machine, k: Key)
    requires Reachable(m)
    ensures Load(m.loads, k) == |StreamsOn(m.streams, k)| + |UdpOn(m.udpSessions, k)| + |FlightsOn(m, k)|
  {
    ReachableInv(m);
    assert Load(m.loads, k) == |Holders(m, k)|;
    HoldersSplit(m, k);
  }

  lemma SubtractionNeverClamps(m: Machine, id: StreamId)
    requires Reachable(m) && id in m.flights
    requires Enabled(m, OnStream(id, DecrementStream)) || Enabled(m, OnUdp(id, DecrementUdp))
    ensures Load(m.loads, m.flights[id].Place()) > 0
  {
    LoadEquation(m, m.flights[id].Place());
    assert id in FlightsOn(m, m.flights[id].Place());
  }

  lemma SessionsAreIndexed(m: Machine, t: Uuid)
    requires Inv(m)
    ensures |SessionsOf(m.udpSessions, t)| <= Limit(m, t)
  {
    var inner := PeersOf(m.peers, t);
    forall id | id in SessionsOf(m.udpSessions, t) ensures id in inner.Values {
      var p := m.udpSessions[id].peer;
      assert Lookup(m.peers, t, p) == Some(id) <==> StageOf(m, id).PeerSlot() == Some((t, p));
      assert inner[p] == id;
    }
    SubsetSize(SessionsOf(m.udpSessions, t), inner.Values);
    ValuesNoMoreThanKeys(inner);
  }

  lemma LimitsHold(m: Machine, d: Uuid, t: Uuid)
    requires Reachable(m)
    ensures |SessionsOf(m.udpSessions, t)| <= Limit(m, t)
    ensures |ActiveStreams(m.streams, d, t)| <= Limit(m, t)
  {
    ReachableInv(m);
    SessionsAreIndexed(m, t);
  }

  // ---- Quiescence, and the two ways it goes wrong ----

  // An insert or a removal cut short by an abort.
  predicate CutShort(f: Flight) {
    f.Leaked? || f.Stale?
  }

  // No helper is running; only those cut short remain.
  ghost predicate Settled(m: Machine) {
    forall id | id in m.flights :: CutShort(m.flights[id])
  }

  ghost predicate LoadIsScan(m: Machine, k: Key) {
    Load(m.loads, k) == |StreamsOn(m.streams, k)| + |UdpOn(m.udpSessions, k)|
  }

  ghost predicate PeerIndexIsScan(m: Machine) {
    && NoEmptyInner(m.peers)
    && forall t: Uuid, p: Peer, id: StreamId :: Lookup(m.peers, t, p) == Some(id) <==>
         id in m.udpSessions && m.udpSessions[id].tunnelId == t && m.udpSessions[id].peer == p
  }

  // At quiescence a channel's counter is exact if and only if no insert bound
  // for that channel was aborted half-way. An aborted removal has counted down
  // already.
  lemma LoadIsScanIffNoLeak(m: Machine, k: Key)
    requires Reachable(m) && Settled(m)
    ensures LoadIsScan(m, k) <==> forall id | id in m.flights && m.flights[id].Leaked? :: m.flights[id].Place() != k
  {
    LoadEquation(m, k);
    if id :| id in m.flights && m.flights[id].Leaked? && m.flights[id].Place() == k {
      assert id in FlightsOn(m, k);
    } else {
      assert FlightsOn(m, k) == {};
    }
  }

  lemma SettledLookup(m: Machine, t: Uuid, p: Peer, id: StreamId)
    requires Inv(m) && Settled(m)
    ensures Lookup(m.peers, t, p) == Some(id) <==>
            (id in m.udpSessions && m.udpSessions[id].tunnelId == t && m.udpSessions[id].peer == p) ||
            (id in m.flights && m.flights[id].Indexes()
             && m.flights[id].session.tunnelId == t && m.flights[id].session.peer == p)
  {
    assert Lookup(m.peers, t, p) == Some(id) <==> StageOf(m, id).PeerSlot() == Some((t, p));
  }

  lemma LeakSpoilsIndex(m: Machine, id: StreamId)
    requires Inv(m) && Settled(m) && id in m.flights && m.flights[id].Indexes()
    ensures !PeerIndexIsScan(m)
  {
    var s := m.flights[id].session;
    SettledLookup(m, s.tunnelId, s.peer, id);
    assert id !in m.udpSessions;
  }

  lemma NoLeakIndexIsScan(m: Machine)
    requires Inv(m) && Settled(m) && forall id | id in m.flights :: !m.flights[id].Indexes()
    ensures PeerIndexIsScan(m)
  {
    forall t: Uuid, p: Peer, id: StreamId
      ensures Lookup(m.peers, t, p) == Some(id) <==>
              id in m.udpSessions && m.udpSessions[id].tunnelId == t && m.udpSessions[id].peer == p {
      SettledLookup(m, t, p, id);
    }
  }

  // At quiescence the peer index is exact if and only if no insert was aborted
  // between its index write and its session write, and no removal before its
  // index write.
  lemma PeerIndexIsScanIffNoLeak(m: Machine)
    requires Reachable(m) && Settled(m)
    ensures PeerIndexIsScan(m) <==>
            forall id | id in m.flights :: m.flights[id].Leaked? && !m.flights[id].indexed
  {
    ReachableInv(m);
    if id :| id in m.flights && m.flights[id].Indexes() {
      LeakSpoilsIndex(m, id);
    } else {
      NoLeakIndexIsScan(m);
    }
  }

  lemma StepKeepsLeak(m: Machine, step: Step, id: StreamId)
    requires Inv(m) && Enabled(m, step) && id in m.flights && CutShort(m.flights[id])
    ensures var m' := Apply(m, step); id in m'.flights && m'.flights[id] == m.flights[id]
  {
    MovesOnly(m, step, id);
    KeepsOneStage(m, step);
    assert Moves(m, step).Some? ==> Moves(m, step).value.0 != id;
  }

  lemma LeakBlocksPeer(m: Machine, id: StreamId, r: StreamId)
    requires Inv(m) && id in m.flights && CutShort(m.flights[id]) && m.flights[id].Indexes() && r in m.udpSessions
    ensures var s := m.flights[id].session;
            !(m.udpSessions[r].tunnelId == s.tunnelId && m.udpSessions[r].peer == s.peer)
  {
    var s := m.flights[id].session;
    var slot := (s.tunnelId, s.peer);
    assert Lookup(m.peers, s.tunnelId, s.peer) == Some(id) <==> StageOf(m, id).PeerSlot() == Some(slot);
    assert Lookup(m.peers, s.tunnelId, s.peer) == Some(r) <==> StageOf(m, r).PeerSlot() == Some(slot);
  }

  lemma LeakInflatesLoad(m: Machine, id: StreamId)
    requires Inv(m) && id in m.flights && m.flights[id].Leaked?
    ensures var k := m.flights[id].session.Place();
            Load(m.loads, k) > |StreamsOn(m.streams, k)| + |UdpOn(m.udpSessions, k)|
  {
    var k := m.flights[id].session.Place();
    HoldersSplit(m, k);
    assert Load(m.loads, k) == |Holders(m, k)|;
    assert id in FlightsOn(m, k);
  }

  // The peer of an aborted helper's index entry has no session.
  ghost predicate PeerBlocked(m: Machine, s: UdpSession) {
    forall r | r in m.udpSessions :: !(m.udpSessions[r].tunnelId == s.tunnelId && m.udpSessions[r].peer == s.peer)
  }

  // Nothing repairs an aborted helper: an insert's unit of load stays counted,
  // and a peer left in the index is never given another session.
  lemma {:induction false} LeakIsPermanent(m: Machine, steps: seq<Step>, id: StreamId)
    requires Inv(m) && IsRun(m, steps) && id in m.flights && CutShort(m.flights[id])
    ensures var m' := After(m, steps);
            var s := m.flights[id].session;
            && (m.flights[id].Leaked? ==>
                  Load(m'.loads, s.Place()) > |StreamsOn(m'.streams, s.Place())| + |UdpOn(m'.udpSessions, s.Place())|)
            && (m.flights[id].Indexes() ==> PeerBlocked(m', s))
    decreases steps
  {
    if steps != [] {
      StepKeepsLeak(m, steps[0], id);
      KeepsInv(m, steps[0]);
      LeakIsPermanent(Apply(m, steps[0]), steps[1..], id);
    } else {
      if m.flights[id].Leaked? {
        LeakInflatesLoad(m, id);
      }
      if m.flights[id].Indexes() {
        forall r | r in m.udpSessions
          ensures !(m.udpSessions[r].tunnelId == m.flights[id].session.tunnelId
                    && m.udpSessions[r].peer == m.flights[id].session.peer) {
          LeakBlocksPeer(m, id, r);
        }
      }
    }
  }

  // One datagram from peer 9 has passed the limit check of tunnel 7.
  function CheckedState(): Machine {
    Start(map[7 := 1]).(listeners := map[7 := Checked(9)])
  }

  lemma CheckedStateReachable()
    ensures Reachable(CheckedState())
  {
    var m0 := Start(map[7 := 1]);
    assert After(m0, []) == m0 && IsRun(m0, []);
    var m1 := m0.(listeners := map[7 := Looked(9)]);
    assert m1 == ApplyListen(m0, 7, LookPeer(9));
    ReachableExtends(m0, OnListener(7, LookPeer(9)));
    assert CheckedState() == ApplyListen(m1, 7, CheckLimit);
    ReachableExtends(m1, OnListener(7, CheckLimit));
  }

  // Disabling a tunnel aborts its listener, so the leak is a real run: one
  // datagram, then the abort right after the counter was incremented.
  lemma AbortLeaks()
    ensures exists m :: Reachable(m) && Settled(m) && m.udpSessions == map[] && m.streams == map[]
                        && Load(m.loads, (1, 1)) == 1
  {
    CheckedStateReachable();
    var s := UdpSession(1, 0, 7, 1, 9);
    var m2 := CheckedState();
    var m3 := ApplyListen(m2, 7, CountUdp(5, s));
    ReachableExtends(m2, OnListener(7, CountUdp(5, s)));
    assert m3.flights == map[5 := Inserting(s, false)] && ListenerOf(m3, 7) == Busy(5);
    var m4 := ApplyListen(m3, 7, Abort);
    ReachableExtends(m3, OnListener(7, Abort));
    assert m4.flights == map[5 := Leaked(s, false)];
    assert Settled(m4) && m4.loads == Incremented(map[], (1, 1));
  }

  const PEER_NINE := UdpSession(1, 0, 7, 1, 9)

  // Stream 5 for peer 9 of tunnel 7, in some stage of its life.
  function OnePeer(udp: UdpSessions, load: nat, peers: PeerIndex, flights: map<StreamId, Flight>, l: Listener): Machine {
    Machine(map[7 := 1], map[], udp, map[(1, 1) := load], peers, flights, map[7 := l], {5})
  }

  lemma CountedState(m: Machine)
    requires m == CheckedState() && ListenEnabled(m, 7, CountUdp(5, PEER_NINE))
    ensures ApplyListen(m, 7, CountUdp(5, PEER_NINE))
         == OnePeer(map[], 1, map[], map[5 := Inserting(PEER_NINE, false)], Busy(5))
  {
    var m' := m.(loads := Incremented(m.loads, PEER_NINE.Place()), flights := m.flights[5 := Inserting(PEER_NINE, false)],
                 listeners := m.listeners[7 := Busy(5)], drawn := m.drawn + {5});
    assert m'.loads == map[(1, 1) := 1] && m'.listeners == map[7 := Busy(5)];
    assert m'.flights == map[5 := Inserting(PEER_NINE, false)] && m'.drawn == {5};
  }

  lemma PeerCounted()
    ensures Reachable(OnePeer(map[], 1, map[], map[5 := Inserting(PEER_NINE, false)], Busy(5)))
  {
    CheckedStateReachable();
    ReachableExtends(CheckedState(), OnListener(7, CountUdp(5, PEER_NINE)));
    CountedState(CheckedState());
  }

  lemma PeerIndexed()
    ensures Reachable(OnePeer(map[], 1, map[7 := map[9 := 5]], map[5 := Inserting(PEER_NINE, true)], Busy(5)))
  {
    PeerCounted();
    var m := OnePeer(map[], 1, map[], map[5 := Inserting(PEER_NINE, false)], Busy(5));
    ReachableExtends(m, OnListener(7, IndexUdp));
    assert ApplyListen(m, 7, IndexUdp)
        == OnePeer(map[], 1, map[7 := map[9 := 5]], map[5 := Inserting(PEER_NINE, true)], Busy(5));
  }

  lemma PeerPublished()
    ensures Reachable(OnePeer(map[5 := PEER_NINE], 1, map[7 := map[9 := 5]], map[], Idle))
  {
    PeerIndexed();
    var m := OnePeer(map[], 1, map[7 := map[9 := 5]], map[5 := Inserting(PEER_NINE, true)], Busy(5));
    ReachableExtends(m, OnListener(7, PublishUdp));
    assert ApplyListen(m, 7, PublishUdp) == OnePeer(map[5 := PEER_NINE], 1, map[7 := map[9 := 5]], map[], Idle);
  }

  lemma PeerRemoved()
    ensures Reachable(OnePeer(map[], 1, map[7 := map[9 := 5]], map[5 := Removing(PEER_NINE, false)], Idle))
  {
    PeerPublished();
    var m := OnePeer(map[5 := PEER_NINE], 1, map[7 := map[9 := 5]], map[], Idle);
    ReachableExtends(m, OnUdp(5, RemoveUdp));
    assert ApplyUdp(m, 5, RemoveUdp)
        == OnePeer(map[], 1, map[7 := map[9 := 5]], map[5 := Removing(PEER_NINE, false)], Idle);
  }

  lemma PeerCountedDown()
    ensures Reachable(OnePeer(map[], 0, map[7 := map[9 := 5]], map[5 := Removing(PEER_NINE, true)], Idle))
  {
    PeerRemoved();
    var m := OnePeer(map[], 1, map[7 := map[9 := 5]], map[5 := Removing(PEER_NINE, false)], Idle);
    ReachableExtends(m, OnUdp(5, DecrementUdp));
    assert ApplyUdp(m, 5, DecrementUdp)
        == OnePeer(map[], 0, map[7 := map[9 := 5]], map[5 := Removing(PEER_NINE, true)], Idle);
  }

  // The listener also removes sessions, and so do the readers of data sockets;
  // both can be aborted. Nothing is counted then and no session is left, but the
  // peer is still in the index.
  lemma AbortedRemovalReachable()
    ensures exists m :: Reachable(m) && Settled(m) && m.udpSessions == map[] && m.streams == map[]
                        && Load(m.loads, (1, 1)) == 0 && Lookup(m.peers, 7, 9) == Some(5)
  {
    PeerCountedDown();
    var m := OnePeer(map[], 0, map[7 := map[9 := 5]], map[5 := Removing(PEER_NINE, true)], Idle);
    ReachableExtends(m, OnUdp(5, AbortUdp));
    var m' := ApplyUdp(m, 5, AbortUdp);
    assert m'.flights == map[5 := Stale(PEER_NINE)] && Lookup(m'.peers, 7, 9) == Some(5);
  }
}
