// One device's data channels: binding, dropping and the teardown that ends a
// control connection's clean-up, with any number of connections and data sockets
// in any order. One lock-held region is one step.
module ChannelPool {
  import opened Wrappers

  type Conn = nat
  type ChannelId = nat
  type Socket = nat
  type StreamId = nat

  // A control connection: registered; out of the session map; and each stage of
  // its teardown.
  datatype Loop =
    | Running
    | Ended
    | Tearing(todo: set<ChannelId>)
    | Closing(todo: set<ChannelId>, channel: ChannelId)
    | Aborting(todo: set<ChannelId>, channel: ChannelId)
    | Sweeping
    | Finished

  // A data socket reads the current connection first and binds later. Its reader
  // ends by closing its streams, unbinding its channel and unlisting itself.
  datatype Sock =
    | Captured(owner: Conn)
    | Bound(channel: ChannelId, owner: Conn)
    | Draining(channel: ChannelId, owner: Conn)
    | Dropped(channel: ChannelId, owner: Conn)
    | Closed(channel: ChannelId, owner: Conn)

  // A stream between the choice of its channel and its registration, registered,
  // or removed; `owner` is the connection the channel was bound under.
  datatype Traffic = Chosen(channel: ChannelId, owner: Conn) | Placed(channel: ChannelId, owner: Conn) | Removed

  // `pool` is the device's entry in the map of bound channels, `listed` whether
  // it has one; `tasks` are the readers that can be aborted, by channel id.
  datatype State = State(
    session: Option<Conn>,
    pool: map<ChannelId, Conn>,
    listed: bool,
    tasks: map<ChannelId, Socket>,
    loops: map<Conn, Loop>,
    sockets: map<Socket, Sock>,
    streams: map<StreamId, Traffic>)

  datatype LoopStep =
    Register | EndSession | Snapshot | CloseStreams(channel: ChannelId) | TearOne | AbortTask | CheckEmpty | Sweep
  datatype SocketStep = Capture | Bind(channel: ChannelId) | Enlist | CloseCarried | Drop | Unlist
  datatype StreamStep = Choose(channel: ChannelId) | Place | End

  datatype Step =
    | OnLoop(conn: Conn, loop: LoopStep)
    | OnSocket(socket: Socket, sock: SocketStep)
    | OnStream(stream: StreamId, traffic: StreamStep)

  const Start := State(None, map[], false, map[], map[], map[], map[])

  predicate LoopEnabled(s: State, c: Conn, step: LoopStep) {
    if step.Register? then c !in s.loops
    else
      && c in s.loops
      && match step
         case EndSession => s.loops[c].Running?
         case Snapshot => s.loops[c].Ended?
         case CloseStreams(id) => s.loops[c].Tearing? && id in s.loops[c].todo
         case TearOne => s.loops[c].Closing?
         case AbortTask => s.loops[c].Aborting?
         case CheckEmpty => s.loops[c] == Tearing({})
         case Sweep => s.loops[c].Sweeping?
         case Register => false
  }

  // The channels bound under one connection.
  function Owned(pool: map<ChannelId, Conn>, c: Conn): set<ChannelId> {
    set id | id in pool && pool[id] == c
  }

  // Whatever is registered on a channel goes, whoever placed it there.
  function Cleared(streams: map<StreamId, Traffic>, id: ChannelId): map<StreamId, Traffic> {
    map r | r in streams :: if streams[r].Placed? && streams[r].channel == id then Removed else streams[r]
  }

  predicate Runs(k: Sock) {
    k.Bound? || k.Draining? || k.Dropped?
  }

  function Halted(k: Sock): Sock {
    if Runs(k) then Closed(k.channel, k.owner) else k
  }

  // The reader listed under the id is aborted without its own clean-up.
  function Aborted(s: State, id: ChannelId): State {
    if id !in s.tasks then s
    else
      var k := s.tasks[id];
      s.(tasks := s.tasks - {id}, sockets := if k in s.sockets then s.sockets[k := Halted(s.sockets[k])] else s.sockets)
  }

  function ApplyLoop(s: State, c: Conn, step: LoopStep): State
    requires LoopEnabled(s, c, step)
  {
    match step
    case Register => s.(session := Some(c), loops := s.loops[c := Running])
    case EndSession =>
      s.(session := if s.session == Some(c) then None else s.session, loops := s.loops[c := Ended])
    case Snapshot => s.(loops := s.loops[c := Tearing(Owned(s.pool, c))])
    case CloseStreams(id) =>
      s.(streams := Cleared(s.streams, id), loops := s.loops[c := Closing(s.loops[c].todo - {id}, id)])
    case TearOne =>
      // Removed by id; the owner is not looked at again.
      var id := s.loops[c].channel;
      s.(pool := s.pool - {id}, loops := s.loops[c := Aborting(s.loops[c].todo, id)])
    case AbortTask => Aborted(s, s.loops[c].channel).(loops := s.loops[c := Tearing(s.loops[c].todo)])
    case CheckEmpty => s.(loops := s.loops[c := if s.listed && s.pool == map[] then Sweeping else Finished])
    case Sweep =>
      // The device's whole entry, whatever is in it by now.
      s.(pool := map[], listed := false, loops := s.loops[c := Finished])
  }

  predicate SocketEnabled(s: State, k: Socket, step: SocketStep) {
    match step
    case Capture => k !in s.sockets && s.session.Some?
    case Bind(id) => k in s.sockets && s.sockets[k].Captured? && id !in s.pool
    case Enlist => k in s.sockets && !s.sockets[k].Captured?
    case CloseCarried => k in s.sockets && s.sockets[k].Bound?
    case Drop => k in s.sockets && s.sockets[k].Draining?
    case Unlist => k in s.sockets && s.sockets[k].Dropped?
  }

  // A socket lists its reader at some time after it has bound, when the reader
  // may have ended already.
  function ApplySocket(s: State, k: Socket, step: SocketStep): State
    requires SocketEnabled(s, k, step)
  {
    match step
    case Capture => s.(sockets := s.sockets[k := Captured(s.session.value)])
    case Bind(id) =>
      var c := s.sockets[k].owner;
      s.(pool := s.pool[id := c], listed := true, sockets := s.sockets[k := Bound(id, c)])
    case Enlist => s.(tasks := s.tasks[s.sockets[k].channel := k])
    case CloseCarried =>
      var id := s.sockets[k].channel;
      s.(streams := Cleared(s.streams, id), sockets := s.sockets[k := Draining(id, s.sockets[k].owner)])
    case Drop =>
      // By id again, and again without looking at the owner.
      var id := s.sockets[k].channel;
      s.(pool := s.pool - {id}, sockets := s.sockets[k := Dropped(id, s.sockets[k].owner)])
    case Unlist =>
      var id := s.sockets[k].channel;
      s.(tasks := s.tasks - {id}, sockets := s.sockets[k := Closed(id, s.sockets[k].owner)])
  }

  predicate StreamEnabled(s: State, r: StreamId, step: StreamStep) {
    match step
    case Choose(id) => r !in s.streams && id in s.pool && s.session == Some(s.pool[id])
    case Place => r in s.streams && s.streams[r].Chosen?
    case End => r in s.streams && s.streams[r].Placed?
  }

  function ApplyTraffic(s: State, r: StreamId, step: StreamStep): State
    requires StreamEnabled(s, r, step)
  {
    match step
    case Choose(id) => s.(streams := s.streams[r := Chosen(id, s.pool[id])])
    case Place => s.(streams := s.streams[r := Placed(s.streams[r].channel, s.streams[r].owner)])
    case End => s.(streams := s.streams[r := Removed])
  }

  predicate Enabled(s: State, step: Step) {
    match step
    case OnLoop(c, l) => LoopEnabled(s, c, l)
    case OnSocket(k, p) => SocketEnabled(s, k, p)
    case OnStream(r, t) => StreamEnabled(s, r, t)
  }

  function Apply(s: State, step: Step): State
    requires Enabled(s, step)
  {
    match step
    case OnLoop(c, l) => ApplyLoop(s, c, l)
    case OnSocket(k, p) => ApplySocket(s, k, p)
    case OnStream(r, t) => ApplyTraffic(s, r, t)
  }

  ghost predicate IsRun(s: State, steps: seq<Step>)
    decreases steps
  {
    steps != [] ==> Enabled(s, steps[0]) && IsRun(Apply(s, steps[0]), steps[1..])
  }

  ghost function After(s: State, steps: seq<Step>): State
    requires IsRun(s, steps)
    decreases steps
  {
    if steps == [] then s else After(Apply(s, steps[0]), steps[1..])
  }

  lemma {:induction false} RunExtends(s: State, steps: seq<Step>, step: Step)
    requires IsRun(s, steps) && Enabled(After(s, steps), step)
    ensures IsRun(s, steps + [step]) && After(s, steps + [step]) == Apply(After(s, steps), step)
    decreases steps
  {
    if steps == [] {
      assert [step][1..] == [];
    } else {
      RunExtends(Apply(s, steps[0]), steps[1..], step);
      assert (steps + [step])[1..] == steps[1..] + [step];
    }
  }

  ghost predicate Reachable(s: State) {
    exists steps :: IsRun(Start, steps) && s == After(Start, steps)
  }

  lemma ReachableExtends(s: State, step: Step)
    requires Reachable(s) && Enabled(s, step)
    ensures Reachable(Apply(s, step))
  {
    var steps :| IsRun(Start, steps) && s == After(Start, steps);
    RunExtends(Start, steps, step);
  }

  // A teardown collects its connection's channels first, and later, id by id,
  // closes the streams on it, unbinds it and aborts its reader; at the end it
  // looks whether the device has channels left and removes its entry if not.
  predicate Frees(s: State, step: Step, id: ChannelId) {
    match step
    case OnLoop(c, TearOne) => c in s.loops && s.loops[c].Closing? && s.loops[c].channel == id
    case OnLoop(c, Sweep) => c in s.loops && s.loops[c].Sweeping?
    case OnSocket(k, Drop) => k in s.sockets && s.sockets[k].Draining? && s.sockets[k].channel == id
    case _ => false
  }

  ghost predicate NeverFrees(s: State, steps: seq<Step>, id: ChannelId)
    requires IsRun(s, steps)
    decreases steps
  {
    steps != [] ==> !Frees(s, steps[0], id) && NeverFrees(Apply(s, steps[0]), steps[1..], id)
  }

  lemma OwnerKept(s: State, step: Step, id: ChannelId)
    requires Enabled(s, step) && id in s.pool && !Frees(s, step, id)
    ensures id in Apply(s, step).pool && Apply(s, step).pool[id] == s.pool[id]
  {
    match step
    case OnLoop(c, l) => LoopKeepsOwner(s, c, l, id);
    case OnSocket(k, p) => SocketKeepsOwner(s, k, p, id);
    case OnStream(_, _) =>
  }

  lemma LoopKeepsOwner(s: State, c: Conn, step: LoopStep, id: ChannelId)
    requires LoopEnabled(s, c, step) && id in s.pool && !Frees(s, OnLoop(c, step), id)
    ensures id in ApplyLoop(s, c, step).pool && ApplyLoop(s, c, step).pool[id] == s.pool[id]
  {
  }

  lemma SocketKeepsOwner(s: State, k: Socket, step: SocketStep, id: ChannelId)
    requires SocketEnabled(s, k, step) && id in s.pool && !Frees(s, OnSocket(k, step), id)
    ensures id in ApplySocket(s, k, step).pool && ApplySocket(s, k, step).pool[id] == s.pool[id]
  {
  }

  // An id means the same connection's channel for as long as nobody frees it.
  lemma {:induction false} UndisturbedIdIsOwn(s: State, steps: seq<Step>, id: ChannelId)
    requires IsRun(s, steps) && id in s.pool && NeverFrees(s, steps, id)
    ensures id in After(s, steps).pool && After(s, steps).pool[id] == s.pool[id]
    decreases steps
  {
    if steps != [] {
      OwnerKept(s, steps[0], id);
      UndisturbedIdIsOwn(Apply(s, steps[0]), steps[1..], id);
    }
  }

  // The id is bound, and not under connection c.
  predicate Foreign(s: State, c: Conn, id: ChannelId) {
    id in s.pool && s.pool[id] != c
  }

  predicate BindsForeign(s: State, step: Step, c: Conn, id: ChannelId) {
    match step
    case OnSocket(k, Bind(channel)) => channel == id && k in s.sockets && s.sockets[k].Captured? && s.sockets[k].owner != c
    case _ => false
  }

  // Some step binds the id under another connection, and nothing frees it since.
  ghost predicate Rebound(s: State, steps: seq<Step>, c: Conn, id: ChannelId)
    requires IsRun(s, steps)
    decreases steps
  {
    steps != [] &&
    var s' := Apply(s, steps[0]);
    (BindsForeign(s, steps[0], c, id) && NeverFrees(s', steps[1..], id)) || Rebound(s', steps[1..], c, id)
  }

  lemma ForeignStep(s: State, step: Step, c: Conn, id: ChannelId)
    requires Enabled(s, step)
    ensures Foreign(Apply(s, step), c, id) <==>
            BindsForeign(s, step, c, id) || (Foreign(s, c, id) && !Frees(s, step, id))
  {
    match step
    case OnLoop(d, l) => LoopForeign(s, d, l, c, id);
    case OnSocket(k, p) => SocketForeign(s, k, p, c, id);
    case OnStream(_, _) =>
  }

  lemma LoopForeign(s: State, d: Conn, step: LoopStep, c: Conn, id: ChannelId)
    requires LoopEnabled(s, d, step)
    ensures Foreign(ApplyLoop(s, d, step), c, id) <==> Foreign(s, c, id) && !Frees(s, OnLoop(d, step), id)
  {
  }

  lemma SocketForeign(s: State, k: Socket, step: SocketStep, c: Conn, id: ChannelId)
    requires SocketEnabled(s, k, step)
    ensures Foreign(ApplySocket(s, k, step), c, id) <==>
            BindsForeign(s, OnSocket(k, step), c, id) || (Foreign(s, c, id) && !Frees(s, OnSocket(k, step), id))
  {
  }

  lemma {:induction false} ForeignIff(s: State, steps: seq<Step>, c: Conn, id: ChannelId)
    requires IsRun(s, steps)
    ensures Foreign(After(s, steps), c, id) <==>
            Rebound(s, steps, c, id) || (Foreign(s, c, id) && NeverFrees(s, steps, id))
    decreases steps
  {
    if steps != [] {
      ForeignStep(s, steps[0], c, id);
      ForeignIff(Apply(s, steps[0]), steps[1..], c, id);
    }
  }

  // The stream is registered on the id under a connection other than c.
  predicate ForeignStream(s: State, r: StreamId, c: Conn, id: ChannelId) {
    r in s.streams && s.streams[r].Placed? && s.streams[r].channel == id && s.streams[r].owner != c
  }

  predicate PlacesForeign(s: State, step: Step, r: StreamId, c: Conn, id: ChannelId) {
    step == OnStream(r, Place) && r in s.streams && s.streams[r].Chosen?
    && s.streams[r].channel == id && s.streams[r].owner != c
  }

  predicate EndsStream(s: State, step: Step, r: StreamId, id: ChannelId) {
    match step
    case OnStream(q, End) => q == r
    case OnLoop(_, CloseStreams(channel)) => channel == id
    case OnSocket(k, CloseCarried) => k in s.sockets && s.sockets[k].Bound? && s.sockets[k].channel == id
    case _ => false
  }

  ghost predicate NeverEnds(s: State, steps: seq<Step>, r: StreamId, id: ChannelId)
    requires IsRun(s, steps)
    decreases steps
  {
    steps != [] ==> !EndsStream(s, steps[0], r, id) && NeverEnds(Apply(s, steps[0]), steps[1..], r, id)
  }

  // Some step registers the stream on the id under another connection, and
  // nothing removes it since.
  ghost predicate PlacedSince(s: State, steps: seq<Step>, r: StreamId, c: Conn, id: ChannelId)
    requires IsRun(s, steps)
    decreases steps
  {
    steps != [] &&
    var s' := Apply(s, steps[0]);
    (PlacesForeign(s, steps[0], r, c, id) && NeverEnds(s', steps[1..], r, id)) || PlacedSince(s', steps[1..], r, c, id)
  }

  lemma ForeignStreamStep(s: State, step: Step, r: StreamId, c: Conn, id: ChannelId)
    requires Enabled(s, step)
    ensures ForeignStream(Apply(s, step), r, c, id) <==>
            PlacesForeign(s, step, r, c, id) || (ForeignStream(s, r, c, id) && !EndsStream(s, step, r, id))
  {
    match step
    case OnLoop(d, l) => LoopForeignStream(s, d, l, r, c, id);
    case OnSocket(k, p) => SocketForeignStream(s, k, p, r, c, id);
    case OnStream(_, _) =>
  }

  lemma LoopForeignStream(s: State, d: Conn, step: LoopStep, r: StreamId, c: Conn, id: ChannelId)
    requires LoopEnabled(s, d, step)
    ensures ForeignStream(ApplyLoop(s, d, step), r, c, id) <==>
            ForeignStream(s, r, c, id) && !EndsStream(s, OnLoop(d, step), r, id)
  {
  }

  lemma SocketForeignStream(s: State, k: Socket, step: SocketStep, r: StreamId, c: Conn, id: ChannelId)
    requires SocketEnabled(s, k, step)
    ensures ForeignStream(ApplySocket(s, k, step), r, c, id) <==>
            ForeignStream(s, r, c, id) && !EndsStream(s, OnSocket(k, step), r, id)
  {
  }

  lemma {:induction false} ForeignStreamIff(s: State, steps: seq<Step>, r: StreamId, c: Conn, id: ChannelId)
    requires IsRun(s, steps)
    ensures ForeignStream(After(s, steps), r, c, id) <==>
            PlacedSince(s, steps, r, c, id) || (ForeignStream(s, r, c, id) && NeverEnds(s, steps, r, id))
    decreases steps
  {
    if steps != [] {
      ForeignStreamStep(s, steps[0], r, c, id);
      ForeignStreamIff(Apply(s, steps[0]), steps[1..], r, c, id);
    }
  }

  // The reader listed under the id runs for another connection.
  predicate ForeignTask(s: State, c: Conn, id: ChannelId) {
    && id in s.tasks && s.tasks[id] in s.sockets
    && var k := s.sockets[s.tasks[id]]; Runs(k) && k.owner != c
  }

  // A listed reader is one of its id's channel.
  ghost predicate TasksOk(s: State) {
    forall id | id in s.tasks ::
      s.tasks[id] in s.sockets && !s.sockets[s.tasks[id]].Captured? && s.sockets[s.tasks[id]].channel == id
  }

  lemma TasksStep(s: State, step: Step)
    requires TasksOk(s) && Enabled(s, step)
    ensures TasksOk(Apply(s, step))
  {
    match step
    case OnLoop(c, l) => LoopTasks(s, c, l);
    case OnSocket(k, p) => SocketTasks(s, k, p);
    case OnStream(_, _) =>
  }

  lemma LoopTasks(s: State, c: Conn, step: LoopStep)
    requires TasksOk(s) && LoopEnabled(s, c, step)
    ensures TasksOk(ApplyLoop(s, c, step))
  {
  }

  lemma SocketTasks(s: State, k: Socket, step: SocketStep)
    requires TasksOk(s) && SocketEnabled(s, k, step)
    ensures TasksOk(ApplySocket(s, k, step))
  {
  }

  predicate EnlistsForeign(s: State, step: Step, c: Conn, id: ChannelId) {
    match step
    case OnSocket(k, Enlist) =>
      k in s.sockets && Runs(s.sockets[k]) && s.sockets[k].channel == id && s.sockets[k].owner != c
    case _ => false
  }

  // The listed reader ends, or another takes its place in the list.
  predicate EndsTask(s: State, step: Step, id: ChannelId) {
    match step
    case OnLoop(c, AbortTask) => c in s.loops && s.loops[c].Aborting? && s.loops[c].channel == id
    case OnSocket(k, Enlist) => k in s.sockets && !s.sockets[k].Captured? && s.sockets[k].channel == id
    case OnSocket(k, Unlist) => k in s.sockets && s.sockets[k].Dropped? && s.sockets[k].channel == id
    case _ => false
  }

  ghost predicate NeverEndsTask(s: State, steps: seq<Step>, id: ChannelId)
    requires IsRun(s, steps)
    decreases steps
  {
    steps != [] ==> !EndsTask(s, steps[0], id) && NeverEndsTask(Apply(s, steps[0]), steps[1..], id)
  }

  // Another connection's reader is listed under the id during the run and
  // stays so.
  ghost predicate EnlistedSince(s: State, steps: seq<Step>, c: Conn, id: ChannelId)
    requires IsRun(s, steps)
    decreases steps
  {
    steps != [] &&
    var s' := Apply(s, steps[0]);
    (EnlistsForeign(s, steps[0], c, id) && NeverEndsTask(s', steps[1..], id)) || EnlistedSince(s', steps[1..], c, id)
  }

  lemma LoopForeignTask(s: State, d: Conn, step: LoopStep, c: Conn, id: ChannelId)
    requires TasksOk(s) && LoopEnabled(s, d, step)
    ensures ForeignTask(ApplyLoop(s, d, step), c, id) <==>
            ForeignTask(s, c, id) && !EndsTask(s, OnLoop(d, step), id)
  {
  }

  lemma SocketForeignTask(s: State, k: Socket, step: SocketStep, c: Conn, id: ChannelId)
    requires TasksOk(s) && SocketEnabled(s, k, step)
    ensures ForeignTask(ApplySocket(s, k, step), c, id) <==>
            EnlistsForeign(s, OnSocket(k, step), c, id) || (ForeignTask(s, c, id) && !EndsTask(s, OnSocket(k, step), id))
  {
  }

  lemma ForeignTaskStep(s: State, step: Step, c: Conn, id: ChannelId)
    requires TasksOk(s) && Enabled(s, step)
    ensures ForeignTask(Apply(s, step), c, id) <==>
            EnlistsForeign(s, step, c, id) || (ForeignTask(s, c, id) && !EndsTask(s, step, id))
  {
    match step
    case OnLoop(d, l) => LoopForeignTask(s, d, l, c, id);
    case OnSocket(k, p) => SocketForeignTask(s, k, p, c, id);
    case OnStream(_, _) =>
  }

  lemma {:induction false} ForeignTaskIff(s: State, steps: seq<Step>, c: Conn, id: ChannelId)
    requires TasksOk(s) && IsRun(s, steps)
    ensures ForeignTask(After(s, steps), c, id) <==>
            EnlistedSince(s, steps, c, id) || (ForeignTask(s, c, id) && NeverEndsTask(s, steps, id))
    decreases steps
  {
    if steps != [] {
      ForeignTaskStep(s, steps[0], c, id);
      TasksStep(s, steps[0]);
      ForeignTaskIff(Apply(s, steps[0]), steps[1..], c, id);
    }
  }

  // Every other connection's channels, registered streams, sockets and listed
  // readers are as before.
  ghost predicate SparesOthers(s: State, s': State, c: Conn) {
    && SparesTasks(s, s', c)
    && SparesChannels(s, s', c)
    && (forall r | r in s.streams && s.streams[r].Placed? && s.streams[r].owner != c ::
          r in s'.streams && s'.streams[r] == s.streams[r])
    && (forall k | k in s.sockets && s.sockets[k].owner != c :: k in s'.sockets && s'.sockets[k] == s.sockets[k])
  }

  ghost predicate SparesTasks(s: State, s': State, c: Conn) {
    forall id | id in s.tasks && ForeignTask(s, c, id) :: id in s'.tasks && s'.tasks[id] == s.tasks[id]
  }

  ghost predicate SparesChannels(s: State, s': State, c: Conn) {
    forall d: Conn | d != c :: Owned(s'.pool, d) == Owned(s.pool, d)
  }

  // Removing one id from the pool.
  lemma UnbindSparesIff(s: State, s': State, c: Conn, id: ChannelId)
    requires s'.pool == s.pool - {id}
    ensures SparesChannels(s, s', c) <==> !Foreign(s, c, id)
  {
    if Foreign(s, c, id) {
      var d := s.pool[id];
      assert id in Owned(s.pool, d) && id !in Owned(s'.pool, d);
    } else {
      forall d: Conn | d != c ensures Owned(s'.pool, d) == Owned(s.pool, d) {
        assert forall e | e in s.pool && s.pool[e] == d :: e != id;
      }
    }
  }

  ghost predicate NoForeignStream(s: State, c: Conn, id: ChannelId) {
    forall r: StreamId :: !ForeignStream(s, r, c, id)
  }

  // Closing whatever is on one id.
  lemma ClearSparesIff(s: State, s': State, c: Conn, id: ChannelId)
    requires s'.streams == Cleared(s.streams, id) && s'.pool == s.pool && s'.tasks == s.tasks
    requires forall k | k in s.sockets && s.sockets[k].owner != c :: k in s'.sockets && s'.sockets[k] == s.sockets[k]
    ensures SparesOthers(s, s', c) <==> NoForeignStream(s, c, id)
  {
    if r: StreamId :| ForeignStream(s, r, c, id) {
      assert r in s.streams && s'.streams[r] == Removed && s'.streams[r] != s.streams[r];
    } else {
      forall r | r in s.streams && s.streams[r].Placed? && s.streams[r].owner != c
        ensures r in s'.streams && s'.streams[r] == s.streams[r] {
        assert !ForeignStream(s, r, c, id);
      }
      assert forall d: Conn :: Owned(s'.pool, d) == Owned(s.pool, d);
    }
  }

  lemma TearOneIsOwnIff(s: State, c: Conn)
    requires LoopEnabled(s, c, TearOne)
    ensures SparesOthers(s, ApplyLoop(s, c, TearOne), c) <==> !Foreign(s, c, s.loops[c].channel)
  {
    UnbindSparesIff(s, ApplyLoop(s, c, TearOne), c, s.loops[c].channel);
  }

  lemma CloseStreamsIsOwnIff(s: State, c: Conn, id: ChannelId)
    requires LoopEnabled(s, c, CloseStreams(id))
    ensures SparesOthers(s, ApplyLoop(s, c, CloseStreams(id)), c) <==> NoForeignStream(s, c, id)
  {
    ClearSparesIff(s, ApplyLoop(s, c, CloseStreams(id)), c, id);
  }

  lemma AbortTaskIsOwnIff(s: State, c: Conn)
    requires LoopEnabled(s, c, AbortTask)
    ensures SparesOthers(s, ApplyLoop(s, c, AbortTask), c) <==> !ForeignTask(s, c, s.loops[c].channel)
  {
    var s' := ApplyLoop(s, c, AbortTask);
    assert s'.pool == s.pool && s'.streams == s.streams;
    assert SparesChannels(s, s', c);
    if ForeignTask(s, c, s.loops[c].channel) {
      var k := s.tasks[s.loops[c].channel];
      assert k in s.sockets && s.sockets[k].owner != c && s'.sockets[k] != s.sockets[k];
    }
  }

  ghost predicate NoForeignChannel(s: State, c: Conn) {
    forall id: ChannelId :: !Foreign(s, c, id)
  }

  lemma SweepIsOwnIff(s: State, c: Conn)
    requires LoopEnabled(s, c, Sweep)
    ensures SparesOthers(s, ApplyLoop(s, c, Sweep), c) <==> NoForeignChannel(s, c)
  {
    var s' := ApplyLoop(s, c, Sweep);
    if id: ChannelId :| Foreign(s, c, id) {
      var d := s.pool[id];
      assert id in Owned(s.pool, d) && id !in Owned(s'.pool, d);
    } else {
      forall d: Conn | d != c ensures Owned(s'.pool, d) == Owned(s.pool, d) {
        assert forall e | e in s.pool && s.pool[e] == d :: Foreign(s, c, e);
      }
    }
  }

  // A socket that ends acts by id as well.
  lemma DropIsOwnIff(s: State, k: Socket)
    requires SocketEnabled(s, k, Drop)
    ensures var c := s.sockets[k].owner;
            SparesOthers(s, ApplySocket(s, k, Drop), c) <==> !Foreign(s, c, s.sockets[k].channel)
  {
    UnbindSparesIff(s, ApplySocket(s, k, Drop), s.sockets[k].owner, s.sockets[k].channel);
  }

  lemma UnlistIsOwnIff(s: State, k: Socket)
    requires SocketEnabled(s, k, Unlist)
    ensures var c := s.sockets[k].owner;
            SparesOthers(s, ApplySocket(s, k, Unlist), c) <==> !ForeignTask(s, c, s.sockets[k].channel)
  {
    var c, id, s' := s.sockets[k].owner, s.sockets[k].channel, ApplySocket(s, k, Unlist);
    assert s'.pool == s.pool && s'.streams == s.streams && SparesChannels(s, s', c);
    if ForeignTask(s, c, id) {
      assert id in s.tasks && id !in s'.tasks;
    }
  }

  lemma CloseCarriedIsOwnIff(s: State, k: Socket)
    requires SocketEnabled(s, k, CloseCarried)
    ensures var c := s.sockets[k].owner;
            SparesOthers(s, ApplySocket(s, k, CloseCarried), c) <==> NoForeignStream(s, c, s.sockets[k].channel)
  {
    ClearSparesIff(s, ApplySocket(s, k, CloseCarried), s.sockets[k].owner, s.sockets[k].channel);
  }

  // ---- What a teardown collects --------------------------------------------------------

  // A teardown may close an id right after its snapshot if and only if the id is
  // bound under its own connection, and the snapshot touches nothing.
  lemma SnapshotCollectsOwn(s: State, c: Conn, id: ChannelId)
    requires LoopEnabled(s, c, Snapshot)
    ensures var s' := ApplyLoop(s, c, Snapshot);
            && (LoopEnabled(s', c, CloseStreams(id)) <==> id in s.pool && s.pool[id] == c)
            && s' == s.(loops := s'.loops) && forall d | d in s.loops && d != c :: d in s'.loops && s'.loops[d] == s.loops[d]
  {
  }

  // Still to be closed, or being closed, unbound or aborted.
  predicate InHand(l: Loop, id: ChannelId) {
    || ((l.Tearing? || l.Closing? || l.Aborting?) && id in l.todo)
    || ((l.Closing? || l.Aborting?) && id == l.channel)
  }

  predicate TearsDown(s: State, c: Conn) {
    c in s.loops && !s.loops[c].Running? && !s.loops[c].Ended?
  }

  lemma InHandStep(s: State, step: Step, c: Conn, id: ChannelId)
    requires TearsDown(s, c) && Enabled(s, step)
    ensures TearsDown(Apply(s, step), c)
    ensures InHand(Apply(s, step).loops[c], id) ==> InHand(s.loops[c], id)
  {
    match step
    case OnLoop(d, l) => LoopInHand(s, d, l, c, id);
    case OnSocket(k, p) => assert ApplySocket(s, k, p).loops == s.loops;
    case OnStream(_, _) =>
  }

  lemma LoopInHand(s: State, d: Conn, step: LoopStep, c: Conn, id: ChannelId)
    requires TearsDown(s, c) && LoopEnabled(s, d, step)
    ensures TearsDown(ApplyLoop(s, d, step), c)
    ensures InHand(ApplyLoop(s, d, step).loops[c], id) ==> InHand(s.loops[c], id)
  {
  }

  // Over any run, a teardown never gets an id in hand that it did not collect.
  lemma {:induction false} InHandWasCollected(s: State, steps: seq<Step>, c: Conn, id: ChannelId)
    requires TearsDown(s, c) && IsRun(s, steps)
    ensures TearsDown(After(s, steps), c)
    ensures InHand(After(s, steps).loops[c], id) ==> InHand(s.loops[c], id)
    decreases steps
  {
    if steps != [] {
      InHandStep(s, steps[0], c, id);
      InHandWasCollected(Apply(s, steps[0]), steps[1..], c, id);
    }
  }

  // So every id a teardown acts on was bound under its connection at the
  // snapshot.
  lemma InHandWasOwned(s: State, steps: seq<Step>, c: Conn, id: ChannelId)
    requires LoopEnabled(s, c, Snapshot) && IsRun(ApplyLoop(s, c, Snapshot), steps)
    ensures var e := After(ApplyLoop(s, c, Snapshot), steps);
            c in e.loops && (InHand(e.loops[c], id) ==> id in s.pool && s.pool[id] == c)
  {
    InHandWasCollected(ApplyLoop(s, c, Snapshot), steps, c, id);
  }

  predicate Waits(l: Loop, id: ChannelId) {
    (l.Tearing? || l.Closing? || l.Aborting?) && id in l.todo
  }

  lemma LoopWaits(s: State, d: Conn, step: LoopStep, c: Conn, id: ChannelId)
    requires c in s.loops && Waits(s.loops[c], id) && LoopEnabled(s, d, step)
    requires !(d == c && step == CloseStreams(id))
    ensures c in ApplyLoop(s, d, step).loops && Waits(ApplyLoop(s, d, step).loops[c], id)
  {
  }

  lemma {:induction false} WaitsUntilClosed(s: State, steps: seq<Step>, c: Conn, id: ChannelId)
    requires c in s.loops && Waits(s.loops[c], id) && IsRun(s, steps)
    requires OnLoop(c, CloseStreams(id)) !in steps
    ensures c in After(s, steps).loops && Waits(After(s, steps).loops[c], id)
    decreases steps
  {
    if steps != [] {
      assert steps[0] != OnLoop(c, CloseStreams(id));
      match steps[0] {
        case OnLoop(d, l) => LoopWaits(s, d, l, c, id);
        case OnSocket(k, p) => assert ApplySocket(s, k, p).loops == s.loops;
        case OnStream(_, _) =>
      }
      WaitsUntilClosed(Apply(s, steps[0]), steps[1..], c, id);
    }
  }

  // And none is forgotten: over any run, a teardown that looks whether the entry
  // is empty, or is past that, has closed every id bound under its connection at
  // the snapshot.
  lemma TeardownMissesNone(s: State, steps: seq<Step>, c: Conn, id: ChannelId)
    requires LoopEnabled(s, c, Snapshot) && IsRun(ApplyLoop(s, c, Snapshot), steps)
    requires var e := After(ApplyLoop(s, c, Snapshot), steps);
             LoopEnabled(e, c, CheckEmpty) || LoopEnabled(e, c, Sweep) || (c in e.loops && e.loops[c].Finished?)
    requires id in s.pool && s.pool[id] == c
    ensures OnLoop(c, CloseStreams(id)) in steps
  {
    if OnLoop(c, CloseStreams(id)) !in steps {
      WaitsUntilClosed(ApplyLoop(s, c, Snapshot), steps, c, id);
    }
  }

  // From its snapshot on, over any run, a teardown unbinds only its own
  // connection's channel if and only if the id was not rebound under another
  // connection and left bound.
  lemma TearOneIsOwnIffNotRebound(s: State, c: Conn, steps: seq<Step>)
    requires LoopEnabled(s, c, Snapshot) && IsRun(ApplyLoop(s, c, Snapshot), steps)
    requires LoopEnabled(After(ApplyLoop(s, c, Snapshot), steps), c, TearOne)
    ensures var e := After(ApplyLoop(s, c, Snapshot), steps);
            SparesOthers(e, ApplyLoop(e, c, TearOne), c) <==>
            !Rebound(ApplyLoop(s, c, Snapshot), steps, c, e.loops[c].channel)
  {
    var e := After(ApplyLoop(s, c, Snapshot), steps);
    InHandWasOwned(s, steps, c, e.loops[c].channel);
    ForeignIff(ApplyLoop(s, c, Snapshot), steps, c, e.loops[c].channel);
    TearOneIsOwnIff(e, c);
  }

  // Another connection's stream is on the id after the run: there from the
  // start, or registered during it, and not removed since.
  ghost predicate LeftOn(s: State, steps: seq<Step>, r: StreamId, c: Conn, id: ChannelId)
    requires IsRun(s, steps)
  {
    PlacedSince(s, steps, r, c, id) || (ForeignStream(s, r, c, id) && NeverEnds(s, steps, r, id))
  }

  ghost predicate NoneLeft(s: State, steps: seq<Step>, c: Conn, id: ChannelId)
    requires IsRun(s, steps)
  {
    forall r: StreamId :: !LeftOn(s, steps, r, c, id)
  }

  lemma NoneLeftOn(s: State, steps: seq<Step>, c: Conn, id: ChannelId)
    requires IsRun(s, steps)
    ensures NoForeignStream(After(s, steps), c, id) <==> NoneLeft(s, steps, c, id)
  {
    if r: StreamId :| ForeignStream(After(s, steps), r, c, id) {
      ForeignStreamIff(s, steps, r, c, id);
      assert LeftOn(s, steps, r, c, id);
    }
    if r: StreamId :| LeftOn(s, steps, r, c, id) {
      ForeignStreamIff(s, steps, r, c, id);
      assert ForeignStream(After(s, steps), r, c, id);
    }
  }

  // And it closes only its own connection's streams if and only if none of
  // another connection is left on the id by then.
  lemma CloseStreamsIsOwnIffNoneLeft(s: State, c: Conn, steps: seq<Step>, id: ChannelId)
    requires LoopEnabled(s, c, Snapshot) && IsRun(ApplyLoop(s, c, Snapshot), steps)
    requires LoopEnabled(After(ApplyLoop(s, c, Snapshot), steps), c, CloseStreams(id))
    ensures var e := After(ApplyLoop(s, c, Snapshot), steps);
            SparesOthers(e, ApplyLoop(e, c, CloseStreams(id)), c) <==>
            NoneLeft(ApplyLoop(s, c, Snapshot), steps, c, id)
  {
    NoneLeftOn(ApplyLoop(s, c, Snapshot), steps, c, id);
    CloseStreamsIsOwnIff(After(ApplyLoop(s, c, Snapshot), steps), c, id);
  }

  // The abort that follows spares every other connection if and only if none of
  // another connection's readers is listed under the id by then.
  lemma AbortTaskIsOwnIffNoneListed(s: State, c: Conn, steps: seq<Step>, id: ChannelId)
    requires TasksOk(s) && LoopEnabled(s, c, Snapshot) && IsRun(ApplyLoop(s, c, Snapshot), steps)
    requires var e := After(ApplyLoop(s, c, Snapshot), steps);
             LoopEnabled(e, c, AbortTask) && e.loops[c].channel == id
    ensures var s1 := ApplyLoop(s, c, Snapshot);
            SparesOthers(After(s1, steps), ApplyLoop(After(s1, steps), c, AbortTask), c) <==>
            !(EnlistedSince(s1, steps, c, id) || (ForeignTask(s1, c, id) && NeverEndsTask(s1, steps, id)))
  {
    ForeignTaskIff(ApplyLoop(s, c, Snapshot), steps, c, id);
    AbortTaskIsOwnIff(After(ApplyLoop(s, c, Snapshot), steps), c);
  }

  // No id is rebound under another connection and left bound.
  ghost predicate NoneRebound(s: State, steps: seq<Step>, c: Conn)
    requires IsRun(s, steps)
  {
    forall id: ChannelId :: ReboundIf(s, steps, c, id, false)
  }

  ghost predicate ReboundIf(s: State, steps: seq<Step>, c: Conn, id: ChannelId, expected: bool)
    requires IsRun(s, steps)
  {
    Rebound(s, steps, c, id) == expected
  }

  // From its look at the empty entry on, over any run, the removal of that entry
  // takes nobody's channel if and only if no id was rebound under another
  // connection and left bound.
  lemma SweepIsOwnIffNoneRebound(s: State, c: Conn, steps: seq<Step>)
    requires LoopEnabled(s, c, CheckEmpty) && s.listed && s.pool == map[]
    requires IsRun(ApplyLoop(s, c, CheckEmpty), steps)
    requires LoopEnabled(After(ApplyLoop(s, c, CheckEmpty), steps), c, Sweep)
    ensures var e := After(ApplyLoop(s, c, CheckEmpty), steps);
            SparesOthers(e, ApplyLoop(e, c, Sweep), c) <==> NoneRebound(ApplyLoop(s, c, CheckEmpty), steps, c)
  {
    var s1 := ApplyLoop(s, c, CheckEmpty);
    var e := After(s1, steps);
    SweepIsOwnIff(e, c);
    if id: ChannelId :| Foreign(e, c, id) {
      ForeignIff(s1, steps, c, id);
      assert !ReboundIf(s1, steps, c, id, false);
    }
    if id: ChannelId :| !ReboundIf(s1, steps, c, id, false) {
      ForeignIff(s1, steps, c, id);
      assert Foreign(e, c, id);
    }
  }

  // From its bind on, over any run, a socket that drops unbinds only its own
  // connection's channel if and only if the id was not rebound under another
  // connection and left bound.
  lemma DropIsOwnIffNotRebound(s: State, k: Socket, id: ChannelId, steps: seq<Step>)
    requires SocketEnabled(s, k, Bind(id)) && IsRun(ApplySocket(s, k, Bind(id)), steps)
    requires var e := After(ApplySocket(s, k, Bind(id)), steps);
             SocketEnabled(e, k, Drop) && e.sockets[k].channel == id && e.sockets[k].owner == s.sockets[k].owner
    ensures var e := After(ApplySocket(s, k, Bind(id)), steps);
            SparesOthers(e, ApplySocket(e, k, Drop), s.sockets[k].owner) <==>
            !Rebound(ApplySocket(s, k, Bind(id)), steps, s.sockets[k].owner, id)
  {
    ForeignIff(ApplySocket(s, k, Bind(id)), steps, s.sockets[k].owner, id);
    DropIsOwnIff(After(ApplySocket(s, k, Bind(id)), steps), k);
  }

  // And it closes only its own connection's streams if and only if none of
  // another connection is left on the id by then.
  lemma CloseCarriedIsOwnIffNoneLeft(s: State, k: Socket, id: ChannelId, steps: seq<Step>)
    requires SocketEnabled(s, k, Bind(id)) && IsRun(ApplySocket(s, k, Bind(id)), steps)
    requires var e := After(ApplySocket(s, k, Bind(id)), steps);
             SocketEnabled(e, k, CloseCarried) && e.sockets[k].channel == id && e.sockets[k].owner == s.sockets[k].owner
    ensures var e := After(ApplySocket(s, k, Bind(id)), steps);
            SparesOthers(e, ApplySocket(e, k, CloseCarried), s.sockets[k].owner) <==>
            NoneLeft(ApplySocket(s, k, Bind(id)), steps, s.sockets[k].owner, id)
  {
    NoneLeftOn(ApplySocket(s, k, Bind(id)), steps, s.sockets[k].owner, id);
    CloseCarriedIsOwnIff(After(ApplySocket(s, k, Bind(id)), steps), k);
  }

  // A clean-up step of one connection acts on what is another's by then.
  ghost predicate LoopStrikes(s: State, c: Conn, step: LoopStep)
    requires LoopEnabled(s, c, step)
  {
    match step
    case CloseStreams(id) => !NoForeignStream(s, c, id)
    case TearOne => Foreign(s, c, s.loops[c].channel)
    case AbortTask => ForeignTask(s, c, s.loops[c].channel)
    case Sweep => !NoForeignChannel(s, c)
    case _ => false
  }

  ghost predicate SocketStrikes(s: State, k: Socket, step: SocketStep)
    requires SocketEnabled(s, k, step)
  {
    match step
    case CloseCarried => !NoForeignStream(s, s.sockets[k].owner, s.sockets[k].channel)
    case Drop => Foreign(s, s.sockets[k].owner, s.sockets[k].channel)
    case Unlist => ForeignTask(s, s.sockets[k].owner, s.sockets[k].channel)
    case _ => false
  }

  predicate Teardown(step: LoopStep) {
    step.CloseStreams? || step.TearOne? || step.AbortTask? || step.CheckEmpty? || step.Sweep?
  }

  predicate SocketEnd(step: SocketStep) {
    step.CloseCarried? || step.Drop? || step.Unlist?
  }

  lemma LoopSparesIff(s: State, c: Conn, step: LoopStep)
    requires LoopEnabled(s, c, step) && Teardown(step)
    ensures SparesOthers(s, ApplyLoop(s, c, step), c) <==> !LoopStrikes(s, c, step)
  {
    match step
    case CloseStreams(id) => CloseStreamsIsOwnIff(s, c, id);
    case TearOne => TearOneIsOwnIff(s, c);
    case AbortTask => AbortTaskIsOwnIff(s, c);
    case Sweep => SweepIsOwnIff(s, c);
    case CheckEmpty => assert SparesChannels(s, ApplyLoop(s, c, step), c);
  }

  lemma SocketSparesIff(s: State, k: Socket, step: SocketStep)
    requires SocketEnabled(s, k, step) && SocketEnd(step)
    ensures SparesOthers(s, ApplySocket(s, k, step), s.sockets[k].owner) <==> !SocketStrikes(s, k, step)
  {
    match step
    case CloseCarried => CloseCarriedIsOwnIff(s, k);
    case Drop => DropIsOwnIff(s, k);
    case Unlist => UnlistIsOwnIff(s, k);
  }

  // A step of the connection's own teardown, or of one of its sockets' ends.
  predicate CleansUp(s: State, step: Step, c: Conn) {
    || (step.OnLoop? && step.conn == c && Teardown(step.loop))
    || (step.OnSocket? && SocketEnd(step.sock) && step.socket in s.sockets && s.sockets[step.socket].owner == c)
  }

  ghost predicate Strikes(s: State, step: Step, c: Conn)
    requires Enabled(s, step)
  {
    CleansUp(s, step, c) &&
    if step.OnLoop? then LoopStrikes(s, c, step.loop) else SocketStrikes(s, step.socket, step.sock)
  }

  lemma CleanupSparesIff(s: State, step: Step, c: Conn)
    requires Enabled(s, step) && CleansUp(s, step, c)
    ensures SparesOthers(s, Apply(s, step), c) <==> !Strikes(s, step, c)
  {
    if step.OnLoop? {
      LoopSparesIff(s, c, step.loop);
    } else {
      SocketSparesIff(s, step.socket, step.sock);
    }
  }

  ghost predicate NeverStrikes(s: State, steps: seq<Step>, c: Conn)
    requires IsRun(s, steps)
    decreases steps
  {
    steps != [] ==> !Strikes(s, steps[0], c) && NeverStrikes(Apply(s, steps[0]), steps[1..], c)
  }

  ghost predicate CleanupSpares(s: State, steps: seq<Step>, c: Conn)
    requires IsRun(s, steps)
    decreases steps
  {
    steps != [] ==>
      && (CleansUp(s, steps[0], c) ==> SparesOthers(s, Apply(s, steps[0]), c))
      && CleanupSpares(Apply(s, steps[0]), steps[1..], c)
  }

  // Over any run, the whole clean-up of a connection harms no other if and only
  // if none of its steps strikes.
  lemma {:induction false} CleanupHarmlessIff(s: State, steps: seq<Step>, c: Conn)
    requires IsRun(s, steps)
    ensures CleanupSpares(s, steps, c) <==> NeverStrikes(s, steps, c)
    decreases steps
  {
    if steps != [] {
      CleanupHarmlessIff(Apply(s, steps[0]), steps[1..], c);
      if CleansUp(s, steps[0], c) {
        CleanupSparesIff(s, steps[0], c);
      }
    }
  }

  // The id can mean another connection's channel by then: its first socket
  // drops after the snapshot, the device's new connection binds id 1 again and a
  // stream is placed on it. The old teardown closes that stream.
  lemma ForeignTearReachable()
    ensures exists s :: Reachable(s) && LoopEnabled(s, 1, CloseStreams(1)) && s.session == Some(2)
                        && Foreign(s, 1, 1) && ForeignStream(s, 30, 1, 1)
  {
    var s := ReboundUnderTwo();
    ReachableExtends(s, OnStream(30, Choose(1)));
    s := ApplyTraffic(s, 30, Choose(1));
    ReachableExtends(s, OnStream(30, Place));
    s := ApplyTraffic(s, 30, Place);
    assert LoopEnabled(s, 1, CloseStreams(1));
  }

  lemma FirstSocketDropped() returns (s: State)
    ensures Reachable(s) && s.session == Some(2) && 1 in s.loops && s.loops[1] == Tearing({1})
    ensures s.pool == map[] && s.sockets == map[10 := Dropped(1, 1)] && s.streams == map[]
  {
    s := SnapshotTaken();
    ReachableExtends(s, OnLoop(2, Register));
    s := ApplyLoop(s, 2, Register);
    ReachableExtends(s, OnSocket(10, CloseCarried));
    s := ApplySocket(s, 10, CloseCarried);
    assert s.sockets == map[10 := Draining(1, 1)] && s.streams == map[];
    ReachableExtends(s, OnSocket(10, Drop));
    s := ApplySocket(s, 10, Drop);
    assert s.pool == map[];
  }

  lemma ReboundUnderTwo() returns (s: State)
    ensures Reachable(s) && s.session == Some(2) && 1 in s.loops && s.loops[1] == Tearing({1})
    ensures s.pool == map[1 := 2] && s.streams == map[]
  {
    s := FirstSocketDropped();
    s := BindAgain(s);
  }

  // Connection 2's socket 11 binds id 1.
  lemma BindAgain(s: State) returns (s': State)
    requires Reachable(s) && s.session == Some(2) && s.pool == map[] && 11 !in s.sockets
    ensures Reachable(s') && s'.pool == map[1 := 2] && s'.sockets == s.sockets[11 := Bound(1, 2)]
    ensures s'.session == s.session && s'.loops == s.loops && s'.streams == s.streams && s'.tasks == s.tasks && s'.listed
  {
    ReachableExtends(s, OnSocket(11, Capture));
    s' := ApplySocket(s, 11, Capture);
    assert s'.sockets[11] == Captured(2);
    ReachableExtends(s', OnSocket(11, Bind(1)));
    s' := ApplySocket(s', 11, Bind(1));
    assert s'.sockets == s.sockets[11 := Bound(1, 2)];
  }

  lemma OneBound() returns (s: State)
    ensures Reachable(s) && s == State(Some(1), map[1 := 1], true, map[], map[1 := Running], map[10 := Bound(1, 1)], map[])
  {
    s := Start;
    assert IsRun(s, []) && After(s, []) == s;
    ReachableExtends(s, OnLoop(1, Register));
    s := ApplyLoop(s, 1, Register);
    ReachableExtends(s, OnSocket(10, Capture));
    s := ApplySocket(s, 10, Capture);
    ReachableExtends(s, OnSocket(10, Bind(1)));
    s := ApplySocket(s, 10, Bind(1));
    assert s.sockets == map[10 := Bound(1, 1)];
  }

  lemma SnapshotTaken() returns (s: State)
    ensures Reachable(s) && s == State(None, map[1 := 1], true, map[], map[1 := Tearing({1})], map[10 := Bound(1, 1)], map[])
  {
    s := OneBound();
    ReachableExtends(s, OnLoop(1, EndSession));
    s := ApplyLoop(s, 1, EndSession);
    assert s.loops == map[1 := Ended] && Owned(s.pool, 1) == {1};
    ReachableExtends(s, OnLoop(1, Snapshot));
    s := ApplyLoop(s, 1, Snapshot);
    assert s.loops == map[1 := Tearing({1})];
  }

  // Connection 1's channel is unbound and its reader still runs.
  lemma OneUnbound() returns (s: State)
    ensures Reachable(s)
    ensures s == State(None, map[], true, map[], map[1 := Aborting({}, 1)], map[10 := Bound(1, 1)], map[])
  {
    s := SnapshotTaken();
    ReachableExtends(s, OnLoop(1, CloseStreams(1)));
    s := ApplyLoop(s, 1, CloseStreams(1));
    assert {1} - {1} == {} && s.loops == map[1 := Closing({}, 1)] && s.streams == map[];
    ReachableExtends(s, OnLoop(1, TearOne));
    s := ApplyLoop(s, 1, TearOne);
    assert s.loops == map[1 := Aborting({}, 1)] && s.pool == map[];
  }

  lemma TwoRegistered(s: State) returns (s': State)
    requires Reachable(s) && 2 !in s.loops
    ensures Reachable(s') && s'.session == Some(2) && s'.loops == s.loops[2 := Running]
    ensures s'.pool == s.pool && s'.sockets == s.sockets && s'.streams == s.streams && s'.tasks == s.tasks
    ensures s'.listed == s.listed
  {
    ReachableExtends(s, OnLoop(2, Register));
    s' := ApplyLoop(s, 2, Register);
  }

  // The id is bound again before the old teardown aborts the reader listed
  // under it, and the new reader is listed by then.
  lemma ForeignAbortReachable()
    ensures exists s :: Reachable(s) && LoopEnabled(s, 1, AbortTask) && s.session == Some(2) && ForeignTask(s, 1, 1)
  {
    var s := OneUnbound();
    s := TwoRegistered(s);
    s := BindAgain(s);
    ReachableExtends(s, OnSocket(11, Enlist));
    s := ApplySocket(s, 11, Enlist);
    assert s.tasks == map[1 := 11] && s.loops[1] == Aborting({}, 1);
    assert ForeignTask(s, 1, 1);
  }

  // Or the old socket itself ends after that and unbinds the new channel.
  lemma ForeignDropReachable()
    ensures exists s :: Reachable(s) && SocketEnabled(s, 10, Drop) && s.session == Some(2)
                        && s.sockets[10].owner == 1 && Foreign(s, 1, s.sockets[10].channel)
  {
    var s := OneUnbound();
    ReachableExtends(s, OnSocket(10, CloseCarried));
    s := ApplySocket(s, 10, CloseCarried);
    assert s.sockets == map[10 := Draining(1, 1)];
    s := TwoRegistered(s);
    s := BindAgain(s);
    assert s.sockets[10] == Draining(1, 1) && Foreign(s, 1, 1);
  }

  // And with every id its own, the last two regions can still take a channel
  // bound between them: the entry is empty when it is looked at.
  lemma ForeignSweepReachable()
    ensures exists s :: Reachable(s) && LoopEnabled(s, 1, Sweep) && s.session == Some(2) && s.pool == map[1 := 2]
                        && ApplyLoop(s, 1, Sweep).pool == map[]
  {
    var s := SeenEmpty();
    s := TwoRegistered(s);
    s := BindAgain(s);
    assert s.loops[1] == Sweeping;
  }

  lemma SeenEmpty() returns (s: State)
    ensures Reachable(s) && s == State(None, map[], true, map[], map[1 := Sweeping], map[10 := Bound(1, 1)], map[])
  {
    s := OneUnbound();
    ReachableExtends(s, OnLoop(1, AbortTask));
    s := ApplyLoop(s, 1, AbortTask);
    assert s.loops == map[1 := Tearing({})];
    ReachableExtends(s, OnLoop(1, CheckEmpty));
    s := ApplyLoop(s, 1, CheckEmpty);
    assert s.loops == map[1 := Sweeping];
  }

  // ---- Undisturbed lives ----------------------------------------------------------------

  // What ending these channels does to the device's state, apart from the loops:
  // they are unbound, everything on them is removed, their listed readers are
  // ended or gone from the list, and all else stays.
  ghost predicate Cleaned(s: State, e: State, ids: set<ChannelId>) {
    && e.session == s.session && e.pool == s.pool - ids && e.tasks == s.tasks - ids
    && e.streams.Keys == s.streams.Keys && e.sockets.Keys == s.sockets.Keys
    && (forall r | r in s.streams :: e.streams[r] ==
          if s.streams[r].Placed? && s.streams[r].channel in ids then Removed else s.streams[r])
    && (forall k | k in s.sockets :: e.sockets[k] == if ListedUnder(s, k, ids) then Halted(s.sockets[k]) else s.sockets[k])
  }

  predicate ListedUnder(s: State, k: Socket, ids: set<ChannelId>)
    requires k in s.sockets
  {
    && !s.sockets[k].Captured?
    && var id := s.sockets[k].channel; id in ids && id in s.tasks && s.tasks[id] == k
  }

  lemma CleanedTwice(s: State, e: State, f: State, a: set<ChannelId>, b: set<ChannelId>)
    requires Cleaned(s, e, a) && Cleaned(e, f, b)
    ensures Cleaned(s, f, a + b)
  {
    assert s.pool - a - b == s.pool - (a + b);
    assert s.tasks - a - b == s.tasks - (a + b);
  }

  lemma OneCleaned(s: State, c: Conn, id: ChannelId)
    requires TasksOk(s) && LoopEnabled(s, c, CloseStreams(id))
    ensures var s1 := ApplyLoop(s, c, CloseStreams(id));
            && LoopEnabled(s1, c, TearOne)
            && var s2 := ApplyLoop(s1, c, TearOne);
               && LoopEnabled(s2, c, AbortTask)
               && var s3 := ApplyLoop(s2, c, AbortTask);
                  && Cleaned(s, s3, {id}) && s3.listed == s.listed
                  && s3.loops == s.loops[c := Tearing(s.loops[c].todo - {id})]
  {
    var s3 := ApplyLoop(ApplyLoop(ApplyLoop(s, c, CloseStreams(id)), c, TearOne), c, AbortTask);
    assert s3.tasks == s.tasks - {id};
  }

  lemma RunPrepends(s: State, step: Step, steps: seq<Step>)
    requires Enabled(s, step) && IsRun(Apply(s, step), steps)
    ensures IsRun(s, [step] + steps) && After(s, [step] + steps) == After(Apply(s, step), steps)
  {
    assert ([step] + steps)[1..] == steps;
  }

  lemma {:induction false} AllCleaned(s: State, c: Conn, todo: set<ChannelId>) returns (steps: seq<Step>)
    requires TasksOk(s) && c in s.loops && s.loops[c] == Tearing(todo)
    ensures IsRun(s, steps)
    ensures var e := After(s, steps);
            Cleaned(s, e, todo) && e.listed == s.listed && e.loops == s.loops[c := Tearing({})]
    decreases |todo|
  {
    if todo == {} {
      steps := [];
      assert s.pool - {} == s.pool && s.tasks - {} == s.tasks;
    } else {
      var id :| id in todo;
      var s3 := CleanOne(s, c, id);
      var rest := AllCleaned(s3, c, todo - {id});
      CleanedTwice(s, s3, After(s3, rest), {id}, todo - {id});
      assert {id} + (todo - {id}) == todo;
      steps := OneThenRest(s, c, id, s3, rest);
    }
  }

  lemma CleanOne(s: State, c: Conn, id: ChannelId) returns (e: State)
    requires TasksOk(s) && LoopEnabled(s, c, CloseStreams(id))
    ensures IsRun(s, [OnLoop(c, CloseStreams(id)), OnLoop(c, TearOne), OnLoop(c, AbortTask)])
    ensures e == After(s, [OnLoop(c, CloseStreams(id)), OnLoop(c, TearOne), OnLoop(c, AbortTask)])
    ensures TasksOk(e) && Cleaned(s, e, {id}) && e.listed == s.listed
    ensures e.loops == s.loops[c := Tearing(s.loops[c].todo - {id})]
  {
    OneCleaned(s, c, id);
    var s1 := ApplyLoop(s, c, CloseStreams(id));
    var s2 := ApplyLoop(s1, c, TearOne);
    e := ApplyLoop(s2, c, AbortTask);
    LoopTasks(s, c, CloseStreams(id));
    LoopTasks(s1, c, TearOne);
    LoopTasks(s2, c, AbortTask);
    assert After(e, []) == e;
    RunPrepends(s2, OnLoop(c, AbortTask), []);
    RunPrepends(s1, OnLoop(c, TearOne), [OnLoop(c, AbortTask)]);
    RunPrepends(s, OnLoop(c, CloseStreams(id)), [OnLoop(c, TearOne), OnLoop(c, AbortTask)]);
    assert [OnLoop(c, AbortTask)] + [] == [OnLoop(c, AbortTask)];
    assert [OnLoop(c, TearOne)] + [OnLoop(c, AbortTask)] == [OnLoop(c, TearOne), OnLoop(c, AbortTask)];
    assert [OnLoop(c, CloseStreams(id))] + [OnLoop(c, TearOne), OnLoop(c, AbortTask)]
        == [OnLoop(c, CloseStreams(id)), OnLoop(c, TearOne), OnLoop(c, AbortTask)];
  }

  lemma OneThenRest(s: State, c: Conn, id: ChannelId, e: State, rest: seq<Step>) returns (steps: seq<Step>)
    requires IsRun(s, [OnLoop(c, CloseStreams(id)), OnLoop(c, TearOne), OnLoop(c, AbortTask)])
    requires e == After(s, [OnLoop(c, CloseStreams(id)), OnLoop(c, TearOne), OnLoop(c, AbortTask)]) && IsRun(e, rest)
    ensures IsRun(s, steps) && After(s, steps) == After(e, rest)
  {
    steps := [OnLoop(c, CloseStreams(id)), OnLoop(c, TearOne), OnLoop(c, AbortTask)] + rest;
    RunConcat(s, [OnLoop(c, CloseStreams(id)), OnLoop(c, TearOne), OnLoop(c, AbortTask)], rest);
  }

  lemma {:induction false} RunConcat(s: State, a: seq<Step>, b: seq<Step>)
    requires IsRun(s, a) && IsRun(After(s, a), b)
    ensures IsRun(s, a + b) && After(s, a + b) == After(After(s, a), b)
    decreases a
  {
    if a == [] {
      assert a + b == b;
    } else {
      RunConcat(Apply(s, a[0]), a[1..], b);
      assert (a + b)[1..] == a[1..] + b;
    }
  }

  // The last two steps: the device's entry goes if and only if it has one and no
  // channel is left in it.
  lemma SweptIffEmpty(s: State, c: Conn) returns (steps: seq<Step>)
    requires c in s.loops && s.loops[c] == Tearing({})
    ensures IsRun(s, steps)
    ensures var e := After(s, steps);
            && e.loops == s.loops[c := Finished] && e == s.(loops := e.loops, listed := e.listed)
            && (e.listed <==> s.listed && s.pool != map[])
  {
    var s1 := ApplyLoop(s, c, CheckEmpty);
    assert After(s1, []) == s1;
    steps := [];
    if s1.loops[c].Sweeping? {
      var s2 := ApplyLoop(s1, c, Sweep);
      assert After(s2, []) == s2 && s2.loops == s.loops[c := Finished];
      RunPrepends(s1, OnLoop(c, Sweep), []);
      steps := [OnLoop(c, Sweep)] + [];
    }
    RunPrepends(s, OnLoop(c, CheckEmpty), steps);
    steps := [OnLoop(c, CheckEmpty)] + steps;
  }

  // From any state a teardown can run to its end, and run alone it ends exactly
  // the channels bound under its connection and what is on them. `steps` follow
  // the snapshot, `last` those.
  lemma TeardownAchieves(s: State, c: Conn) returns (s1: State, steps: seq<Step>, s2: State, last: seq<Step>, e: State)
    requires TasksOk(s) && LoopEnabled(s, c, Snapshot)
    ensures s1 == ApplyLoop(s, c, Snapshot)
    ensures IsRun(s1, steps) && s2 == After(s1, steps)
    ensures IsRun(s2, last) && e == After(s2, last)
    ensures Cleaned(s, e, set id | id in s.pool && s.pool[id] == c) && e.loops == s.loops[c := Finished]
    ensures e.listed <==> s.listed && exists id :: id in s.pool && s.pool[id] != c
  {
    s1 := ApplyLoop(s, c, Snapshot);
    LoopTasks(s, c, Snapshot);
    steps := AllCleaned(s1, c, Owned(s.pool, c));
    s2 := After(s1, steps);
    last := SweptIffEmpty(s2, c);
    e := After(s2, last);
    TornDown(s, c, s1, s2, e);
  }

  lemma TornDown(s: State, c: Conn, s1: State, s2: State, e: State)
    requires c in s.loops && s1 == s.(loops := s.loops[c := Tearing(Owned(s.pool, c))])
    requires Cleaned(s1, s2, Owned(s.pool, c)) && s2.listed == s1.listed && s2.loops == s1.loops[c := Tearing({})]
    requires e == s2.(loops := s2.loops[c := Finished], listed := e.listed)
    requires e.listed <==> s2.listed && s2.pool != map[]
    ensures Cleaned(s, e, set id | id in s.pool && s.pool[id] == c) && e.loops == s.loops[c := Finished]
    ensures e.listed <==> s.listed && exists id :: id in s.pool && s.pool[id] != c
  {
    var mine := set id | id in s.pool && s.pool[id] == c;
    assert Owned(s.pool, c) == mine;
    NothingCleaned(s, s1);
    NothingCleaned(s2, e);
    CleanedThrice(s, s1, s2, e, mine);
    ForeignLeft(s, s2, c);
  }

  lemma NothingCleaned(s: State, e: State)
    requires e == s.(loops := e.loops, listed := e.listed)
    ensures Cleaned(s, e, {})
  {
    assert s.pool - {} == s.pool && s.tasks - {} == s.tasks;
  }

  lemma CleanedThrice(s: State, s1: State, s2: State, e: State, ids: set<ChannelId>)
    requires Cleaned(s, s1, {}) && Cleaned(s1, s2, ids) && Cleaned(s2, e, {})
    ensures Cleaned(s, e, ids)
  {
    CleanedTwice(s, s1, s2, {}, ids);
    assert {} + ids == ids;
    CleanedTwice(s, s2, e, ids, {});
    assert ids + {} == ids;
  }

  lemma ForeignLeft(s: State, e: State, c: Conn)
    requires e.pool == s.pool - set id | id in s.pool && s.pool[id] == c
    ensures e.pool != map[] <==> exists id :: id in s.pool && s.pool[id] != c
  {
    if id :| id in s.pool && s.pool[id] != c {
      assert id in e.pool;
    } else {
      assert e.pool == map[];
    }
  }

  // A socket that binds does so under the connection current when it looked, on
  // a free id.
  lemma BindAchieves(s: State, k: Socket, id: ChannelId)
    requires k !in s.sockets
    ensures SocketEnabled(s, k, Capture) <==> s.session.Some?
    ensures s.session.Some? ==>
              var s1 := ApplySocket(s, k, Capture);
              && s1 == s.(sockets := s1.sockets)
              && (SocketEnabled(s1, k, Bind(id)) <==> id !in s.pool)
              && (id !in s.pool ==>
                    var s2 := ApplySocket(s1, k, Bind(id));
                    s2.pool == s.pool[id := s.session.value] && s2.listed
                    && s2.sockets == s.sockets[k := Bound(id, s.session.value)] && s2.streams == s.streams)
  {
  }

  // And one that ends takes exactly its channel and what is on it along.
  lemma EndAchieves(s: State, k: Socket)
    requires SocketEnabled(s, k, CloseCarried)
    ensures var id := s.sockets[k].channel;
            var s1 := ApplySocket(s, k, CloseCarried);
            && SocketEnabled(s1, k, Drop)
            && var s2 := ApplySocket(s1, k, Drop);
               && SocketEnabled(s2, k, Unlist)
               && var s3 := ApplySocket(s2, k, Unlist);
                  && s3.pool == s.pool - {id} && s3.tasks == s.tasks - {id} && s3.listed == s.listed
                  && s3.loops == s.loops && s3.sockets == s.sockets[k := Closed(id, s.sockets[k].owner)]
                  && s3.streams.Keys == s.streams.Keys
                  && forall r | r in s.streams :: s3.streams[r] ==
                       if s.streams[r].Placed? && s.streams[r].channel == id then Removed else s.streams[r]
  {
    var s2 := ApplySocket(ApplySocket(s, k, CloseCarried), k, Drop);
    assert s2.sockets == s.sockets[k := Dropped(s.sockets[k].channel, s.sockets[k].owner)];
  }

  // A new stream can go on exactly the channels of the registered connection.
  lemma PlaceAchieves(s: State, r: StreamId, id: ChannelId)
    requires r !in s.streams
    ensures StreamEnabled(s, r, Choose(id)) <==> id in s.pool && s.session == Some(s.pool[id])
    ensures StreamEnabled(s, r, Choose(id)) ==>
              var s1 := ApplyTraffic(s, r, Choose(id));
              && StreamEnabled(s1, r, Place)
              && var s2 := ApplyTraffic(s1, r, Place);
                 && s2 == s.(streams := s.streams[r := Placed(id, s.pool[id])])
                 && StreamEnabled(s2, r, End)
                 && ApplyTraffic(s2, r, End) == s.(streams := s.streams[r := Removed])
  {
    if StreamEnabled(s, r, Choose(id)) {
      var s2 := ApplyTraffic(ApplyTraffic(s, r, Choose(id)), r, Place);
      assert s2.streams == s.streams[r := Placed(id, s.pool[id])];
      assert s2.streams[r := Removed] == s.streams[r := Removed];
    }
  }
}
