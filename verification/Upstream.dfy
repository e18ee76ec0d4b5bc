// Agent to public client: the agent's `SharedQueue` feeds one data socket; the
// server's reader hands each frame to its stream's bounded queue, and one task
// per stream writes that queue to the public client.
module Upstream {
  import opened SharedQueue

  const STREAM_QUEUE_FRAMES: nat := 64

  // The server's side of one stream. `dropped` is what the reader threw away
  // for it; `writing` is false once its write task has ended.
  datatype Receiver = Receiver(
    registered: bool, queue: seq<Bytes>, remainder: Bytes, written: Bytes, writing: bool, dropped: Bytes)

  // The socket reader, between two frames or waiting for space in a queue it
  // has already looked up.
  datatype Router = Free | Routing(id: StreamId, payload: Bytes)

  // The first `taken` messages of the wire have reached the server; once the
  // channel is `cut` no more will.
  datatype State = State(
    sender: Sender, taken: nat, router: Router, receivers: map<StreamId, Receiver>, cut: bool)

  datatype RouterStep = Take | Enqueue | GiveUp | Kill
  datatype ReceiverStep = Accept | Next | Write(n: nat) | StopWriting | Unregister

  datatype Action = OnSender(step: Step) | OnRouter(router: RouterStep) | OnReceiver(id: StreamId, receiver: ReceiverStep) | Cut

  const Begin := State(Start(Agent), 0, Free, map[], false)

  function Fresh(): Receiver {
    Receiver(true, [], [], [], true, [])
  }

  predicate RouterEnabled(u: State, step: RouterStep) {
    match step
    case Take => u.router.Free? && u.taken < |u.sender.wire| && !u.cut
    case Enqueue =>
      && u.router.Routing? && u.router.id in u.receivers
      && var r := u.receivers[u.router.id]; r.writing && |r.queue| < STREAM_QUEUE_FRAMES
    case GiveUp => u.router.Routing? && u.router.id in u.receivers
    case Kill => u.router.Routing? && u.router.id in u.receivers && u.cut
  }

  function ApplyRouter(u: State, step: RouterStep): State
    requires RouterEnabled(u, step)
  {
    match step
    case Take =>
      var u' := u.(taken := u.taken + 1);
      (match u.sender.wire[u.taken]
       case Text => u'
       case Data(id, payload) =>
         if id !in u.receivers then u'
         else if u.receivers[id].registered then u'.(router := Routing(id, payload))
         else u'.(receivers := u.receivers[id := u.receivers[id].(dropped := u.receivers[id].dropped + payload)]))
    case Enqueue =>
      var r := u.receivers[u.router.id];
      u.(router := Free, receivers := u.receivers[u.router.id := r.(queue := r.queue + [u.router.payload])])
    case GiveUp =>
      // Send timeout or closed queue: the entry is removed, the frame lost.
      var r := u.receivers[u.router.id];
      u.(router := Free,
         receivers := u.receivers[u.router.id := r.(registered := false, dropped := r.dropped + u.router.payload)])
    case Kill =>
      // The reader is aborted with the frame in hand; the entry stays.
      var r := u.receivers[u.router.id];
      u.(router := Free, receivers := u.receivers[u.router.id := r.(dropped := r.dropped + u.router.payload)])
  }

  predicate ReceiverEnabled(u: State, id: StreamId, step: ReceiverStep) {
    match step
    case Accept => id !in u.receivers && id !in u.sender.streams
    case Next => id in u.receivers && u.receivers[id].writing && u.receivers[id].remainder == [] && u.receivers[id].queue != []
    case Write(n) => id in u.receivers && u.receivers[id].writing && 0 < n <= |u.receivers[id].remainder|
    case StopWriting => id in u.receivers
    case Unregister => id in u.receivers
  }

  function ReceiverAfter(r: Receiver, step: ReceiverStep): Receiver
    requires step.Next? ==> r.queue != []
    requires step.Write? ==> step.n <= |r.remainder|
  {
    match step
    case Accept => Fresh()
    case Next => r.(remainder := r.queue[0], queue := r.queue[1..])
    case Write(n) => r.(written := r.written + r.remainder[..n], remainder := r.remainder[n..])
    case StopWriting => r.(writing := false)
    case Unregister => r.(registered := false)
  }

  function ApplyReceiver(u: State, id: StreamId, step: ReceiverStep): State
    requires ReceiverEnabled(u, id, step)
  {
    var r := if id in u.receivers then u.receivers[id] else Fresh();
    u.(receivers := u.receivers[id := ReceiverAfter(r, step)])
  }

  // The agent learns of a stream from `StreamOpen`, sent after registration.
  predicate Allowed(u: State, a: Action) {
    match a
    case OnSender(step) =>
      Enabled(u.sender, step) &&
      (step.OnEntry? && step.entry.Open? ==> (step.entry.kind == Tcp <==> step.id in u.receivers))
    case OnRouter(step) => RouterEnabled(u, step)
    case OnReceiver(id, step) => ReceiverEnabled(u, id, step)
    case Cut => true
  }

  function Do(u: State, a: Action): State
    requires Allowed(u, a)
  {
    match a
    case OnSender(step) => u.(sender := Apply(u.sender, step))
    case OnRouter(step) => ApplyRouter(u, step)
    case OnReceiver(id, step) => ApplyReceiver(u, id, step)
    case Cut => u.(cut := true)
  }

  ghost predicate IsTrace(u: State, acts: seq<Action>)
    decreases acts
  {
    acts != [] ==> Allowed(u, acts[0]) && IsTrace(Do(u, acts[0]), acts[1..])
  }

  ghost function End(u: State, acts: seq<Action>): State
    requires IsTrace(u, acts)
    decreases acts
  {
    if acts == [] then u else End(Do(u, acts[0]), acts[1..])
  }

  ghost predicate Occurs(u: State) {
    exists acts :: IsTrace(Begin, acts) && u == End(Begin, acts)
  }

  // ---- Invariant --------------------------------------------------------------

  function Flat(q: seq<Bytes>): Bytes {
    if q == [] then [] else q[0] + Flat(q[1..])
  }

  lemma {:induction false} FlatAppend(q: seq<Bytes>, b: Bytes)
    ensures Flat(q + [b]) == Flat(q) + b
  {
    if q == [] {
      assert Flat([b]) == b + Flat([b][1..]);
    } else {
      FlatAppend(q[1..], b);
      assert (q + [b])[1..] == q[1..] + [b];
    }
  }

  function InRouter(router: Router, id: StreamId): Bytes {
    if router.Routing? && router.id == id then router.payload else []
  }

  // All bytes of the stream that have reached the server, in order.
  function Arrived(r: Receiver, router: Router, id: StreamId): Bytes {
    r.written + r.remainder + Flat(r.queue) + InRouter(router, id) + r.dropped
  }

  ghost predicate ReceiverOk(u: State, id: StreamId)
    requires u.taken <= |u.sender.wire|
  {
    if id !in u.receivers then id !in u.sender.streams || u.sender.streams[id].kind == Udp
    else
      var r := u.receivers[id];
      && (IsTcp(u.sender, id) || id !in u.sender.streams)
      && |r.queue| <= STREAM_QUEUE_FRAMES
      && Arrived(r, u.router, id) == Payloads(u.sender.wire[..u.taken], id)
      && (r.dropped != [] ==> (!r.registered || u.cut) && !(u.router.Routing? && u.router.id == id))
  }

  ghost predicate Ok(u: State) {
    && Inv(u.sender)
    && u.taken <= |u.sender.wire|
    && (u.router.Routing? ==> u.router.id in u.receivers)
    && forall id: StreamId :: ReceiverOk(u, id)
  }

  lemma WireGrows(s: Sender, step: Step)
    requires Enabled(s, step)
    ensures s.wire <= Apply(s, step).wire
  {
  }

  lemma SenderKeeps(u: State, step: Step, id: StreamId)
    requires Allowed(u, OnSender(step)) && u.taken <= |u.sender.wire| && ReceiverOk(u, id)
    ensures u.taken <= |Apply(u.sender, step).wire|
    ensures ReceiverOk(Do(u, OnSender(step)), id)
  {
    WireGrows(u.sender, step);
    assert Apply(u.sender, step).wire[..u.taken] == u.sender.wire[..u.taken];
    KindKept(u.sender, step, id);
  }

  lemma KindKept(s: Sender, step: Step, id: StreamId)
    requires Enabled(s, step)
    ensures id in s.streams ==> id in Apply(s, step).streams && Apply(s, step).streams[id].kind == s.streams[id].kind
    ensures id !in s.streams && id in Apply(s, step).streams ==>
              step.OnEntry? && step.id == id && step.entry.Open? && Apply(s, step).streams[id].kind == step.entry.kind
  {
  }

  lemma TakeKeeps(u: State, id: StreamId)
    requires Inv(u.sender) && RouterEnabled(u, Take) && ReceiverOk(u, id)
    ensures ReceiverOk(ApplyRouter(u, Take), id)
  {
    var m := u.sender.wire[u.taken];
    TakenGrows(u, id);
    if id in u.receivers && IsOf(m, id) {
      TakenArrives(u.receivers[id], m.payload, id);
    }
  }

  lemma TakenGrows(u: State, id: StreamId)
    requires RouterEnabled(u, Take)
    ensures Payloads(u.sender.wire[..u.taken + 1], id) ==
            Payloads(u.sender.wire[..u.taken], id) + BytesOf(u.sender.wire[u.taken], id)
  {
    var m := u.sender.wire[u.taken];
    assert u.sender.wire[..u.taken + 1] == u.sender.wire[..u.taken] + [m];
    Appended(u.sender.wire[..u.taken], m, id);
  }

  // A frame taken off the wire counts as arrived, held by the router or lost.
  lemma TakenArrives(r: Receiver, payload: Bytes, id: StreamId)
    ensures r.dropped == [] ==> Arrived(r, Routing(id, payload), id) == Arrived(r, Free, id) + payload
    ensures Arrived(r.(dropped := r.dropped + payload), Free, id) == Arrived(r, Free, id) + payload
  {
    var got := r.written + r.remainder + Flat(r.queue);
    assert got + [] + (r.dropped + payload) == got + [] + r.dropped + payload;
    assert r.dropped == [] ==> got + payload + [] == got + [] + [] + payload;
  }

  lemma EnqueueKeeps(u: State, id: StreamId)
    requires RouterEnabled(u, Enqueue) && u.taken <= |u.sender.wire| && ReceiverOk(u, id)
    ensures ReceiverOk(ApplyRouter(u, Enqueue), id)
  {
    if id == u.router.id {
      var r := u.receivers[id];
      FlatAppend(r.queue, u.router.payload);
      var front := r.written + r.remainder;
      assert front + (Flat(r.queue) + u.router.payload) + [] == front + Flat(r.queue) + u.router.payload;
    }
  }

  lemma DropKeeps(u: State, step: RouterStep, id: StreamId)
    requires RouterEnabled(u, step) && (step.GiveUp? || step.Kill?)
    requires u.taken <= |u.sender.wire| && ReceiverOk(u, id)
    ensures ReceiverOk(ApplyRouter(u, step), id)
  {
    if id == u.router.id {
      var r := u.receivers[id];
      var got := r.written + r.remainder + Flat(r.queue);
      assert got + [] + (r.dropped + u.router.payload) == got + u.router.payload + r.dropped;
    }
  }

  lemma ReceiverStepKeepsArrived(r: Receiver, step: ReceiverStep, router: Router, id: StreamId)
    requires !step.Accept?
    requires step.Next? ==> r.queue != [] && r.remainder == []
    requires step.Write? ==> step.n <= |r.remainder|
    ensures Arrived(ReceiverAfter(r, step), router, id) == Arrived(r, router, id)
  {
    match step
    case Next =>
      assert r.written + r.queue[0] + Flat(r.queue[1..]) == r.written + [] + (r.queue[0] + Flat(r.queue[1..]));
    case Write(n) =>
      assert r.written + r.remainder[..n] + r.remainder[n..] == r.written + r.remainder;
    case _ =>
  }

  lemma AcceptKeeps(u: State, id: StreamId)
    requires Inv(u.sender) && u.taken <= |u.sender.wire| && ReceiverEnabled(u, id, Accept)
    requires u.router.Routing? ==> u.router.id in u.receivers
    ensures ReceiverOk(ApplyReceiver(u, id, Accept), id)
  {
    assert IdOk(u.sender, id);
    PayloadsSplit(u.sender.wire, u.taken, id);
  }

  lemma PayloadsSplit(wire: seq<Message>, n: nat, id: StreamId)
    requires n <= |wire|
    ensures Payloads(wire, id) == Payloads(wire[..n], id) + Payloads(wire[n..], id)
    ensures Payloads(wire, id) == [] ==> Payloads(wire[..n], id) == []
  {
    assert wire == wire[..n] + wire[n..];
    PayloadsConcat(wire[..n], wire[n..], id);
  }

  lemma ReceiverKeeps(u: State, r: StreamId, step: ReceiverStep, id: StreamId)
    requires Inv(u.sender) && u.taken <= |u.sender.wire| && ReceiverEnabled(u, r, step) && ReceiverOk(u, id)
    requires u.router.Routing? ==> u.router.id in u.receivers
    ensures ReceiverOk(ApplyReceiver(u, r, step), id)
  {
    if r == id {
      if step.Accept? {
        AcceptKeeps(u, id);
      } else {
        ReceiverStepKeepsArrived(u.receivers[id], step, u.router, id);
      }
    }
  }

  lemma DoKeeps(u: State, a: Action)
    requires Ok(u) && Allowed(u, a)
    ensures Ok(Do(u, a))
  {
    match a
    case OnSender(step) =>
      StepKeepsInv(u.sender, step);
      forall id: StreamId ensures ReceiverOk(Do(u, a), id) && u.taken <= |Apply(u.sender, step).wire| {
        assert ReceiverOk(u, id);
        SenderKeeps(u, step, id);
      }
    case OnRouter(step) =>
      forall id: StreamId ensures ReceiverOk(Do(u, a), id) {
        assert ReceiverOk(u, id);
        match step
        case Take => TakeKeeps(u, id);
        case Enqueue => EnqueueKeeps(u, id);
        case GiveUp => DropKeeps(u, step, id);
        case Kill => DropKeeps(u, step, id);
      }
    case OnReceiver(r, step) =>
      forall id: StreamId ensures ReceiverOk(Do(u, a), id) {
        assert ReceiverOk(u, id);
        ReceiverKeeps(u, r, step, id);
      }
    case Cut =>
      forall id: StreamId ensures ReceiverOk(Do(u, a), id) {
        assert ReceiverOk(u, id);
      }
  }

  lemma {:induction false} TraceKeeps(u: State, acts: seq<Action>)
    requires Ok(u) && IsTrace(u, acts)
    ensures Ok(End(u, acts))
    decreases acts
  {
    if acts != [] {
      DoKeeps(u, acts[0]);
      TraceKeeps(Do(u, acts[0]), acts[1..]);
    }
  }

  lemma OccursOk(u: State)
    requires Occurs(u)
    ensures Ok(u)
  {
    var acts :| IsTrace(Begin, acts) && u == End(Begin, acts);
    TraceKeeps(Begin, acts);
  }

  // ---- Writing one frame to the public client ---------------------------------------

  // What one turn of the write loop meets: a socket with room for some bytes, a
  // write error, or the periodic look at the stream's registration.
  datatype Attempt = Writable(room: nat) | Failing | Tick(registered: bool)

  datatype WriteEnd = Complete | GivenUp | Unfinished

  // The room the socket offers over these attempts.
  function Space(attempts: seq<Attempt>): nat {
    if attempts == [] then 0
    else
      var last := attempts[|attempts| - 1];
      Space(attempts[..|attempts| - 1]) + if last.Writable? then last.room else 0
  }

  // A socket that is writable with room, and a look that finds the stream.
  predicate GoesOn(a: Attempt) {
    a == Tick(true) || (a.Writable? && a.room > 0)
  }

  // The i-th attempt is the first that does not go on.
  ghost predicate StopsFirst(attempts: seq<Attempt>, i: nat) {
    i < |attempts| && !GoesOn(attempts[i]) && forall j | 0 <= j < i :: GoesOn(attempts[j])
  }

  // The loop keeps its position across cancelled attempts, so exactly the first
  // `pos` bytes have been handed over, each once. It gives up at the first write
  // of nothing, the first error or the first look that misses the stream, unless
  // all bytes have gone before. `attempts` is what its turns meet for as long as
  // it is watched.
  method WritePublic(data: Bytes, attempts: seq<Attempt>) returns (pos: nat, end: WriteEnd, given: Bytes)
    ensures pos <= |data| && given == data[..pos]
    ensures end == Complete <==> pos == |data|
    ensures end == Unfinished ==> pos == Space(attempts) && forall i | 0 <= i < |attempts| :: GoesOn(attempts[i])
    ensures end == GivenUp ==> exists i: nat :: StopsFirst(attempts, i) && pos == Space(attempts[..i])
    ensures end == GivenUp <==>
              exists i :: 0 <= i < |attempts|
                && (attempts[i] == Writable(0) || attempts[i] == Failing || attempts[i] == Tick(false))
                && (forall j | 0 <= j < i :: attempts[j] == Tick(true) || (attempts[j].Writable? && attempts[j].room > 0))
                && Space(attempts[..i]) < |data|
    ensures data != [] && attempts != [] && attempts[0] == Tick(false) ==> pos == 0 && end == GivenUp
  {
    pos, given := 0, [];
    var turn := 0;
    while pos < |data| && turn < |attempts|
      invariant 0 <= turn <= |attempts| && pos <= |data| && given == data[..pos]
      invariant forall i | 0 <= i < turn :: GoesOn(attempts[i])
      invariant if pos < |data| then pos == Space(attempts[..turn]) else Space(attempts[..turn]) >= |data|
      decreases |attempts| - turn
    {
      assert attempts[..turn + 1][..turn] == attempts[..turn];
      match attempts[turn] {
        case Writable(room) =>
          if room == 0 {
            assert StopsFirst(attempts, turn);
            return pos, GivenUp, given;
          }
          var n := if room < |data| - pos then room else |data| - pos;
          given := given + data[pos..pos + n];
          pos := pos + n;
        case Failing =>
          assert StopsFirst(attempts, turn);
          return pos, GivenUp, given;
        case Tick(registered) =>
          if !registered {
            assert StopsFirst(attempts, turn);
            return pos, GivenUp, given;
          }
      }
      turn := turn + 1;
    }
    if pos < |data| {
      assert attempts[..turn] == attempts;
      end := Unfinished;
    } else {
      end := Complete;
      forall i | 0 <= i < |attempts| && !GoesOn(attempts[i]) ensures Space(attempts[..i]) >= |data| {
        SpaceGrows(attempts, turn, i);
      }
    }
  }

  lemma {:induction false} SpaceGrows(attempts: seq<Attempt>, i: nat, j: nat)
    requires i <= j <= |attempts|
    ensures Space(attempts[..i]) <= Space(attempts[..j])
    decreases j
  {
    if i < j {
      SpaceGrows(attempts, i, j - 1);
      assert attempts[..j][..j - 1] == attempts[..j - 1];
    }
  }

  // ---- Conservation and order -----------------------------------------------------

  // Frames of the stream between its bridge and the server's reader.
  function Transit(u: State, id: StreamId): Bytes
    requires u.taken <= |u.sender.wire|
  {
    Payloads(u.sender.wire[u.taken..], id) + AtWriter(u.sender, id) + Payloads(u.sender.queue, id)
  }

  // Bytes of the stream between the server's reader and the local service.
  function Outside(u: State, id: StreamId): Bytes
    requires u.taken <= |u.sender.wire| && id in u.sender.streams
  {
    Transit(u, id) + u.sender.streams[id].bridge.Pending()
  }

  lemma NothingIsInvented(u: State, id: StreamId)
    requires Ok(u) && id in u.receivers && id in u.sender.streams
    ensures Arrived(u.receivers[id], u.router, id) + Outside(u, id) == u.sender.streams[id].read
  {
    var s := u.sender;
    assert ReceiverOk(u, id) && IdOk(s, id);
    var near, far := Payloads(s.wire[..u.taken], id), Payloads(s.wire[u.taken..], id);
    PayloadsSplit(s.wire, u.taken, id);
    Regrouped(near, far, AtWriter(s, id), Payloads(s.queue, id), s.streams[id].bridge.Pending());
  }

  lemma Regrouped(a: Bytes, b: Bytes, c: Bytes, d: Bytes, e: Bytes)
    ensures a + (b + c + d + e) == (a + b) + c + d + e
  {
  }

  // While the server still has the stream, not one byte is lost, repeated or
  // out of place, however the streams sharing the channel interleave; only a
  // channel cut with a frame in its reader's hands leaves a gap.
  lemma Conservation(u: State, id: StreamId)
    requires Occurs(u) && id in u.receivers && u.receivers[id].registered && id in u.sender.streams
    ensures u.taken <= |u.sender.wire| && (u.receivers[id].dropped != [] ==> u.cut)
    ensures var r := u.receivers[id];
            r.dropped == [] ==>
              r.written + r.remainder + Flat(r.queue) + InRouter(u.router, id) + Outside(u, id)
              == u.sender.streams[id].read
  {
    OccursOk(u);
    assert ReceiverOk(u, id);
    NothingIsInvented(u, id);
    var r := u.receivers[id];
    if r.dropped == [] {
      assert r.written + r.remainder + Flat(r.queue) + InRouter(u.router, id) + r.dropped
          == r.written + r.remainder + Flat(r.queue) + InRouter(u.router, id);
    }
  }

  lemma WrittenStartsArrived(r: Receiver, router: Router, id: StreamId, rest: Bytes)
    ensures r.written <= Arrived(r, router, id) + rest
  {
    assert Arrived(r, router, id)[..|r.written|] == r.written;
  }

  lemma NothingBeforeOpen(u: State, id: StreamId)
    requires Ok(u) && id in u.receivers && id !in u.sender.streams
    ensures u.receivers[id].written == []
  {
    assert ReceiverOk(u, id) && IdOk(u.sender, id);
    PayloadsSplit(u.sender.wire, u.taken, id);
    WrittenStartsArrived(u.receivers[id], u.router, id, []);
  }

  // Whatever was closed, and wherever: the public client has received a prefix.
  lemma WrittenIsPrefixOfRead(u: State, id: StreamId)
    requires Occurs(u) && id in u.receivers
    ensures if id in u.sender.streams then u.receivers[id].written <= u.sender.streams[id].read
            else u.receivers[id].written == []
  {
    OccursOk(u);
    if id in u.sender.streams {
      NothingIsInvented(u, id);
      WrittenStartsArrived(u.receivers[id], u.router, id, Outside(u, id));
    } else {
      NothingBeforeOpen(u, id);
    }
  }

  // ---- When the client has everything -----------------------------------------------

  // Nothing of the stream moves any more: no frame is between the bridge and
  // the stream's queue unless the channel was cut, and what is left in a bridge
  // or a queue is left by one that has ended.
  ghost predicate AtRest(u: State, id: StreamId)
    requires u.taken <= |u.sender.wire| && id in u.sender.streams && id in u.receivers
  {
    var s, r := u.sender, u.receivers[id];
    && (Transit(u, id) == [] || u.cut)
    && (s.streams[id].bridge.Pending() == [] || s.streams[id].bridge.Stopped?)
    && InRouter(u.router, id) == []
    && (r.writing ==> r.remainder == [] && Flat(r.queue) == [])
  }

  // The steps that throw a byte of the stream away, each told by its branch's
  // guard: a frame taken for a stream that is gone, one given up on or in the
  // hands of an aborted reader, the write task ended over bytes it has not
  // written, the bridge ended over a chunk, the channel cut over frames in
  // transit, and a chunk sent into a cut channel.
  predicate Loses(u: State, a: Action, id: StreamId)
    requires u.taken <= |u.sender.wire|
  {
    match a
    case Cut => Transit(u, id) != []
    case OnRouter(Take) =>
      u.taken < |u.sender.wire| && BytesOf(u.sender.wire[u.taken], id) != []
      && id in u.receivers && !u.receivers[id].registered
    case OnRouter(GiveUp) => InRouter(u.router, id) != []
    case OnRouter(Kill) => InRouter(u.router, id) != []
    case OnReceiver(r, StopWriting) =>
      r == id && id in u.receivers && (u.receivers[id].remainder != [] || Flat(u.receivers[id].queue) != [])
    case OnSender(OnBridge(r, b)) =>
      r == id && id in u.sender.streams && u.sender.streams[id].bridge.Pending() != []
      && (b.Stop? || (b.CheckAlive? && !u.sender.streams[id].entry.Live?) || (b.Push? && u.cut))
    case _ => false
  }

  ghost predicate NeverLoses(u: State, acts: seq<Action>, id: StreamId)
    requires IsTrace(u, acts) && u.taken <= |u.sender.wire|
    decreases acts
  {
    if acts == [] then true
    else
      WireHolds(u, acts[0]);
      !Loses(u, acts[0], id) && NeverLoses(Do(u, acts[0]), acts[1..], id)
  }

  // The reader never gets ahead of the wire.
  lemma WireHolds(u: State, a: Action)
    requires Allowed(u, a) && u.taken <= |u.sender.wire|
    ensures Do(u, a).taken <= |Do(u, a).sender.wire|
  {
    if a.OnSender? {
      WireGrows(u.sender, a.step);
    }
  }

  function LostAtServer(r: Receiver): Bytes {
    r.dropped + if r.writing then [] else r.remainder + Flat(r.queue)
  }

  function LostAtAgent(s: Sender, id: StreamId): Bytes {
    if id in s.streams && s.streams[id].bridge.Stopped? then s.streams[id].bridge.chunk else []
  }

  // Is some byte of the stream lost for good?
  predicate Lost(u: State, id: StreamId)
    requires u.taken <= |u.sender.wire|
  {
    || (u.cut && Transit(u, id) != [])
    || LostAtAgent(u.sender, id) != [] || (id in u.receivers && LostAtServer(u.receivers[id]) != [])
  }

  // The agent's steps move frames along and add only what the bridge sends.
  lemma TransitMoves(u: State, step: Step, id: StreamId)
    requires Enabled(u.sender, step) && u.taken <= |u.sender.wire|
    requires id in u.sender.streams ==> u.sender.streams[id].kind == Tcp
    ensures u.taken <= |Apply(u.sender, step).wire|
    ensures |Transit(u.(sender := Apply(u.sender, step)), id)| ==
            |Transit(u, id)| + if step == OnBridge(id, Push) then |u.sender.streams[id].bridge.Pending()| else 0
  {
    var s := u.sender;
    match step
    case OnBridge(r, b) =>
      if b.Push? { Appended(s.queue, Data(r, s.streams[r].bridge.Pending()), id); }
    case OnEntry(_, _) =>
    case OnWriter(w) => WriterMoves(u, w, id);
    case PushText => Appended(s.queue, Text, id);
    case PushUdp(r, payload) => Appended(s.queue, Data(r, payload), id);
  }

  lemma WriterMoves(u: State, step: WriterStep, id: StreamId)
    requires WriterEnabled(u.sender, step) && u.taken <= |u.sender.wire|
    ensures u.taken <= |ApplyWriter(u.sender, step).wire|
    ensures |Transit(u.(sender := ApplyWriter(u.sender, step)), id)| == |Transit(u, id)|
  {
    if step.Send? {
      var wire, m := u.sender.wire, u.sender.writer.message;
      assert (wire + [m])[u.taken..] == wire[u.taken..] + [m];
      Appended(wire[u.taken..], m, id);
    }
  }

  lemma AgentLoses(u: State, step: Step, id: StreamId)
    requires Allowed(u, OnSender(step)) && (id in u.sender.streams ==> u.sender.streams[id].kind == Tcp)
    ensures LostAtAgent(Apply(u.sender, step), id) != [] <==>
            LostAtAgent(u.sender, id) != [] ||
            (step.OnBridge? && step.id == id && u.sender.streams[id].bridge.Pending() != []
             && (step.bridge.Stop? || (step.bridge.CheckAlive? && !u.sender.streams[id].entry.Live?)))
  {
  }

  lemma SenderLoses(u: State, step: Step, id: StreamId)
    requires Allowed(u, OnSender(step)) && (id in u.sender.streams ==> u.sender.streams[id].kind == Tcp)
    requires u.taken <= |u.sender.wire|
    ensures u.taken <= |Apply(u.sender, step).wire|
    ensures Lost(Do(u, OnSender(step)), id) <==> Lost(u, id) || Loses(u, OnSender(step), id)
  {
    TransitMoves(u, step, id);
    AgentLoses(u, step, id);
    var t, t' := Transit(u, id), Transit(Do(u, OnSender(step)), id);
    assert (t == [] <==> |t| == 0) && (t' == [] <==> |t'| == 0);
    if step == OnBridge(id, Push) {
      var chunk := u.sender.streams[id].bridge.Pending();
      assert chunk == [] <==> |chunk| == 0;
    }
  }

  lemma RouterLoses(u: State, step: RouterStep, id: StreamId)
    requires RouterEnabled(u, step) && id in u.receivers && u.taken <= |u.sender.wire|
    ensures LostAtServer(ApplyRouter(u, step).receivers[id]) != [] <==>
            LostAtServer(u.receivers[id]) != [] || Loses(u, OnRouter(step), id)
  {
    if step.Enqueue? && u.router.id == id {
      assert u.receivers[id].writing;
    }
  }

  lemma ReceiverLoses(u: State, r: StreamId, step: ReceiverStep, id: StreamId)
    requires ReceiverEnabled(u, r, step) && id in u.receivers && u.taken <= |u.sender.wire|
    ensures LostAtServer(ApplyReceiver(u, r, step).receivers[id]) != [] <==>
            LostAtServer(u.receivers[id]) != [] || Loses(u, OnReceiver(r, step), id)
  {
  }

  // Bytes are lost by exactly the losing steps, and never come back.
  lemma LossStep(u: State, a: Action, id: StreamId)
    requires Ok(u) && Allowed(u, a) && (id in u.sender.streams ==> u.sender.streams[id].kind == Tcp)
    ensures Do(u, a).taken <= |Do(u, a).sender.wire|
    ensures Lost(Do(u, a), id) <==> Lost(u, id) || Loses(u, a, id)
  {
    WireHolds(u, a);
    match a
    case OnSender(step) => SenderLoses(u, step, id);
    case OnRouter(step) =>
      if id in u.receivers { RouterLoses(u, step, id); }
    case OnReceiver(r, step) =>
      if id in u.receivers { ReceiverLoses(u, r, step, id); }
    case Cut =>
  }

  lemma {:induction false} LossTrace(u: State, acts: seq<Action>, id: StreamId)
    requires Ok(u) && IsTrace(u, acts) && !Lost(u, id) && IsTcp(End(u, acts).sender, id)
    ensures End(u, acts).taken <= |End(u, acts).sender.wire|
    ensures Lost(End(u, acts), id) <==> !NeverLoses(u, acts, id)
    decreases acts
  {
    if acts != [] {
      var u' := Do(u, acts[0]);
      KindOverTrace(u, acts, id);
      LossStep(u, acts[0], id);
      DoKeeps(u, acts[0]);
      if Lost(u', id) {
        LostForGood(u', acts[1..], id);
      } else {
        LossTrace(u', acts[1..], id);
      }
    }
  }

  lemma {:induction false} LostForGood(u: State, acts: seq<Action>, id: StreamId)
    requires Ok(u) && IsTrace(u, acts) && Lost(u, id) && IsTcp(End(u, acts).sender, id)
    ensures End(u, acts).taken <= |End(u, acts).sender.wire| && Lost(End(u, acts), id)
    decreases acts
  {
    if acts != [] {
      KindOverTrace(u, acts, id);
      LossStep(u, acts[0], id);
      DoKeeps(u, acts[0]);
      LostForGood(Do(u, acts[0]), acts[1..], id);
    }
  }

  lemma {:induction false} KindOverTrace(u: State, acts: seq<Action>, id: StreamId)
    requires IsTrace(u, acts)
    ensures id in u.sender.streams ==>
              id in End(u, acts).sender.streams && End(u, acts).sender.streams[id].kind == u.sender.streams[id].kind
    decreases acts
  {
    if acts != [] {
      if acts[0].OnSender? {
        KindKept(u.sender, acts[0].step, id);
      }
      KindOverTrace(Do(u, acts[0]), acts[1..], id);
    }
  }

  lemma RestBalance(u: State, id: StreamId)
    requires Ok(u) && id in u.receivers && id in u.sender.streams && AtRest(u, id)
    ensures u.receivers[id].written == u.sender.streams[id].read <==> !Lost(u, id)
  {
    NothingIsInvented(u, id);
    var r := u.receivers[id];
    var left := u.sender.streams[id].bridge.Pending();
    assert |u.sender.streams[id].read| ==
           |r.written| + |r.remainder| + |Flat(r.queue)| + |r.dropped| + |Transit(u, id)| + |left|;
    if !Lost(u, id) {
      assert r.written <= Arrived(r, u.router, id) + Outside(u, id) by {
        WrittenStartsArrived(r, u.router, id, Outside(u, id));
      }
    }
  }

  // In any run, once a stream is at rest, the client has every byte the local
  // service sent if and only if no step of the run lost one.
  lemma CompleteIffNothingLost(acts: seq<Action>, id: StreamId)
    requires IsTrace(Begin, acts)
    requires var u := End(Begin, acts);
             id in u.receivers && id in u.sender.streams && u.taken <= |u.sender.wire| && AtRest(u, id)
    ensures var u := End(Begin, acts);
            u.receivers[id].written == u.sender.streams[id].read <==> NeverLoses(Begin, acts, id)
  {
    var u := End(Begin, acts);
    TraceKeeps(Begin, acts);
    assert ReceiverOk(u, id);
    RestBalance(u, id);
    LossTrace(Begin, acts, id);
  }

  // A write task that has ended writes nothing more.
  lemma {:induction false} NothingAfterStop(u: State, acts: seq<Action>, id: StreamId)
    requires IsTrace(u, acts) && id in u.receivers && !u.receivers[id].writing
    ensures id in End(u, acts).receivers && End(u, acts).receivers[id].written == u.receivers[id].written
    decreases acts
  {
    if acts != [] {
      assert id in Do(u, acts[0]).receivers && !Do(u, acts[0]).receivers[id].writing;
      NothingAfterStop(Do(u, acts[0]), acts[1..], id);
    }
  }

  // The most ordinary loss: the public client half-closes, the bridge ends and
  // aborts the write task over the response it has just received. Nothing was
  // dropped on the way, and the client never gets the byte.
  lemma HalfCloseLosesResponse()
    ensures exists u :: Occurs(u) && 1 in u.receivers && 1 in u.sender.streams && u.taken <= |u.sender.wire|
                        && AtRest(u, 1) && u.receivers[1].dropped == [] && u.sender.streams[1].read == [7]
                        && forall acts :: IsTrace(u, acts) ==>
                             1 in End(u, acts).receivers && End(u, acts).receivers[1].written == []
  {
    var u := QueuedAtServer();
    OccursExtends(u, OnReceiver(1, Unregister));
    u := Do(u, OnReceiver(1, Unregister));
    OccursExtends(u, OnReceiver(1, StopWriting));
    u := Do(u, OnReceiver(1, StopWriting));
    assert Transit(u, 1) == [];
    assert AtRest(u, 1);
    forall acts | IsTrace(u, acts)
      ensures 1 in End(u, acts).receivers && End(u, acts).receivers[1].written == [] {
      NothingAfterStop(u, acts, 1);
    }
  }

  // The response is in the stream's queue, still unwritten.
  lemma QueuedAtServer() returns (u: State)
    ensures Occurs(u)
    ensures u.sender == Sender(Agent, map[1 := Stream(Tcp, Live, 0, false, Stopped([], false), [7])], [], Ready, [Data(1, [7])])
    ensures u.taken == 1 && !u.cut && u.router == Free && u.receivers == map[1 := Receiver(true, [[7]], [], [], true, [])]
  {
    u := TakenAtServer();
    OccursExtends(u, OnRouter(Enqueue));
    u := ApplyRouter(u, Enqueue);
    assert u.receivers[1].queue == [[7]];
  }

  // Nor does a stream the server has removed get any more frames, once the
  // reader has none for it in hand.
  lemma {:induction false} NothingAfterRemoval(u: State, acts: seq<Action>, id: StreamId)
    requires IsTrace(u, acts) && id in u.receivers && !u.receivers[id].registered
    requires u.router.Routing? ==> u.router.id != id
    ensures id in End(u, acts).receivers
    ensures var e := End(u, acts).receivers[id];
            e.written + (e.remainder + Flat(e.queue)) == u.receivers[id].written + (u.receivers[id].remainder + Flat(u.receivers[id].queue))
    decreases acts
  {
    if acts != [] {
      RemovedStep(u, acts[0], id);
      NothingAfterRemoval(Do(u, acts[0]), acts[1..], id);
    }
  }

  lemma RemovedStep(u: State, a: Action, id: StreamId)
    requires Allowed(u, a) && id in u.receivers && !u.receivers[id].registered
    requires u.router.Routing? ==> u.router.id != id
    ensures var u' := Do(u, a);
            && id in u'.receivers && !u'.receivers[id].registered && (u'.router.Routing? ==> u'.router.id != id)
            && var r, r' := u.receivers[id], u'.receivers[id];
               r'.written + (r'.remainder + Flat(r'.queue)) == r.written + (r.remainder + Flat(r.queue))
  {
    var r := u.receivers[id];
    match a
    case OnReceiver(i, step) =>
      if i == id && step.Write? {
        assert r.written + r.remainder[..step.n] + (r.remainder[step.n..] + Flat(r.queue))
            == r.written + (r.remainder + Flat(r.queue));
      }
    case _ =>
  }

  // The reader takes every frame off the wire and has it in hand if and only if
  // its stream is registered; a text frame or one for an unknown stream changes
  // nothing, and one for a stream that is gone is dropped.
  lemma TakesEvery(u: State)
    requires u.router.Free? && u.taken < |u.sender.wire| && !u.cut
    ensures RouterEnabled(u, Take)
    ensures var m, u' := u.sender.wire[u.taken], ApplyRouter(u, Take);
            && u'.taken == u.taken + 1 && u'.sender == u.sender && !u'.cut && u'.receivers.Keys == u.receivers.Keys
            && (u'.router == (if m.Data? && m.id in u.receivers && u.receivers[m.id].registered
                              then Routing(m.id, m.payload) else Free))
            && forall id | id in u.receivers ::
                 var r, r' := u.receivers[id], u'.receivers[id];
                 && r' == r.(dropped := r'.dropped)
                 && r'.dropped == r.dropped + if m.Data? && m.id == id && !r.registered then m.payload else []
  {
  }

  // A send that times out gives the frame up and removes the stream.
  lemma GivenUpLosesResponse()
    ensures exists u :: Occurs(u) && 1 in u.receivers && 1 in u.sender.streams && u.taken <= |u.sender.wire|
                        && AtRest(u, 1) && !u.receivers[1].registered && u.receivers[1].writing && !u.cut
                        && u.sender.streams[1].read == [7] && u.receivers[1].written == []
  {
    var u := TakenAtServer();
    OccursExtends(u, OnRouter(GiveUp));
    u := ApplyRouter(u, GiveUp);
    assert u.receivers[1].dropped == [7] && u.receivers[1].written == [];
    assert Transit(u, 1) == [];
    assert Occurs(u) && AtRest(u, 1);
  }

  // A reader that is aborted with its channel takes the frame in its hands along,
  // and the stream stays.
  lemma AbortedReaderLosesResponse()
    ensures exists u :: Occurs(u) && 1 in u.receivers && 1 in u.sender.streams && u.taken <= |u.sender.wire|
                        && AtRest(u, 1) && u.receivers[1].registered && u.receivers[1].writing
                        && u.taken == |u.sender.wire| && u.sender.streams[1].read == [7] && u.receivers[1].written == []
  {
    var u := TakenAtServer();
    OccursExtends(u, Cut);
    u := Do(u, Cut);
    OccursExtends(u, OnRouter(Kill));
    u := ApplyRouter(u, Kill);
    assert u.receivers[1].dropped == [7] && u.receivers[1].written == [];
    assert Transit(u, 1) == [];
    assert Occurs(u) && AtRest(u, 1);
  }

  // The frame is in the reader's hands.
  lemma TakenAtServer() returns (u: State)
    ensures Occurs(u)
    ensures u.sender == Sender(Agent, map[1 := Stream(Tcp, Live, 0, false, Stopped([], false), [7])], [], Ready, [Data(1, [7])])
    ensures u.taken == 1 && !u.cut && u.router == Routing(1, [7]) && u.receivers == map[1 := Fresh()]
  {
    u := SentAndClosed();
    OccursExtends(u, OnRouter(Take));
    u := ApplyRouter(u, Take);
  }

  // A lost data channel takes what is in transit on it with it.
  lemma CutLosesTransit()
    ensures exists u :: Occurs(u) && 1 in u.receivers && 1 in u.sender.streams && u.taken <= |u.sender.wire|
                        && AtRest(u, 1) && u.receivers[1].registered && u.receivers[1].dropped == []
                        && u.sender.streams[1].read == [7] && u.receivers[1].written == []
  {
    var u := SentAndClosed();
    OccursExtends(u, Cut);
    u := Do(u, Cut);
    assert AtRest(u, 1);
  }

  // `StreamClose` travels on the control socket and can overtake data frames:
  // the local service sends one byte and closes, the close removes the stream
  // on the server, and the byte arrives to find no stream.
  lemma CloseOvertakesData()
    ensures exists u :: Occurs(u) && 1 in u.receivers && 1 in u.sender.streams && u.taken <= |u.sender.wire|
                        && AtRest(u, 1) && u.sender.streams[1].read == [7] && u.receivers[1].written == []
  {
    var u := SentAndClosed();
    OccursExtends(u, OnReceiver(1, Unregister));
    u := Do(u, OnReceiver(1, Unregister));
    OccursExtends(u, OnRouter(Take));
    u := ApplyRouter(u, Take);
    assert Transit(u, 1) == [];
    assert Occurs(u) && AtRest(u, 1);
  }

  lemma OneStreamOpen() returns (u: State)
    ensures Occurs(u) && u.sender == Sender(Agent, map[1 := Stream(Tcp, Live, 0, false, Idle, [])], [], Ready, [])
    ensures u.taken == 0 && !u.cut && u.router == Free && u.receivers == map[1 := Fresh()]
  {
    u := Begin;
    assert IsTrace(Begin, []) && End(Begin, []) == Begin;
    OccursExtends(u, OnReceiver(1, Accept));
    u := Do(u, OnReceiver(1, Accept));
    u := SenderMove(u, OnEntry(1, Open(Tcp)));
  }

  lemma OneByteChecked() returns (u: State)
    ensures Occurs(u) && u.sender == Sender(Agent, map[1 := Stream(Tcp, Live, 0, false, Checked([7]), [7])], [], Ready, [])
    ensures u.taken == 0 && !u.cut && u.router == Free && u.receivers == map[1 := Fresh()]
  {
    u := OneStreamOpen();
    u := SenderMove(u, OnBridge(1, Read([7])));
    assert u.sender.streams[1] == Stream(Tcp, Live, 0, false, Holding([7]), [7]);
    u := SenderMove(u, OnBridge(1, CheckAlive));
  }

  lemma OneByteQueued() returns (u: State)
    ensures Occurs(u) && u.sender == Sender(Agent, map[1 := Stream(Tcp, Live, 1, false, Idle, [7])], [Data(1, [7])], Ready, [])
    ensures u.taken == 0 && !u.cut && u.router == Free && u.receivers == map[1 := Fresh()]
  {
    u := OneByteChecked();
    u := SenderMove(u, OnBridge(1, TrySlot));
    assert u.sender.streams[1] == Stream(Tcp, Live, 1, false, Granted([7]), [7]);
    u := SenderMove(u, OnBridge(1, Push));
  }

  lemma OneByteDequeued() returns (u: State)
    ensures Occurs(u)
    ensures u.sender == Sender(Agent, map[1 := Stream(Tcp, Live, 1, false, Stopped([], false), [7])], [], Releasing(Data(1, [7])), [])
    ensures u.taken == 0 && !u.cut && u.router == Free && u.receivers == map[1 := Fresh()]
  {
    u := OneByteQueued();
    u := SenderMove(u, OnBridge(1, Stop));
    assert u.sender.streams[1] == Stream(Tcp, Live, 1, false, Stopped([], false), [7]);
    u := SenderMove(u, OnWriter(Dequeue));
    assert u.sender.writer == Dequeued(Data(1, [7])) && u.sender.queue == [];
    u := SenderMove(u, OnWriter(LookSlot));
  }

  // One byte read and on the wire, the bridge ended, nothing taken yet.
  lemma SentAndClosed() returns (u: State)
    ensures Occurs(u) && u.sender == Sender(Agent, map[1 := Stream(Tcp, Live, 0, false, Stopped([], false), [7])], [], Ready, [Data(1, [7])])
    ensures u.taken == 0 && !u.cut && u.router == Free && u.receivers == map[1 := Fresh()]
  {
    u := OneByteDequeued();
    u := SenderMove(u, OnWriter(Release));
    assert u.sender.streams == map[1 := Stream(Tcp, Live, 0, false, Stopped([], false), [7])];
    u := SenderMove(u, OnWriter(Send));
  }

  lemma SenderMove(u: State, step: Step) returns (u': State)
    requires Occurs(u) && Allowed(u, OnSender(step))
    ensures Occurs(u') && u' == u.(sender := Apply(u.sender, step))
  {
    u' := Do(u, OnSender(step));
    OccursExtends(u, OnSender(step));
  }

  lemma OccursExtends(u: State, a: Action)
    requires Occurs(u) && Allowed(u, a)
    ensures Occurs(Do(u, a))
  {
    var acts :| IsTrace(Begin, acts) && u == End(Begin, acts);
    TraceExtends(Begin, acts, a);
  }

  lemma {:induction false} TraceExtends(u: State, acts: seq<Action>, a: Action)
    requires IsTrace(u, acts) && Allowed(End(u, acts), a)
    ensures IsTrace(u, acts + [a]) && End(u, acts + [a]) == Do(End(u, acts), a)
    decreases acts
  {
    if acts == [] {
      assert [a][1..] == [];
    } else {
      TraceExtends(Do(u, acts[0]), acts[1..], a);
      assert (acts + [a])[1..] == acts[1..] + [a];
    }
  }

  // ---- Everything can arrive --------------------------------------------------------------

  // Some trace leads from one state to the other.
  ghost predicate Gets(u: State, v: State) {
    exists acts :: IsTrace(u, acts) && End(u, acts) == v
  }

  lemma GetsSelf(u: State)
    ensures Gets(u, u)
  {
    assert IsTrace(u, []) && End(u, []) == u;
  }

  lemma GetsOne(u: State, v: State, a: Action)
    requires Gets(u, v) && Allowed(v, a)
    ensures Gets(u, Do(v, a))
  {
    var acts :| IsTrace(u, acts) && End(u, acts) == v;
    TraceExtends(u, acts, a);
  }

  // The agent's own steps, with the rest of the path standing still.
  lemma {:induction false} GetsBySender(u: State, v: State, steps: seq<Step>, id: StreamId)
    requires Gets(u, v) && IsRun(v.sender, steps) && Plain(steps, id)
    ensures Gets(u, v.(sender := After(v.sender, steps)))
    decreases steps
  {
    if steps != [] {
      assert IsPlain(steps[0], id) && forall i | 0 <= i < |steps[1..]| :: steps[1..][i] == steps[i + 1];
      GetsOne(u, v, OnSender(steps[0]));
      GetsBySender(u, v.(sender := Apply(v.sender, steps[0])), steps[1..], id);
    }
  }

  // Everything read has been written, and all parts wait for the next chunk.
  ghost predicate AllWritten(u: State, id: StreamId, data: Bytes) {
    && Inv(u.sender) && ReadyToRead(u.sender, id) && u.sender.queue == [] && u.sender.writer.Ready?
    && u.sender.streams[id].read == data
    && u.taken == |u.sender.wire| && u.router.Free? && !u.cut
    && id in u.receivers && u.receivers[id] == Receiver(true, [], [], data, true, [])
  }

  lemma FrameIsWritten(u: State, v: State, id: StreamId, data: Bytes, chunk: Bytes) returns (w: State)
    requires Gets(u, v) && chunk != []
    requires v.taken + 1 == |v.sender.wire| && v.sender.wire[v.taken] == Data(id, chunk)
    requires v.router.Free? && !v.cut && id in v.receivers && v.receivers[id] == Receiver(true, [], [], data, true, [])
    ensures Gets(u, w) && w.sender == v.sender && w.taken == |w.sender.wire| && w.router.Free? && !w.cut
    ensures id in w.receivers && w.receivers[id] == Receiver(true, [], [], data + chunk, true, [])
  {
    GetsOne(u, v, OnRouter(Take));
    w := ApplyRouter(v, Take);
    assert w.router == Routing(id, chunk) && w.receivers == v.receivers;
    GetsOne(u, w, OnRouter(Enqueue));
    w := ApplyRouter(w, Enqueue);
    assert w.receivers[id] == Receiver(true, [chunk], [], data, true, []);
    GetsOne(u, w, OnReceiver(id, Next));
    w := ApplyReceiver(w, id, Next);
    assert w.receivers[id] == Receiver(true, [], chunk, data, true, []);
    GetsOne(u, w, OnReceiver(id, Write(|chunk|)));
    w := ApplyReceiver(w, id, Write(|chunk|));
    assert chunk[..|chunk|] == chunk && chunk[|chunk|..] == [];
  }

  lemma ChunkArrives(u: State, v: State, id: StreamId, data: Bytes, chunk: Bytes) returns (w: State)
    requires Gets(u, v) && AllWritten(v, id, data) && 0 < |chunk| <= TCP_CHUNK_SIZE
    ensures Gets(u, w) && AllWritten(w, id, data + chunk)
  {
    var e := ChunkCanBeSent(v.sender, id, chunk);
    var steps :| IsRun(v.sender, steps) && Plain(steps, id) && After(v.sender, steps) == e;
    GetsBySender(u, v, steps, id);
    assert e.wire == v.sender.wire + [Data(id, chunk)];
    w := FrameIsWritten(u, v.(sender := e), id, data, chunk);
  }

  lemma OpenAndReady(id: StreamId) returns (u: State)
    ensures Gets(Begin, u) && AllWritten(u, id, [])
  {
    u := Begin;
    GetsSelf(u);
    GetsOne(Begin, u, OnReceiver(id, Accept));
    u := Do(u, OnReceiver(id, Accept));
    GetsOne(Begin, u, OnSender(OnEntry(id, Open(Tcp))));
    u := Do(u, OnSender(OnEntry(id, Open(Tcp))));
    assert IsRun(Start(Agent), []) && After(Start(Agent), []) == Start(Agent);
    StepKeepsInv(Start(Agent), OnEntry(id, Open(Tcp)));
  }

  lemma {:induction false} ChunksArrive(id: StreamId, chunks: seq<Bytes>) returns (u: State)
    requires forall i | 0 <= i < |chunks| :: 0 < |chunks[i]| <= TCP_CHUNK_SIZE
    ensures Gets(Begin, u) && AllWritten(u, id, Flat(chunks))
    decreases chunks
  {
    if chunks == [] {
      u := OpenAndReady(id);
    } else {
      var front, last := chunks[..|chunks| - 1], chunks[|chunks| - 1];
      var v := ChunksArrive(id, front);
      u := ChunkArrives(Begin, v, id, Flat(front), last);
      FlatAppend(front, last);
      assert chunks == front + [last];
    }
  }

  // Whatever the local service sends, in whatever chunks it is read, there is a
  // run of the whole path in which the public client gets all of it.
  lemma EverythingCanArrive(id: StreamId, chunks: seq<Bytes>)
    requires forall i | 0 <= i < |chunks| :: 0 < |chunks[i]| <= TCP_CHUNK_SIZE
    ensures exists u :: Occurs(u) && id in u.receivers && id in u.sender.streams && u.receivers[id].registered
                        && u.sender.streams[id].read == Flat(chunks) == u.receivers[id].written
  {
    var u := ChunksArrive(id, chunks);
    assert Occurs(u);
  }
}
