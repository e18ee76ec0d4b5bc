// The sending half of a data channel, the same on server and agent: many
// bridges share one bounded queue drained by one writer. One lock-held region
// (or one queue operation) is one step.
module SharedQueue {
  type StreamId = nat
  type Bytes = seq<int>

  const DATA_CHANNEL_QUEUE_FRAMES: nat := 128
  const STREAM_CHANNEL_QUOTA: nat := 16
  const TCP_CHUNK_SIZE: nat := 64 * 1024

  datatype Message = Data(id: StreamId, payload: Bytes) | Text

  datatype Kind = Tcp | Udp

  datatype Side = Server | Agent

  // `remove_stream_entry` / `drop_stream` first take the entry out of the map,
  // then reset its slot; a remover aborted in between leaves the slot as it is.
  datatype Entry = Live | Removing | Abandoned | Gone

  // Where a TCP bridge is: not yet holding its slot; reading; holding a chunk
  // before the registration check, after it, after seeing a full slot but before
  // `notified()`, asleep; owning a slot for its chunk; sending without one; or
  // ended, with what it then still held.
  datatype Bridge =
    | Starting
    | Idle
    | Holding(chunk: Bytes)
    | Checked(chunk: Bytes)
    | Enrolling(chunk: Bytes)
    | Asleep(chunk: Bytes)
    | Granted(chunk: Bytes)
    | Slotless(chunk: Bytes)
    | Stopped(chunk: Bytes, slot: bool)
  {
    function Pending(): Bytes {
      if Starting? || Idle? then [] else chunk
    }

    // Slots this bridge has reserved for a frame that is not in the queue.
    function Slots(): nat {
      if Granted? || (Stopped? && slot) then 1 else 0
    }

    // On its way through `acquire`, or past it.
    predicate UsesSlot() {
      Checked? || Enrolling? || Asleep? || Granted?
    }
  }

  // `slotless`: the server's bridge looked for its slot when the stream was gone
  // already, and sends without one. `read` is every byte taken from the bridge's
  // socket so far.
  datatype Stream = Stream(kind: Kind, entry: Entry, outstanding: nat, slotless: bool, bridge: Bridge, read: Bytes)

  // The channel writer, from `recv` to the socket.
  datatype Writer = Ready | Dequeued(message: Message) | Releasing(message: Message) | Sending(message: Message)

  // `wire` is everything handed to the socket so far.
  datatype Sender = Sender(
    side: Side, streams: map<StreamId, Stream>, queue: seq<Message>, writer: Writer, wire: seq<Message>)

  datatype BridgeStep = FetchSlot | Read(chunk: Bytes) | CheckAlive | SkipSlot | TrySlot | Enrol | Push | Stop
  datatype EntryStep = Open(kind: Kind) | Remove | Reset | Abandon
  datatype WriterStep = Dequeue | LookSlot | Release | Send

  datatype Step =
    | OnBridge(id: StreamId, bridge: BridgeStep)
    | OnEntry(id: StreamId, entry: EntryStep)
    | OnWriter(writer: WriterStep)
    | PushText
    | PushUdp(id: StreamId, payload: Bytes)

  function Start(side: Side): Sender {
    Sender(side, map[], [], Ready, [])
  }

  predicate BridgeEnabled(s: Sender, id: StreamId, step: BridgeStep) {
    && id in s.streams && s.streams[id].kind == Tcp
    && var b := s.streams[id].bridge;
       match step
       case FetchSlot => b.Starting?
       case Read(chunk) => b.Idle? && 0 < |chunk| <= TCP_CHUNK_SIZE
       case CheckAlive => b.Holding? && !s.streams[id].slotless
       case SkipSlot => b.Holding? && s.streams[id].slotless
       case TrySlot => b.Checked?
       case Enrol => b.Enrolling?
       case Push => (b.Granted? || b.Slotless?) && |s.queue| < DATA_CHANNEL_QUEUE_FRAMES
       case Stop => !b.Stopped?
  }

  // `Stop` is any end of the bridge: end of input, a reclaimed stream, a closed
  // queue, an aborted task.
  function BridgeAfter(st: Stream, step: BridgeStep): Stream {
    var chunk := st.bridge.Pending();
    match step
    case FetchSlot => st.(bridge := Idle, slotless := !st.entry.Live?)
    case Read(c) => st.(bridge := Holding(c), read := st.read + c)
    case CheckAlive => st.(bridge := if st.entry.Live? then Checked(chunk) else Stopped(chunk, false))
    case SkipSlot => st.(bridge := Slotless(chunk))
    case TrySlot =>
      if st.outstanding < STREAM_CHANNEL_QUOTA then
        st.(bridge := Granted(chunk), outstanding := st.outstanding + 1)
      else st.(bridge := Enrolling(chunk))
    case Enrol => st.(bridge := Asleep(chunk))
    case Push => st.(bridge := Idle)
    case Stop => st.(bridge := Stopped(chunk, st.bridge.Granted?))
  }

  function ApplyBridge(s: Sender, id: StreamId, step: BridgeStep): Sender
    requires BridgeEnabled(s, id, step)
  {
    var st := s.streams[id];
    var s' := s.(streams := s.streams[id := BridgeAfter(st, step)]);
    if step.Push? then s'.(queue := s.queue + [Data(id, st.bridge.Pending())]) else s'
  }

  // Stream ids are fresh.
  predicate EntryEnabled(s: Sender, id: StreamId, step: EntryStep) {
    match step
    case Open(_) => id !in s.streams
    case Remove => id in s.streams && s.streams[id].entry.Live?
    case Reset => id in s.streams && s.streams[id].entry.Removing?
    case Abandon => id in s.streams && s.streams[id].entry.Removing?
  }

  // Waking a bridge sends it back to the registration check.
  function Woken(b: Bridge): Bridge {
    if b.Asleep? then Holding(b.chunk) else b
  }

  // The server keeps no slot entry for a UDP session, and its TCP bridge fetches
  // its slot once; the agent's looks it up every time.
  function Opened(side: Side, kind: Kind): Stream {
    Stream(kind, if kind == Udp && side == Server then Gone else Live, 0, false,
           if kind == Tcp && side == Server then Starting else Idle, [])
  }

  function ApplyEntry(s: Sender, id: StreamId, step: EntryStep): Sender
    requires EntryEnabled(s, id, step)
  {
    match step
    case Open(kind) => s.(streams := s.streams[id := Opened(s.side, kind)])
    case Remove => s.(streams := s.streams[id := s.streams[id].(entry := Removing)])
    case Reset =>
      var st := s.streams[id];
      s.(streams := s.streams[id := st.(entry := Gone, outstanding := 0, bridge := Woken(st.bridge))])
    case Abandon => s.(streams := s.streams[id := s.streams[id].(entry := Abandoned)])
  }

  predicate IsLive(s: Sender, m: Message) {
    m.Data? && m.id in s.streams && s.streams[m.id].entry.Live?
  }

  predicate WriterEnabled(s: Sender, step: WriterStep) {
    match step
    case Dequeue => s.writer.Ready? && s.queue != []
    case LookSlot => s.writer.Dequeued?
    case Release => s.writer.Releasing? && s.writer.message.Data? && s.writer.message.id in s.streams
    case Send => s.writer.Sending?
  }

  function Released(st: Stream): Stream {
    st.(outstanding := if st.outstanding == 0 then 0 else st.outstanding - 1, bridge := Woken(st.bridge))
  }

  function ApplyWriter(s: Sender, step: WriterStep): Sender
    requires WriterEnabled(s, step)
  {
    match step
    case Dequeue => s.(queue := s.queue[1..], writer := Dequeued(s.queue[0]))
    case LookSlot =>
      var m := s.writer.message;
      s.(writer := if IsLive(s, m) then Releasing(m) else Sending(m))
    case Release =>
      var m := s.writer.message;
      s.(streams := s.streams[m.id := Released(s.streams[m.id])], writer := Sending(m))
    case Send => s.(wire := s.wire + [s.writer.message], writer := Ready)
  }

  // Text frames and UDP datagrams take a queue place without taking a slot.
  predicate Enabled(s: Sender, step: Step) {
    match step
    case OnBridge(id, b) => BridgeEnabled(s, id, b)
    case OnEntry(id, e) => EntryEnabled(s, id, e)
    case OnWriter(w) => WriterEnabled(s, w)
    case PushText => |s.queue| < DATA_CHANNEL_QUEUE_FRAMES
    case PushUdp(id, _) => |s.queue| < DATA_CHANNEL_QUEUE_FRAMES && id in s.streams && s.streams[id].kind == Udp
  }

  function Apply(s: Sender, step: Step): Sender
    requires Enabled(s, step)
  {
    match step
    case OnBridge(id, b) => ApplyBridge(s, id, b)
    case OnEntry(id, e) => ApplyEntry(s, id, e)
    case OnWriter(w) => ApplyWriter(s, w)
    case PushText => s.(queue := s.queue + [Text])
    case PushUdp(id, payload) => s.(queue := s.queue + [Data(id, payload)])
  }

  ghost predicate IsRun(s: Sender, steps: seq<Step>)
    decreases steps
  {
    steps != [] ==> Enabled(s, steps[0]) && IsRun(Apply(s, steps[0]), steps[1..])
  }

  ghost function After(s: Sender, steps: seq<Step>): Sender
    requires IsRun(s, steps)
    decreases steps
  {
    if steps == [] then s else After(Apply(s, steps[0]), steps[1..])
  }

  ghost predicate Reachable(s: Sender) {
    exists side, steps :: IsRun(Start(side), steps) && s == After(Start(side), steps)
  }

  // ---- Frames of one stream ---------------------------------------------------

  predicate IsOf(m: Message, id: StreamId) {
    m.Data? && m.id == id
  }

  function BytesOf(m: Message, id: StreamId): Bytes {
    if IsOf(m, id) then m.payload else []
  }

  // The stream's bytes in a sequence of frames, and how many frames they fill.
  function Payloads(q: seq<Message>, id: StreamId): Bytes {
    if q == [] then [] else BytesOf(q[0], id) + Payloads(q[1..], id)
  }

  function Count(q: seq<Message>, id: StreamId): nat {
    if q == [] then 0 else (if IsOf(q[0], id) then 1 else 0) + Count(q[1..], id)
  }

  lemma {:induction false} PayloadsConcat(a: seq<Message>, b: seq<Message>, id: StreamId)
    ensures Payloads(a + b, id) == Payloads(a, id) + Payloads(b, id)
  {
    if a == [] {
      assert a + b == b;
    } else {
      PayloadsConcat(a[1..], b, id);
      assert (a + b)[1..] == a[1..] + b && (a + b)[0] == a[0];
      var head, tail, rest := BytesOf(a[0], id), Payloads(a[1..], id), Payloads(b, id);
      assert head + (tail + rest) == head + tail + rest;
    }
  }

  lemma {:induction false} CountConcat(a: seq<Message>, b: seq<Message>, id: StreamId)
    ensures Count(a + b, id) == Count(a, id) + Count(b, id)
  {
    if a == [] {
      assert a + b == b;
    } else {
      CountConcat(a[1..], b, id);
      assert (a + b)[1..] == a[1..] + b;
    }
  }

  lemma Appended(q: seq<Message>, m: Message, id: StreamId)
    ensures Payloads(q + [m], id) == Payloads(q, id) + BytesOf(m, id)
    ensures Count(q + [m], id) == Count(q, id) + if IsOf(m, id) then 1 else 0
  {
    PayloadsConcat(q, [m], id);
    CountConcat(q, [m], id);
    assert [m][1..] == [];
    assert Payloads([m], id) == BytesOf(m, id) + Payloads([], id);
  }

  // ---- Invariant ----------------------------------------------------------------

  // Dequeued, and its slot not yet given back.
  predicate Unreleased(s: Sender, id: StreamId) {
    (s.writer.Dequeued? || s.writer.Releasing?) && IsOf(s.writer.message, id)
  }

  function Own(s: Sender, id: StreamId): nat {
    Count(s.queue, id) + if Unreleased(s, id) then 1 else 0
  }

  function AtWriter(s: Sender, id: StreamId): Bytes {
    if s.writer.Ready? then [] else BytesOf(s.writer.message, id)
  }

  // Everything of the stream the sender has taken in, in order.
  function Line(s: Sender, id: StreamId): Bytes
    requires id in s.streams
  {
    Payloads(s.wire, id) + AtWriter(s, id) + Payloads(s.queue, id) + s.streams[id].bridge.Pending()
  }

  ghost predicate StreamOk(s: Sender, id: StreamId)
    requires id in s.streams
  {
    var st := s.streams[id];
    st.kind == Tcp ==>
      && Line(s, id) == st.read
      && (st.slotless ==> !st.entry.Live? && !st.bridge.UsesSlot())
      && (st.bridge.Slotless? ==> st.slotless)
      && (st.entry.Live? ==> st.outstanding == Own(s, id) + st.bridge.Slots() && st.outstanding <= STREAM_CHANNEL_QUOTA)
  }

  ghost predicate NoTrace(s: Sender, id: StreamId) {
    Own(s, id) == 0 && Payloads(s.wire, id) == [] && AtWriter(s, id) == [] && Payloads(s.queue, id) == []
  }

  ghost predicate IdOk(s: Sender, id: StreamId) {
    if id in s.streams then StreamOk(s, id) else NoTrace(s, id)
  }

  // A frame waiting for its slot to be given back belongs to a known stream.
  ghost predicate Inv(s: Sender) {
    && |s.queue| <= DATA_CHANNEL_QUEUE_FRAMES
    && (s.writer.Releasing? ==> s.writer.message.Data? && s.writer.message.id in s.streams)
    && (forall id: StreamId :: IdOk(s, id))
  }

  lemma PushKeepsOwn(s: Sender, id: StreamId)
    requires BridgeEnabled(s, id, Push) && IdOk(s, id)
    ensures IdOk(ApplyBridge(s, id, Push), id)
  {
    var chunk := s.streams[id].bridge.Pending();
    Appended(s.queue, Data(id, chunk), id);
    PushRegroups(Payloads(s.wire, id) + AtWriter(s, id), Payloads(s.queue, id), chunk);
  }

  lemma PushRegroups(sent: Bytes, queued: Bytes, chunk: Bytes)
    ensures sent + (queued + chunk) + [] == sent + queued + chunk
  {
  }

  lemma PushKeepsOther(s: Sender, r: StreamId, id: StreamId)
    requires BridgeEnabled(s, r, Push) && IdOk(s, id) && r != id
    ensures IdOk(ApplyBridge(s, r, Push), id)
  {
    var m := Data(r, s.streams[r].bridge.Pending());
    Appended(s.queue, m, id);
    assert Payloads(s.queue, id) + [] == Payloads(s.queue, id);
    assert AtWriter(ApplyBridge(s, r, Push), id) == AtWriter(s, id);
  }

  lemma PushKeeps(s: Sender, r: StreamId, id: StreamId)
    requires BridgeEnabled(s, r, Push) && IdOk(s, id)
    ensures IdOk(ApplyBridge(s, r, Push), id)
  {
    if r == id { PushKeepsOwn(s, id); } else { PushKeepsOther(s, r, id); }
  }

  lemma BridgeKeeps(s: Sender, r: StreamId, step: BridgeStep, id: StreamId)
    requires BridgeEnabled(s, r, step) && !step.Push? && IdOk(s, id)
    ensures IdOk(ApplyBridge(s, r, step), id)
  {
    if r == id && step.Read? {
      assert Line(ApplyBridge(s, r, step), id) == Line(s, id) + step.chunk;
    }
  }

  lemma EntryKeeps(s: Sender, r: StreamId, step: EntryStep, id: StreamId)
    requires EntryEnabled(s, r, step) && IdOk(s, id)
    ensures IdOk(ApplyEntry(s, r, step), id)
  {
  }

  lemma DequeueKeeps(s: Sender, id: StreamId)
    requires WriterEnabled(s, Dequeue) && IdOk(s, id)
    ensures IdOk(ApplyWriter(s, Dequeue), id)
  {
    var head, rest := BytesOf(s.queue[0], id), Payloads(s.queue[1..], id);
    assert Payloads(s.queue, id) == head + rest;
    assert Payloads(s.wire, id) + [] + (head + rest) == Payloads(s.wire, id) + head + rest;
  }

  lemma SendKeeps(s: Sender, id: StreamId)
    requires WriterEnabled(s, Send) && IdOk(s, id)
    ensures IdOk(ApplyWriter(s, Send), id)
  {
    var m := s.writer.message;
    Appended(s.wire, m, id);
    assert Payloads(s.wire + [m], id) + [] == Payloads(s.wire, id) + BytesOf(m, id);
  }

  lemma ReleaseKeeps(s: Sender, id: StreamId)
    requires WriterEnabled(s, Release) && IdOk(s, id)
    ensures IdOk(ApplyWriter(s, Release), id)
  {
  }

  lemma LookSlotKeeps(s: Sender, id: StreamId)
    requires WriterEnabled(s, LookSlot) && IdOk(s, id)
    ensures IdOk(ApplyWriter(s, LookSlot), id)
  {
  }

  lemma StepKeeps(s: Sender, step: Step, id: StreamId)
    requires Enabled(s, step) && IdOk(s, id)
    ensures IdOk(Apply(s, step), id)
  {
    match step
    case OnBridge(r, b) =>
      if b.Push? { PushKeeps(s, r, id); } else { BridgeKeeps(s, r, b, id); }
    case OnEntry(r, e) => EntryKeeps(s, r, e, id);
    case OnWriter(Dequeue) => DequeueKeeps(s, id);
    case OnWriter(LookSlot) => LookSlotKeeps(s, id);
    case OnWriter(Release) => ReleaseKeeps(s, id);
    case OnWriter(Send) => SendKeeps(s, id);
    case PushText => UnslottedPushKeeps(s, Text, id);
    case PushUdp(r, payload) => UnslottedPushKeeps(s, Data(r, payload), id);
  }

  // A frame that takes no slot is not a TCP stream's.
  lemma UnslottedPushKeeps(s: Sender, m: Message, id: StreamId)
    requires m.Data? ==> m.id in s.streams && s.streams[m.id].kind == Udp
    requires IdOk(s, id)
    ensures IdOk(s.(queue := s.queue + [m]), id)
  {
    Appended(s.queue, m, id);
    assert !IsOf(m, id) ==> Payloads(s.queue, id) + [] == Payloads(s.queue, id);
  }

  lemma StepKeepsInv(s: Sender, step: Step)
    requires Inv(s) && Enabled(s, step)
    ensures Inv(Apply(s, step))
  {
    forall id: StreamId ensures IdOk(Apply(s, step), id) {
      StepKeeps(s, step, id);
    }
  }

  lemma {:induction false} RunKeepsInv(s: Sender, steps: seq<Step>)
    requires Inv(s) && IsRun(s, steps)
    ensures Inv(After(s, steps))
    decreases steps
  {
    if steps != [] {
      StepKeepsInv(s, steps[0]);
      RunKeepsInv(Apply(s, steps[0]), steps[1..]);
    }
  }

  lemma ReachableInv(s: Sender)
    requires Reachable(s)
    ensures Inv(s)
  {
    var side, steps :| IsRun(Start(side), steps) && s == After(Start(side), steps);
    RunKeepsInv(Start(side), steps);
  }

  lemma {:induction false} RunExtends(s: Sender, steps: seq<Step>, step: Step)
    requires IsRun(s, steps) && Enabled(After(s, steps), step)
    ensures IsRun(s, steps + [step]) && After(s, steps + [step]) == Apply(After(s, steps), step)
    decreases steps
  {
    if steps == [] {
      assert [step][1..] == [];
    } else {
      RunExtends(Apply(s, steps[0]), steps[1..], step);
      assert (steps + [step])[1..] == steps[1..] + [step];
    }
  }

  lemma ReachableExtends(s: Sender, step: Step)
    requires Reachable(s) && Enabled(s, step)
    ensures Reachable(Apply(s, step))
  {
    var side, steps :| IsRun(Start(side), steps) && s == After(Start(side), steps);
    RunExtends(Start(side), steps, step);
  }

  lemma RunPrepends(s: Sender, step: Step, steps: seq<Step>)
    requires Enabled(s, step) && IsRun(Apply(s, step), steps)
    ensures IsRun(s, [step] + steps) && After(s, [step] + steps) == After(Apply(s, step), steps)
  {
    assert ([step] + steps)[1..] == steps;
  }

  // ---- Quota ----------------------------------------------------------------------

  predicate IsTcp(s: Sender, id: StreamId) {
    id in s.streams && s.streams[id].kind == Tcp
  }

  predicate IsLiveTcp(s: Sender, id: StreamId) {
    IsTcp(s, id) && s.streams[id].entry.Live?
  }

  // `outstanding` counts exactly the stream's frames in the shared queue, the
  // frame its bridge has a slot for and the frame whose slot is on its way
  // back; so a live stream never fills more than 16 of the 128 places.
  lemma QuotaIsExact(s: Sender, id: StreamId)
    requires Reachable(s) && IsLiveTcp(s, id)
    ensures s.streams[id].outstanding ==
            Count(s.queue, id) + s.streams[id].bridge.Slots() + if Unreleased(s, id) then 1 else 0
    ensures s.streams[id].outstanding <= STREAM_CHANNEL_QUOTA && Count(s.queue, id) <= STREAM_CHANNEL_QUOTA
    ensures |s.queue| <= DATA_CHANNEL_QUEUE_FRAMES
  {
    ReachableInv(s);
    assert IdOk(s, id);
  }

  // Giving a slot back never meets a zero counter on a registered TCP stream.
  lemma ReleaseClampsOnlyUdp(s: Sender)
    requires Reachable(s) && WriterEnabled(s, Release) && s.streams[s.writer.message.id].outstanding == 0
    ensures !IsLiveTcp(s, s.writer.message.id)
  {
    ReachableInv(s);
    assert IdOk(s, s.writer.message.id);
  }

  // What has reached the socket is a prefix of what was read, at every moment
  // and whatever has been removed or stopped.
  lemma SentIsPrefixOfRead(s: Sender, id: StreamId)
    requires Reachable(s) && IsTcp(s, id)
    ensures Payloads(s.wire, id) <= s.streams[id].read
    ensures Line(s, id) == s.streams[id].read
  {
    ReachableInv(s);
    assert IdOk(s, id);
  }

  // ---- Wake-ups ---------------------------------------------------------------------

  predicate Sleeps(s: Sender, id: StreamId) {
    IsLiveTcp(s, id) && s.streams[id].bridge.Asleep?
  }

  // Steps that end the stream or its bridge from outside.
  predicate Ends(step: Step, id: StreamId) {
    step == OnEntry(id, Remove) || step == OnBridge(id, Stop)
  }

  ghost predicate LeavesAlone(steps: seq<Step>, id: StreamId) {
    forall i | 0 <= i < |steps| :: !Ends(steps[i], id)
  }

  lemma LostStep(s: Sender, step: Step, id: StreamId)
    requires Inv(s) && Enabled(s, step) && Sleeps(s, id) && Own(s, id) == 0 && !Ends(step, id)
    ensures Sleeps(Apply(s, step), id) && Own(Apply(s, step), id) == 0
  {
    match step
    case OnBridge(r, b) => Appended(s.queue, Data(r, s.streams[r].bridge.Pending()), id);
    case OnEntry(_, _) =>
    case OnWriter(_) =>
    case PushText => Appended(s.queue, Text, id);
    case PushUdp(r, payload) => Appended(s.queue, Data(r, payload), id);
  }

  // Asleep with no frame of its own left, a bridge is never woken again while
  // its stream stays registered.
  lemma {:induction false} LostForever(s: Sender, steps: seq<Step>, id: StreamId)
    requires Inv(s) && IsRun(s, steps) && LeavesAlone(steps, id) && Sleeps(s, id) && Own(s, id) == 0
    ensures Sleeps(After(s, steps), id)
    decreases steps
  {
    if steps != [] {
      assert !Ends(steps[0], id);
      LostStep(s, steps[0], id);
      StepKeepsInv(s, steps[0]);
      LostForever(Apply(s, steps[0]), steps[1..], id);
    }
  }

  function FirstOf(q: seq<Message>, id: StreamId): nat {
    if q == [] || IsOf(q[0], id) then 0 else 1 + FirstOf(q[1..], id)
  }

  lemma {:induction false} FirstOfAppended(q: seq<Message>, m: Message, id: StreamId)
    requires Count(q, id) > 0
    ensures FirstOf(q + [m], id) == FirstOf(q, id) < |q|
  {
    if !IsOf(q[0], id) {
      FirstOfAppended(q[1..], m, id);
      assert (q + [m])[1..] == q[1..] + [m];
    }
  }

  // How many frames the writer still takes until it holds one of the stream's.
  function Distance(s: Sender, id: StreamId): nat {
    if Unreleased(s, id) then 0 else FirstOf(s.queue, id) + 1
  }

  lemma DistanceBounded(s: Sender, id: StreamId)
    requires Inv(s) && Own(s, id) > 0
    ensures Distance(s, id) <= DATA_CHANNEL_QUEUE_FRAMES
  {
    if !Unreleased(s, id) {
      FirstOfAppended(s.queue, Text, id);
    }
  }

  lemma DistanceAfterPush(s: Sender, m: Message, id: StreamId)
    requires Own(s, id) > 0
    ensures var s' := s.(queue := s.queue + [m]); Own(s', id) > 0 && Distance(s', id) == Distance(s, id)
  {
    Appended(s.queue, m, id);
    if !Unreleased(s, id) {
      FirstOfAppended(s.queue, m, id);
    }
  }

  function Takes(step: Step): nat {
    if step == OnWriter(Dequeue) then 1 else 0
  }

  // As long as the bridge sleeps on, every frame taken brings its own nearer.
  lemma SleepStep(s: Sender, step: Step, id: StreamId)
    requires Inv(s) && Enabled(s, step) && Sleeps(s, id) && Own(s, id) > 0 && Sleeps(Apply(s, step), id)
    ensures Own(Apply(s, step), id) > 0 && Distance(Apply(s, step), id) + Takes(step) == Distance(s, id)
  {
    match step
    case OnBridge(r, b) =>
      if b.Push? {
        DistanceAfterPush(s, Data(r, s.streams[r].bridge.Pending()), id);
      }
    case OnEntry(_, _) =>
    case OnWriter(_) =>
    case PushText => DistanceAfterPush(s, Text, id);
    case PushUdp(r, payload) => DistanceAfterPush(s, Data(r, payload), id);
  }

  ghost predicate SleepsThroughout(s: Sender, steps: seq<Step>, id: StreamId)
    requires IsRun(s, steps)
    decreases steps
  {
    Sleeps(s, id) && (steps != [] ==> SleepsThroughout(Apply(s, steps[0]), steps[1..], id))
  }

  function Dequeues(steps: seq<Step>): nat {
    if steps == [] then 0 else Takes(steps[0]) + Dequeues(steps[1..])
  }

  // A bridge that fell asleep with a frame of its own on the channel is woken
  // before the writer has taken more than 128 further frames.
  lemma {:induction false} WokenInTime(s: Sender, steps: seq<Step>, id: StreamId)
    requires Inv(s) && IsRun(s, steps) && SleepsThroughout(s, steps, id) && Own(s, id) > 0
    ensures Dequeues(steps) <= Distance(s, id) <= DATA_CHANNEL_QUEUE_FRAMES
    decreases steps
  {
    DistanceBounded(s, id);
    if steps != [] {
      SleepStep(s, steps[0], id);
      StepKeepsInv(s, steps[0]);
      WokenInTime(Apply(s, steps[0]), steps[1..], id);
    }
  }

  function Stage(w: Writer): nat {
    match w
    case Ready => 0
    case Sending(_) => 1
    case Releasing(_) => 2
    case Dequeued(_) => 3
  }

  function NextWriterStep(s: Sender): WriterStep {
    match s.writer
    case Ready => Dequeue
    case Dequeued(_) => LookSlot
    case Releasing(_) => Release
    case Sending(_) => Send
  }

  // The writer alone can always bring the wake-up about.
  lemma {:induction false} WriterWakes(s: Sender, id: StreamId) returns (steps: seq<Step>)
    requires Inv(s) && Sleeps(s, id) && Own(s, id) > 0
    ensures IsRun(s, steps) && LeavesAlone(steps, id) && !Sleeps(After(s, steps), id)
    decreases 4 * Distance(s, id) + Stage(s.writer)
  {
    var step := OnWriter(NextWriterStep(s));
    var s' := Apply(s, step);
    StepKeepsInv(s, step);
    if !Sleeps(s', id) {
      steps := [step];
      assert [step][1..] == [];
    } else {
      SleepStep(s, step, id);
      var rest := WriterWakes(s', id);
      steps := [step] + rest;
      RunPrepends(s, step, rest);
    }
  }

  // `acquire_stream_slot` looks at the slot and enrols for the wake-up in two
  // steps. Provided its stream stays registered, the enrolled bridge can wake
  // again if and only if a frame of its own was still outstanding when it
  // enrolled; with both steps in one it always is, sixteen of them.
  lemma EnrolWakesIffOutstanding(s: Sender, id: StreamId)
    requires Reachable(s) && IsLiveTcp(s, id) && s.streams[id].bridge.Enrolling?
    ensures s.streams[id].outstanding > 0 <==>
            exists steps :: var s' := Apply(s, OnBridge(id, Enrol));
                            IsRun(s', steps) && LeavesAlone(steps, id) && !Sleeps(After(s', steps), id)
  {
    ReachableInv(s);
    assert IdOk(s, id);
    var s' := Apply(s, OnBridge(id, Enrol));
    StepKeepsInv(s, OnBridge(id, Enrol));
    assert Own(s', id) == Own(s, id) == s.streams[id].outstanding;
    if Own(s', id) > 0 {
      var steps := WriterWakes(s', id);
    } else {
      forall steps | IsRun(s', steps) && LeavesAlone(steps, id) ensures Sleeps(After(s', steps), id) {
        LostForever(s', steps, id);
      }
    }
  }

  lemma CheckAndEnrolAtOnce(s: Sender, id: StreamId)
    requires Reachable(s) && IsLiveTcp(s, id) && s.streams[id].bridge.Checked?
    ensures var s' := Apply(s, OnBridge(id, TrySlot));
            s'.streams[id].bridge.Enrolling? ==>
              Own(Apply(s', OnBridge(id, Enrol)), id) == STREAM_CHANNEL_QUOTA
  {
    ReachableInv(s);
    assert IdOk(s, id);
  }

  // The writer can empty the queue while a bridge stands in the gap.
  lemma {:induction false} DrainInGap(s: Sender, id: StreamId) returns (drained: Sender)
    requires Reachable(s) && IsLiveTcp(s, id) && s.streams[id].bridge.Enrolling?
    ensures Reachable(drained) && IsLiveTcp(drained, id) && drained.streams[id].bridge.Enrolling?
    ensures drained.side == s.side && Own(drained, id) == 0
    decreases 4 * |s.queue| + Stage(s.writer)
  {
    ReachableInv(s);
    if s.writer.Ready? && s.queue == [] {
      drained := s;
    } else {
      var step := OnWriter(NextWriterStep(s));
      ReachableExtends(s, step);
      drained := DrainInGap(Apply(s, step), id);
    }
  }

  // Stream 1 is live and idle with k frames queued.
  ghost predicate Filled(s: Sender, k: nat) {
    IsLiveTcp(s, 1) && s.streams[1].bridge.Idle? && !s.streams[1].slotless
    && s.streams[1].outstanding == k && |s.queue| == k
  }

  lemma OneMoreFrame(s: Sender, k: nat) returns (s': Sender)
    requires Reachable(s) && Filled(s, k) && k < STREAM_CHANNEL_QUOTA
    ensures Reachable(s') && Filled(s', k + 1) && s'.side == s.side && s'.writer == s.writer
  {
    s' := s;
    ReachableExtends(s', OnBridge(1, Read([0])));
    s' := ApplyBridge(s', 1, Read([0]));
    ReachableExtends(s', OnBridge(1, CheckAlive));
    s' := ApplyBridge(s', 1, CheckAlive);
    ReachableExtends(s', OnBridge(1, TrySlot));
    s' := ApplyBridge(s', 1, TrySlot);
    ReachableExtends(s', OnBridge(1, Push));
    s' := ApplyBridge(s', 1, Push);
  }

  lemma OpenAndIdle(side: Side) returns (s: Sender)
    ensures Reachable(s) && Filled(s, 0) && s.side == side && s.writer.Ready?
  {
    s := Start(side);
    assert IsRun(s, []) && After(s, []) == s;
    ReachableExtends(s, OnEntry(1, Open(Tcp)));
    s := Apply(s, OnEntry(1, Open(Tcp)));
    if side.Server? {
      ReachableExtends(s, OnBridge(1, FetchSlot));
      s := ApplyBridge(s, 1, FetchSlot);
    }
  }

  lemma {:induction false} FillTo(side: Side, k: nat) returns (s: Sender)
    requires k <= STREAM_CHANNEL_QUOTA
    ensures Reachable(s) && Filled(s, k) && s.side == side && s.writer.Ready?
    decreases k
  {
    if k == 0 {
      s := OpenAndIdle(side);
    } else {
      s := FillTo(side, k - 1);
      s := OneMoreFrame(s, k - 1);
    }
  }

  lemma ReachGap(side: Side) returns (s: Sender)
    ensures Reachable(s) && IsLiveTcp(s, 1) && s.streams[1].bridge.Enrolling? && s.side == side && s.writer.Ready?
    ensures s.streams[1].outstanding == STREAM_CHANNEL_QUOTA
  {
    s := FillTo(side, STREAM_CHANNEL_QUOTA);
    ReachableExtends(s, OnBridge(1, Read([0])));
    s := ApplyBridge(s, 1, Read([0]));
    ReachableExtends(s, OnBridge(1, CheckAlive));
    s := ApplyBridge(s, 1, CheckAlive);
    ReachableExtends(s, OnBridge(1, TrySlot));
    s := ApplyBridge(s, 1, TrySlot);
  }

  // So the lost wake-up is a run of the code: all sixteen frames leave between
  // the look at the slot and the enrolment.
  lemma LostWakeupReachable(side: Side)
    ensures exists s: Sender :: s.side == side && Reachable(s) && Sleeps(s, 1) && Own(s, 1) == 0
  {
    var s := ReachGap(side);
    s := DrainInGap(s, 1);
    ReachableExtends(s, OnBridge(1, Enrol));
    assert Own(ApplyBridge(s, 1, Enrol), 1) == 0;
  }

  // ---- Removal and the sleeping bridge ------------------------------------------------

  predicate IsGone(s: Sender, id: StreamId) {
    IsTcp(s, id) && s.streams[id].entry.Gone?
  }

  // The writer is about to wake this stream's bridge.
  predicate Notifies(s: Sender, id: StreamId) {
    s.writer.Releasing? && IsOf(s.writer.message, id)
  }

  ghost predicate ActsIn(steps: seq<Step>, id: StreamId) {
    exists i :: 0 <= i < |steps| && steps[i].OnBridge? && steps[i].id == id
  }

  // Woken by the removal and not yet back in `acquire`.
  lemma WokenStep(s: Sender, step: Step, id: StreamId, chunk: Bytes)
    requires IsGone(s, id) && !s.streams[id].slotless && Enabled(s, step)
    requires s.streams[id].bridge == Holding(chunk)
    ensures var s' := Apply(s, step);
            && IsGone(s', id) && !s'.streams[id].slotless
            && s'.streams[id].bridge ==
               if step.OnBridge? && step.id == id then Stopped(chunk, false) else Holding(chunk)
  {
  }

  lemma StoppedStep(s: Sender, step: Step, id: StreamId)
    requires IsTcp(s, id) && s.streams[id].bridge.Stopped? && Enabled(s, step)
    ensures var s' := Apply(s, step);
            IsTcp(s', id) && s'.streams[id].bridge == s.streams[id].bridge
            && !(step.OnBridge? && step.id == id)
  {
  }

  lemma {:induction false} StoppedForGood(s: Sender, steps: seq<Step>, id: StreamId)
    requires IsTcp(s, id) && s.streams[id].bridge.Stopped? && IsRun(s, steps)
    ensures IsTcp(After(s, steps), id) && After(s, steps).streams[id].bridge == s.streams[id].bridge
    decreases steps
  {
    if steps != [] {
      StoppedStep(s, steps[0], id);
      StoppedForGood(Apply(s, steps[0]), steps[1..], id);
    }
  }

  lemma {:induction false} WokenFails(s: Sender, steps: seq<Step>, id: StreamId, chunk: Bytes)
    requires IsGone(s, id) && !s.streams[id].slotless && IsRun(s, steps)
    requires s.streams[id].bridge == Holding(chunk)
    ensures IsTcp(After(s, steps), id)
    ensures After(s, steps).streams[id].bridge == if ActsIn(steps, id) then Stopped(chunk, false) else Holding(chunk)
    decreases steps
  {
    if steps != [] {
      WokenStep(s, steps[0], id, chunk);
      if steps[0].OnBridge? && steps[0].id == id {
        StoppedForGood(Apply(s, steps[0]), steps[1..], id);
      } else {
        WokenFails(Apply(s, steps[0]), steps[1..], id, chunk);
        ActsLater(steps, id);
      }
    }
  }

  lemma ActsLater(steps: seq<Step>, id: StreamId)
    requires steps != [] && !(steps[0].OnBridge? && steps[0].id == id)
    ensures ActsIn(steps, id) <==> ActsIn(steps[1..], id)
  {
    if i :| 0 <= i < |steps| && steps[i].OnBridge? && steps[i].id == id {
      assert steps[1..][i - 1] == steps[i];
    }
    if i :| 0 <= i < |steps[1..]| && steps[1..][i].OnBridge? && steps[1..][i].id == id {
      assert steps[i + 1] == steps[1..][i];
    }
  }

  // Removing a stream wakes its sleeping bridge, and whatever runs after that,
  // its acquire fails: the first thing it does is end, without a slot and with
  // its chunk in hand.
  lemma RemovalWakesSleeper(s: Sender, steps: seq<Step>, id: StreamId)
    requires Inv(s) && IsTcp(s, id) && s.streams[id].entry.Removing? && s.streams[id].bridge.Asleep?
    requires IsRun(Apply(s, OnEntry(id, Reset)), steps)
    ensures var s' := After(Apply(s, OnEntry(id, Reset)), steps);
            && IsTcp(s', id)
            && s'.streams[id].bridge == (if ActsIn(steps, id) then Stopped(s.streams[id].bridge.chunk, false)
                                         else Holding(s.streams[id].bridge.chunk))
  {
    assert IdOk(s, id);
    WokenFails(Apply(s, OnEntry(id, Reset)), steps, id, s.streams[id].bridge.chunk);
  }

  // Out of the map for good, whether the slot was reset or not.
  predicate IsClosed(s: Sender, id: StreamId) {
    IsTcp(s, id) && (s.streams[id].entry.Gone? || s.streams[id].entry.Abandoned?)
  }

  lemma StrandedStep(s: Sender, step: Step, id: StreamId)
    requires IsClosed(s, id) && s.streams[id].bridge.Asleep? && !Notifies(s, id)
    requires Enabled(s, step) && step != OnBridge(id, Stop)
    ensures var s' := Apply(s, step); IsClosed(s', id) && s'.streams[id].bridge.Asleep? && !Notifies(s', id)
  {
  }

  lemma {:induction false} AsleepOnceClosedStays(s: Sender, steps: seq<Step>, id: StreamId)
    requires IsClosed(s, id) && s.streams[id].bridge.Asleep? && !Notifies(s, id)
    requires IsRun(s, steps) && OnBridge(id, Stop) !in steps
    ensures IsTcp(After(s, steps), id) && After(s, steps).streams[id].bridge.Asleep?
    decreases steps
  {
    if steps != [] {
      assert steps[0] in steps && (forall x | x in steps[1..] :: x in steps);
      StrandedStep(s, steps[0], id);
      AsleepOnceClosedStays(Apply(s, steps[0]), steps[1..], id);
    }
  }

  // Some run short of an abort of the bridge wakes it.
  ghost predicate CanWake(s: Sender, id: StreamId) {
    exists steps :: IsRun(s, steps) && OnBridge(id, Stop) !in steps
                    && IsTcp(After(s, steps), id) && !After(s, steps).streams[id].bridge.Asleep?
  }

  lemma WakesNow(s: Sender, step: Step, id: StreamId)
    requires Enabled(s, step) && step != OnBridge(id, Stop)
    requires IsTcp(Apply(s, step), id) && !Apply(s, step).streams[id].bridge.Asleep?
    ensures CanWake(s, id)
  {
    assert [step][1..] == [] && After(Apply(s, step), []) == Apply(s, step);
    assert IsRun(s, [step]);
  }

  lemma WakesLater(s: Sender, step: Step, id: StreamId)
    requires Enabled(s, step) && step != OnBridge(id, Stop) && CanWake(Apply(s, step), id)
    ensures CanWake(s, id)
  {
    var s' := Apply(s, step);
    var steps :| IsRun(s', steps) && OnBridge(id, Stop) !in steps
                 && IsTcp(After(s', steps), id) && !After(s', steps).streams[id].bridge.Asleep?;
    RunPrepends(s, step, steps);
  }

  // A sleeping bridge is out of reach of everything but its own abort if and
  // only if its slot has been reset, or will never be, and the writer is not
  // about to notify it.
  lemma SleeperWakesIff(s: Sender, id: StreamId)
    requires IsTcp(s, id) && s.streams[id].bridge.Asleep?
    ensures CanWake(s, id) <==> !IsClosed(s, id) || Notifies(s, id)
  {
    if s.streams[id].entry.Live? {
      WakesNow(Apply(s, OnEntry(id, Remove)), OnEntry(id, Reset), id);
      WakesLater(s, OnEntry(id, Remove), id);
    } else if s.streams[id].entry.Removing? {
      WakesNow(s, OnEntry(id, Reset), id);
    } else if Notifies(s, id) {
      WakesNow(s, OnWriter(Release), id);
    } else {
      forall steps | IsRun(s, steps) && OnBridge(id, Stop) !in steps
        ensures IsTcp(After(s, steps), id) && After(s, steps).streams[id].bridge.Asleep? {
        AsleepOnceClosedStays(s, steps, id);
      }
    }
  }

  predicate Stranded(s: Sender, id: StreamId) {
    IsClosed(s, id) && s.streams[id].bridge.Asleep? && !Notifies(s, id)
  }

  // Where a closed stream's bridge is about to strand: asleep already, in the
  // gap before its enrolment, or about to look at a slot that is still full.
  predicate Endangered(s: Sender, id: StreamId) {
    && IsClosed(s, id)
    && var st := s.streams[id];
       || (st.bridge.Asleep? && !Notifies(s, id))
       || st.bridge.Enrolling?
       || (st.bridge.Checked? && st.outstanding >= STREAM_CHANNEL_QUOTA)
  }

  ghost predicate CanStrand(s: Sender, id: StreamId) {
    exists steps :: IsRun(s, steps) && OnBridge(id, Stop) !in steps && Stranded(After(s, steps), id)
  }

  lemma StrandsAfter(s: Sender, step: Step, id: StreamId)
    requires Enabled(s, step) && step != OnBridge(id, Stop) && CanStrand(Apply(s, step), id)
    ensures CanStrand(s, id)
  {
    var s' := Apply(s, step);
    var steps :| IsRun(s', steps) && OnBridge(id, Stop) !in steps && Stranded(After(s', steps), id);
    RunPrepends(s, step, steps);
  }

  lemma StrandedCanStrand(s: Sender, id: StreamId)
    requires Stranded(s, id)
    ensures CanStrand(s, id)
  {
    assert IsRun(s, []) && After(s, []) == s;
  }

  lemma EnrollingStrands(s: Sender, id: StreamId)
    requires IsClosed(s, id) && s.streams[id].bridge.Enrolling?
    ensures CanStrand(s, id)
  {
    var s1 := if Notifies(s, id) then Apply(s, OnWriter(Release)) else s;
    StrandedCanStrand(Apply(s1, OnBridge(id, Enrol)), id);
    StrandsAfter(s1, OnBridge(id, Enrol), id);
    if Notifies(s, id) {
      StrandsAfter(s, OnWriter(Release), id);
    }
  }

  lemma SafeStep(s: Sender, step: Step, id: StreamId)
    requires IsClosed(s, id) && !Endangered(s, id) && Enabled(s, step)
    ensures IsClosed(Apply(s, step), id) && !Endangered(Apply(s, step), id)
  {
  }

  lemma {:induction false} SafeForGood(s: Sender, steps: seq<Step>, id: StreamId)
    requires IsClosed(s, id) && !Endangered(s, id) && IsRun(s, steps)
    ensures !Stranded(After(s, steps), id)
    decreases steps
  {
    if steps != [] {
      SafeStep(s, steps[0], id);
      SafeForGood(Apply(s, steps[0]), steps[1..], id);
    }
  }

  // The bridge of a closed stream can strand if and only if it stands at one of
  // those three places.
  lemma ClosedStrandsIff(s: Sender, id: StreamId)
    requires IsClosed(s, id)
    ensures CanStrand(s, id) <==> Endangered(s, id)
  {
    if !Endangered(s, id) {
      forall steps | IsRun(s, steps) ensures !Stranded(After(s, steps), id) {
        SafeForGood(s, steps, id);
      }
    } else if s.streams[id].bridge.Asleep? {
      StrandedCanStrand(s, id);
    } else if s.streams[id].bridge.Enrolling? {
      EnrollingStrands(s, id);
    } else {
      EnrollingStrands(Apply(s, OnBridge(id, TrySlot)), id);
      StrandsAfter(s, OnBridge(id, TrySlot), id);
    }
  }

  // A close that resets the slot can strand the bridge if and only if the bridge
  // is between its look at the slot and its enrolment at that moment.
  lemma ResetStrandsIffInGap(s: Sender, id: StreamId)
    requires IsTcp(s, id) && s.streams[id].entry.Removing?
    ensures CanStrand(Apply(s, OnEntry(id, Reset)), id) <==> s.streams[id].bridge.Enrolling?
  {
    ClosedStrandsIff(Apply(s, OnEntry(id, Reset)), id);
  }

  // A close cut short before that can strand it in two more places: asleep with
  // no notification under way, and about to look at a full slot.
  lemma AbandonStrandsIff(s: Sender, id: StreamId)
    requires IsTcp(s, id) && s.streams[id].entry.Removing?
    ensures CanStrand(Apply(s, OnEntry(id, Abandon)), id) <==>
            || s.streams[id].bridge.Enrolling?
            || (s.streams[id].bridge.Asleep? && !Notifies(s, id))
            || (s.streams[id].bridge.Checked? && s.streams[id].outstanding >= STREAM_CHANNEL_QUOTA)
  {
    ClosedStrandsIff(Apply(s, OnEntry(id, Abandon)), id);
  }

  // Both do happen, on either side: reachable bridges that nothing but an abort
  // can wake.
  lemma StrandedReachable(side: Side)
    ensures exists s: Sender :: s.side == side && Reachable(s) && IsGone(s, 1) && Stranded(s, 1) && !CanWake(s, 1)
  {
    var s := ReachGap(side);
    ReachableExtends(s, OnEntry(1, Remove));
    s := Apply(s, OnEntry(1, Remove));
    ReachableExtends(s, OnEntry(1, Reset));
    s := Apply(s, OnEntry(1, Reset));
    ReachableExtends(s, OnBridge(1, Enrol));
    s := ApplyBridge(s, 1, Enrol);
    SleeperWakesIff(s, 1);
  }

  // Here the bridge sleeps with sixteen frames of its own queued, far from the
  // gap, when its stream's remover is aborted.
  lemma AbandonedReachable(side: Side)
    ensures exists s: Sender :: s.side == side && Reachable(s) && Stranded(s, 1) && !CanWake(s, 1)
                                && Own(s, 1) == STREAM_CHANNEL_QUOTA
  {
    var s := ReachGap(side);
    ReachableInv(s);
    assert IdOk(s, 1);
    ReachableExtends(s, OnBridge(1, Enrol));
    s := ApplyBridge(s, 1, Enrol);
    ReachableExtends(s, OnEntry(1, Remove));
    s := Apply(s, OnEntry(1, Remove));
    ReachableExtends(s, OnEntry(1, Abandon));
    s := Apply(s, OnEntry(1, Abandon));
    SleeperWakesIff(s, 1);
  }

  // ---- Looking and enrolling at once ----------------------------------------------------

  // The step is a look at a full slot.
  predicate FailsLook(s: Sender, step: Step) {
    step.OnBridge? && step.bridge.TrySlot? && step.id in s.streams
    && s.streams[step.id].outstanding >= STREAM_CHANNEL_QUOTA
  }

  // Every look at a full slot is followed at once by its enrolment, as if both
  // were under one lock.
  ghost predicate LooksAtOnce(s: Sender, steps: seq<Step>)
    requires IsRun(s, steps)
    decreases steps
  {
    steps != [] ==>
      && (FailsLook(s, steps[0]) ==> |steps| > 1 && steps[1] == OnBridge(steps[0].id, Enrol))
      && LooksAtOnce(Apply(s, steps[0]), steps[1..])
  }

  predicate InGap(s: Sender, id: StreamId) {
    IsLiveTcp(s, id) && s.streams[id].bridge.Enrolling?
  }

  // Asleep and live means a frame of its own is still to come.
  predicate Covered(s: Sender, id: StreamId) {
    Sleeps(s, id) ==> Own(s, id) > 0
  }

  lemma CoveredStep(s: Sender, step: Step, id: StreamId)
    requires Inv(s) && Enabled(s, step) && Covered(s, id) && !InGap(s, id)
    ensures Covered(Apply(s, step), id)
    ensures InGap(Apply(s, step), id) ==>
              step == OnBridge(id, TrySlot) && FailsLook(s, step) && Own(Apply(s, step), id) > 0
  {
    assert IdOk(s, id);
    if Sleeps(s, id) && Sleeps(Apply(s, step), id) {
      SleepStep(s, step, id);
    }
  }

  lemma EnrolCovers(s: Sender, id: StreamId)
    requires BridgeEnabled(s, id, Enrol) && Own(s, id) > 0
    ensures Covered(ApplyBridge(s, id, Enrol), id) && !InGap(ApplyBridge(s, id, Enrol), id)
  {
  }

  lemma {:induction false} CoveredRun(s: Sender, steps: seq<Step>, id: StreamId)
    requires Inv(s) && IsRun(s, steps) && LooksAtOnce(s, steps) && Covered(s, id) && !InGap(s, id)
    ensures Covered(After(s, steps), id)
    decreases |steps|
  {
    if steps != [] {
      var s1 := Apply(s, steps[0]);
      CoveredStep(s, steps[0], id);
      StepKeepsInv(s, steps[0]);
      if InGap(s1, id) {
        EnrolCovers(s1, id);
        StepKeepsInv(s1, steps[1]);
        CoveredRun(Apply(s1, steps[1]), steps[1..][1..], id);
      } else {
        CoveredRun(s1, steps[1..], id);
      }
    }
  }

  // With the look and the enrolment in one step no wake-up is ever lost: in every
  // such run a bridge asleep on a live stream has a frame of its own to come, and
  // however the run goes on, it is woken within 128 dequeues.
  lemma AtOnceNeverLosesWakeup(side: Side, steps: seq<Step>, more: seq<Step>, id: StreamId)
    requires IsRun(Start(side), steps) && LooksAtOnce(Start(side), steps)
    requires var s := After(Start(side), steps);
             Sleeps(s, id) && IsRun(s, more) && SleepsThroughout(s, more, id)
    ensures Own(After(Start(side), steps), id) > 0 && Dequeues(more) <= DATA_CHANNEL_QUEUE_FRAMES
  {
    var s := After(Start(side), steps);
    CoveredRun(Start(side), steps, id);
    RunKeepsInv(Start(side), steps);
    WokenInTime(s, more, id);
  }

  // ---- Everything can be sent -----------------------------------------------------------

  // Only the writer and this stream's bridge move, and the bridge is not stopped.
  predicate IsPlain(step: Step, id: StreamId) {
    step.OnWriter? || (step.OnBridge? && step.id == id && !step.bridge.Stop?)
  }

  ghost predicate Plain(steps: seq<Step>, id: StreamId) {
    forall i | 0 <= i < |steps| :: IsPlain(steps[i], id)
  }

  ghost predicate Reaches(s: Sender, e: Sender, id: StreamId) {
    exists steps :: IsRun(s, steps) && Plain(steps, id) && After(s, steps) == e
  }

  lemma ReachesSelf(s: Sender, id: StreamId)
    ensures Reaches(s, s, id)
  {
    assert IsRun(s, []) && Plain([], id) && After(s, []) == s;
  }

  lemma ReachesFrom(s: Sender, step: Step, e: Sender, id: StreamId)
    requires Enabled(s, step) && IsPlain(step, id) && Reaches(Apply(s, step), e, id)
    ensures Reaches(s, e, id)
  {
    var s' := Apply(s, step);
    var steps :| IsRun(s', steps) && Plain(steps, id) && After(s', steps) == e;
    RunPrepends(s, step, steps);
    assert Plain([step] + steps, id);
  }

  // What the writer has taken and not yet handed to the socket.
  function AtHand(s: Sender): seq<Message> {
    if s.writer.Ready? then [] else [s.writer.message]
  }

  // A live TCP stream whose bridge is between two reads.
  predicate ReadyToRead(s: Sender, id: StreamId) {
    IsLiveTcp(s, id) && s.streams[id].bridge.Idle? && !s.streams[id].slotless
  }

  lemma WriterMovesOn(s: Sender, id: StreamId)
    requires Inv(s) && ReadyToRead(s, id) && !(s.writer.Ready? && s.queue == [])
    ensures var step := NextWriterStep(s);
            && WriterEnabled(s, step)
            && var s' := ApplyWriter(s, step);
               && ReadyToRead(s', id) && s'.streams[id].read == s.streams[id].read
               && s'.wire + AtHand(s') + s'.queue == s.wire + AtHand(s) + s.queue
               && 4 * |s'.queue| + Stage(s'.writer) < 4 * |s.queue| + Stage(s.writer)
  {
  }

  // Left alone, the writer hands over everything queued, in order.
  lemma {:induction false} Drains(s: Sender, id: StreamId) returns (e: Sender)
    requires Inv(s) && ReadyToRead(s, id)
    ensures Reaches(s, e, id) && Inv(e) && ReadyToRead(e, id) && e.streams[id].read == s.streams[id].read
    ensures e.queue == [] && e.writer.Ready? && e.wire == s.wire + AtHand(s) + s.queue
    decreases 4 * |s.queue| + Stage(s.writer)
  {
    if s.writer.Ready? && s.queue == [] {
      e := s;
      ReachesSelf(s, id);
      assert s.wire + [] + [] == s.wire;
    } else {
      var step := NextWriterStep(s);
      WriterMovesOn(s, id);
      StepKeepsInv(s, OnWriter(step));
      e := Drains(ApplyWriter(s, step), id);
      ReachesFrom(s, OnWriter(step), e, id);
    }
  }

  // From between two reads of an empty channel, a chunk gets into the queue.
  lemma ChunkQueues(s: Sender, id: StreamId, chunk: Bytes) returns (e: Sender)
    requires Inv(s) && ReadyToRead(s, id) && s.queue == [] && s.writer.Ready? && 0 < |chunk| <= TCP_CHUNK_SIZE
    ensures forall f :: Reaches(e, f, id) ==> Reaches(s, f, id)
    ensures Inv(e) && ReadyToRead(e, id) && e.streams[id].read == s.streams[id].read + chunk
    ensures e.queue == [Data(id, chunk)] && e.writer.Ready? && e.wire == s.wire
  {
    assert IdOk(s, id);
    var s1 := ApplyBridge(s, id, Read(chunk));
    StepKeepsInv(s, OnBridge(id, Read(chunk)));
    var s2 := ApplyBridge(s1, id, CheckAlive);
    StepKeepsInv(s1, OnBridge(id, CheckAlive));
    var s3 := ApplyBridge(s2, id, TrySlot);
    StepKeepsInv(s2, OnBridge(id, TrySlot));
    assert s3.streams[id].bridge == Granted(chunk);
    e := ApplyBridge(s3, id, Push);
    StepKeepsInv(s3, OnBridge(id, Push));
    forall f | Reaches(e, f, id) ensures Reaches(s, f, id) {
      ReachesFrom(s3, OnBridge(id, Push), f, id);
      ReachesFrom(s2, OnBridge(id, TrySlot), f, id);
      ReachesFrom(s1, OnBridge(id, CheckAlive), f, id);
      ReachesFrom(s, OnBridge(id, Read(chunk)), f, id);
    }
  }

  lemma {:induction false} ReachesTrans(s: Sender, m: Sender, e: Sender, id: StreamId, steps: seq<Step>)
    requires IsRun(s, steps) && Plain(steps, id) && After(s, steps) == m && Reaches(m, e, id)
    ensures Reaches(s, e, id)
    decreases steps
  {
    if steps != [] {
      assert forall i | 0 <= i < |steps[1..]| :: steps[1..][i] == steps[i + 1];
      ReachesTrans(Apply(s, steps[0]), m, e, id, steps[1..]);
      ReachesFrom(s, steps[0], e, id);
    }
  }

  // Whatever is queued, a live bridge can read any chunk and bring it to the
  // socket behind everything queued before, and is then ready for the next.
  lemma ChunkCanBeSent(s: Sender, id: StreamId, chunk: Bytes) returns (e: Sender)
    requires Inv(s) && ReadyToRead(s, id) && 0 < |chunk| <= TCP_CHUNK_SIZE
    ensures Reaches(s, e, id) && Inv(e) && ReadyToRead(e, id) && e.queue == [] && e.writer.Ready?
    ensures e.wire == s.wire + AtHand(s) + s.queue + [Data(id, chunk)]
    ensures e.streams[id].read == s.streams[id].read + chunk && e.streams[id].outstanding == 0
  {
    var m := Drains(s, id);
    var q := ChunkQueues(m, id, chunk);
    e := Drains(q, id);
    var steps :| IsRun(s, steps) && Plain(steps, id) && After(s, steps) == m;
    ReachesTrans(s, m, e, id, steps);
    assert m.wire + [] + [Data(id, chunk)] == m.wire + [Data(id, chunk)];
    assert IdOk(e, id);
  }

  // A bridge that looks for its slot once its stream is gone sends all the same,
  // asking nobody and taking no slot; one that finds its stream does not.
  lemma SlotlessSends(s: Sender, id: StreamId, chunk: Bytes)
    requires BridgeEnabled(s, id, FetchSlot) && 0 < |chunk| <= TCP_CHUNK_SIZE
    ensures var s1 := ApplyBridge(s, id, FetchSlot);
            && BridgeEnabled(s1, id, Read(chunk))
            && var s2 := ApplyBridge(s1, id, Read(chunk));
               && (BridgeEnabled(s2, id, SkipSlot) <==> !s.streams[id].entry.Live?)
               && (BridgeEnabled(s2, id, CheckAlive) <==> s.streams[id].entry.Live?)
               && (BridgeEnabled(s2, id, SkipSlot) && |s.queue| < DATA_CHANNEL_QUEUE_FRAMES ==>
                     var s3 := ApplyBridge(s2, id, SkipSlot);
                     && BridgeEnabled(s3, id, Push)
                     && var s4 := ApplyBridge(s3, id, Push);
                        && s4.queue == s.queue + [Data(id, chunk)] && s4.streams.Keys == s.streams.Keys
                        && s4.streams[id].outstanding == s.streams[id].outstanding
                        && s4.streams[id].read == s.streams[id].read + chunk && s4.streams[id].bridge.Idle?)
  {
  }

  // A datagram and a text frame get in line the same way.
  lemma UnslottedCanBeSent(s: Sender, m: Message, id: StreamId) returns (e: Sender)
    requires Inv(s) && ReadyToRead(s, id) && |s.queue| < DATA_CHANNEL_QUEUE_FRAMES
    requires m.Data? ==> m.id in s.streams && s.streams[m.id].kind == Udp
    ensures var step := if m.Data? then PushUdp(m.id, m.payload) else PushText;
            Enabled(s, step) && Reaches(Apply(s, step), e, id)
    ensures e.wire == s.wire + AtHand(s) + s.queue + [m]
  {
    var step := if m.Data? then PushUdp(m.id, m.payload) else PushText;
    StepKeepsInv(s, step);
    e := Drains(Apply(s, step), id);
    assert s.wire + AtHand(s) + (s.queue + [m]) == s.wire + AtHand(s) + s.queue + [m];
  }

  // The quota refuses a frame if and only if sixteen of the stream's own frames
  // are queued or not yet given back.
  lemma GrantsIffBelowQuota(s: Sender, id: StreamId)
    requires Reachable(s) && IsLiveTcp(s, id) && s.streams[id].bridge.Checked?
    ensures var chunk := s.streams[id].bridge.chunk;
            ApplyBridge(s, id, TrySlot).streams[id].bridge ==
            if Count(s.queue, id) + (if Unreleased(s, id) then 1 else 0) < 16 then Granted(chunk) else Enrolling(chunk)
  {
    ReachableInv(s);
    assert IdOk(s, id);
  }
}
