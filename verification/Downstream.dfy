// Public client to local service, the agent's end: frames of one stream come
// off a data socket in order while its `StreamOpen` comes over the control
// socket. Steps are the code's own: the router looks the stream up and acts on
// the answer later, and the `StreamOpen` handler inserts the stream, collects
// the pending frames, sends them one by one and only then spawns the bridge.
// Frames are named by their arrival number.
module Downstream {
  import opened PendingBuffer
  import SharedQueue

  const STREAM_QUEUE_FRAMES: nat := 64

  datatype Route = Free | Missing(n: nat) | Found(n: nat)

  datatype Open = Unopened | Inserted | Flushing(todo: seq<nat>) | Opened

  // `arrivals` are the payloads the router will meet; it never changes.
  // `writing` is false once the bridge's write task has ended.
  datatype State = State(
    arrivals: seq<Bytes>, next: nat, route: Route, open: Open, registered: bool,
    pending: Entry<nat>, queue: seq<nat>, written: seq<nat>, writing: bool)

  datatype Step =
    | Look | Buffer | Send | GiveUp
    | Insert | TakePending | FlushOne | Spawn
    | Drain | Unregister | StopWriting | Expire

  function Start(arrivals: seq<Bytes>): State {
    State(arrivals, 0, Free, Unopened, false, Empty(), [], [], true)
  }

  // Nobody receives from the stream queue before the bridge is spawned. A send
  // gives up only on a full queue, or once the bridge may have gone.
  predicate Enabled(s: State, step: Step) {
    match step
    case Look => s.route.Free? && s.next < |s.arrivals|
    case Buffer => s.route.Missing? && s.route.n < |s.arrivals|
    case Send => s.route.Found? && |s.queue| < STREAM_QUEUE_FRAMES && s.writing
    case GiveUp => s.route.Found? && (s.open.Opened? || |s.queue| >= STREAM_QUEUE_FRAMES)
    case Insert => s.open.Unopened?
    case TakePending => s.open.Inserted?
    case FlushOne => s.open.Flushing? && s.open.todo != [] && |s.queue| < STREAM_QUEUE_FRAMES
    case Spawn => s.open.Flushing? && s.open.todo == []
    case Drain => s.open.Opened? && s.queue != [] && s.writing
    case Unregister => s.open.Opened? && s.registered
    case StopWriting => s.open.Opened?
    case Expire => true
  }

  function Apply(s: State, step: Step): State
    requires Enabled(s, step)
  {
    match step
    case Look => s.(next := s.next + 1, route := if s.registered then Found(s.next) else Missing(s.next))
    case Buffer =>
      s.(route := Free,
         pending := Buffered(s.pending, s.route.n, |s.arrivals[s.route.n]|, PENDING_STREAM_HARD_BYTES))
    case Send => s.(route := Free, queue := s.queue + [s.route.n])
    case GiveUp => s.(route := Free, registered := false)
    case Insert => s.(open := Inserted, registered := true)
    case TakePending => s.(open := Flushing(s.pending.frames), pending := Empty())
    case FlushOne => s.(open := Flushing(s.open.todo[1..]), queue := s.queue + [s.open.todo[0]])
    case Spawn => s.(open := Opened)
    case Drain => s.(queue := s.queue[1..], written := s.written + [s.queue[0]])
    case Unregister => s.(registered := false)
    case StopWriting => s.(writing := false)
    case Expire => s.(pending := Empty())
  }

  ghost predicate IsRun(s: State, steps: seq<Step>)
    decreases steps
  {
    steps != [] ==> Enabled(s, steps[0]) && IsRun(Apply(s, steps[0]), steps[1..])
  }

  ghost function After(s: State, steps: seq<Step>): State
    requires IsRun(s, steps)
    decreases steps
  {
    if steps == [] then s else After(Apply(s, steps[0]), steps[1..])
  }

  // ---- Order --------------------------------------------------------------------

  predicate BeforeTake(s: State) {
    s.open.Unopened? || s.open.Inserted?
  }

  // Frames already given to the bridge's queue, in the order it gets them.
  function Delivered(s: State): seq<nat> {
    s.written + s.queue
  }

  function Waiting(s: State): seq<nat> {
    if s.open.Flushing? then s.open.todo else if BeforeTake(s) then s.pending.frames else []
  }

  function Held(s: State): seq<nat> {
    if s.route.Free? then [] else [s.route.n]
  }

  // Everything that has arrived and will still get, or has got, to the bridge.
  function Line(s: State): seq<nat> {
    Delivered(s) + Waiting(s) + Held(s)
  }

  ghost predicate InOrder(q: seq<nat>) {
    forall i | 0 <= i < |q| :: q[i] == i
  }

  // Every frame that has arrived is still in line, and the line is in order.
  ghost predicate Sound(s: State) {
    InOrder(Line(s)) && |Line(s)| == s.next
  }

  predicate Closed(s: State) {
    !s.registered && !s.open.Unopened?
  }

  predicate Fits(s: State) {
    s.route.Missing? && s.route.n < |s.arrivals|
    && s.pending.bytes + |s.arrivals[s.route.n]| <= PENDING_STREAM_HARD_BYTES
  }

  // The steps at which order or a frame is lost, each told by a test on the
  // state: sending past frames not yet flushed; buffering where nobody collects
  // any more, or too much, or after a frame was given up; expiring frames that
  // were still to be collected.
  predicate Races(s: State, step: Step) {
    match step
    case Send => Waiting(s) != []
    case Buffer =>
      if s.open.Unopened? then !Fits(s)
      else if s.open.Inserted? then Closed(s) || !Fits(s)
      else !Closed(s)
    case Expire => BeforeTake(s) && s.pending.frames != []
    case _ => false
  }

  // Steps that end the stream while frames may still come.
  predicate Closes(step: Step) {
    step.GiveUp? || step.Unregister? || step.StopWriting?
  }

  ghost predicate RaceFree(s: State, steps: seq<Step>)
    requires IsRun(s, steps)
    decreases steps
  {
    steps != [] ==> !Races(s, steps[0]) && RaceFree(Apply(s, steps[0]), steps[1..])
  }

  ghost predicate StaysOpen(steps: seq<Step>) {
    forall i | 0 <= i < |steps| :: !Closes(steps[i])
  }

  // The steps that lose a frame or the order, on any stream, closed or not:
  // sending past frames not yet flushed; buffering where nobody collects any
  // more, or too much; giving a frame up; expiring frames still to be collected;
  // ending the write task over queued frames.
  predicate Loses(s: State, step: Step) {
    match step
    case Send => Waiting(s) != []
    case Buffer => !BeforeTake(s) || !Fits(s)
    case GiveUp => true
    case Expire => BeforeTake(s) && s.pending.frames != []
    case StopWriting => s.queue != []
    case _ => false
  }

  lemma BufferKeepsLine(s: State)
    requires Enabled(s, Buffer) && !Loses(s, Buffer)
    ensures Line(Apply(s, Buffer)) == Line(s)
  {
    assert Delivered(s) + (s.pending.frames + [s.route.n]) + [] == Delivered(s) + s.pending.frames + [s.route.n];
  }

  // No other step touches the line, except that a look adds the next frame.
  lemma KeepsLine(s: State, step: Step)
    requires Enabled(s, step) && !Loses(s, step)
    ensures Line(Apply(s, step)) == if step.Look? then Line(s) + [s.next] else Line(s)
  {
    match step
    case Buffer => BufferKeepsLine(s);
    case Drain => assert Delivered(Apply(s, step)) == Delivered(s);
    case _ =>
  }

  lemma SoundUnlessLost(s: State, step: Step)
    requires Enabled(s, step) && Sound(s) && !Loses(s, step)
    ensures Sound(Apply(s, step))
  {
    KeepsLine(s, step);
  }

  lemma SoundStep(s: State, step: Step)
    requires Enabled(s, step) && Sound(s) && !Closed(s) && !Races(s, step) && !Closes(step)
    ensures Sound(Apply(s, step)) && !Closed(Apply(s, step))
  {
    SoundUnlessLost(s, step);
  }

  // Broken for good: a frame of the bridge's sits at the wrong place, or fewer
  // frames are in line than have arrived.
  ghost predicate Broken(s: State) {
    !InOrder(Delivered(s)) || |Line(s)| < s.next
  }

  lemma BrokenIsNotSound(s: State)
    requires Broken(s)
    ensures !Sound(s)
  {
    if !InOrder(Delivered(s)) {
      var i :| 0 <= i < |Delivered(s)| && Delivered(s)[i] != i;
      assert Line(s)[i] == Delivered(s)[i];
    }
  }

  lemma DeliveredGrows(s: State, step: Step)
    requires Enabled(s, step)
    ensures Delivered(s) <= Delivered(Apply(s, step))
    ensures |Line(Apply(s, step))| <= |Line(s)| + Apply(s, step).next - s.next
  {
  }

  lemma BrokenStep(s: State, step: Step)
    requires Enabled(s, step) && Broken(s)
    ensures Broken(Apply(s, step))
  {
    DeliveredGrows(s, step);
    if !InOrder(Delivered(s)) {
      var i :| 0 <= i < |Delivered(s)| && Delivered(s)[i] != i;
      assert Delivered(Apply(s, step))[i] == Delivered(s)[i];
    }
  }

  lemma RaceBreaks(s: State, step: Step)
    requires Enabled(s, step) && Sound(s) && !Closed(s) && Races(s, step)
    ensures Broken(Apply(s, step))
  {
    var s' := Apply(s, step);
    if step.Send? {
      // The frame skips ahead of those still waiting.
      var i := |Delivered(s)|;
      assert Line(s)[s.next - 1] == s.route.n == s.next - 1 > i;
      assert Delivered(s')[i] == s.route.n;
    } else {
      assert |Line(s')| < s.next;
    }
  }

  lemma {:induction false} BrokenStays(s: State, steps: seq<Step>)
    requires IsRun(s, steps) && Broken(s)
    ensures !Sound(After(s, steps))
    decreases steps
  {
    if steps == [] {
      BrokenIsNotSound(s);
    } else {
      BrokenStep(s, steps[0]);
      BrokenStays(Apply(s, steps[0]), steps[1..]);
    }
  }

  lemma {:induction false} SoundRun(s: State, steps: seq<Step>)
    requires IsRun(s, steps) && StaysOpen(steps) && Sound(s) && !Closed(s)
    ensures Sound(After(s, steps)) <==> RaceFree(s, steps)
    decreases steps
  {
    if steps != [] {
      assert !Closes(steps[0]);
      assert forall i | 0 <= i < |steps[1..]| :: steps[1..][i] == steps[i + 1];
      if Races(s, steps[0]) {
        RaceBreaks(s, steps[0]);
        BrokenStays(Apply(s, steps[0]), steps[1..]);
      } else {
        SoundStep(s, steps[0]);
        SoundRun(Apply(s, steps[0]), steps[1..]);
      }
    }
  }

  // For every arrival order of `StreamOpen` and the data, and every interleaving
  // of the two handlers on an open stream: all frames are kept in order if and
  // only if the run takes none of the racing steps.
  lemma InOrderIffRaceFree(arrivals: seq<Bytes>, steps: seq<Step>)
    requires IsRun(Start(arrivals), steps) && StaysOpen(steps)
    ensures Sound(After(Start(arrivals), steps)) <==> RaceFree(Start(arrivals), steps)
  {
    SoundRun(Start(arrivals), steps);
  }

  // ---- Streams that close ---------------------------------------------------------

  // Direct sends can only start once every earlier frame is out of the buffer.
  ghost predicate Orderly(s: State) {
    && (s.open.Unopened? ==> !s.registered && !s.route.Found? && Delivered(s) == [])
    && (s.open.Inserted? && (s.route.Missing? || s.pending.frames != []) ==> Delivered(s) == [])
  }

  // What the bridge of a closed stream has and can still get.
  function Remains(s: State): seq<nat> {
    Delivered(s) + (if s.open.Flushing? then s.open.todo else []) + (if s.route.Found? then [s.route.n] else [])
  }

  ghost predicate PrefixSafe(s: State) {
    if Closed(s) then InOrder(Remains(s)) && (s.open.Inserted? ==> s.pending.frames == [])
    else Sound(s) && Orderly(s)
  }

  lemma LiveStep(s: State, step: Step)
    requires Enabled(s, step) && Sound(s) && Orderly(s) && !Closed(s) && !Races(s, step) && !Closes(step)
    ensures PrefixSafe(Apply(s, step))
  {
    SoundStep(s, step);
  }

  lemma InOrderPrefix(q: seq<nat>, r: seq<nat>)
    requires InOrder(q) && r <= q
    ensures InOrder(r)
  {
  }

  lemma CloseStep(s: State, step: Step)
    requires Enabled(s, step) && Sound(s) && Orderly(s) && !Closed(s) && Closes(step)
    ensures PrefixSafe(Apply(s, step))
  {
    InOrderPrefix(Line(s), Remains(Apply(s, step)));
  }

  lemma ClosedStep(s: State, step: Step)
    requires Enabled(s, step) && PrefixSafe(s) && Closed(s) && !Races(s, step)
    ensures PrefixSafe(Apply(s, step))
  {
    var s' := Apply(s, step);
    match step
    case Buffer => assert Remains(s') == Remains(s);
    case Send => assert Remains(s') == Remains(s);
    case GiveUp => InOrderPrefix(Remains(s), Remains(s'));
    case FlushOne => assert Remains(s') == Remains(s);
    case Drain => assert Remains(s') == Remains(s);
    case _ =>
  }

  lemma {:induction false} PrefixRun(s: State, steps: seq<Step>)
    requires IsRun(s, steps) && RaceFree(s, steps) && PrefixSafe(s)
    ensures PrefixSafe(After(s, steps)) && After(s, steps).arrivals == s.arrivals
    decreases steps
  {
    if steps != [] {
      if Closed(s) {
        ClosedStep(s, steps[0]);
      } else if Closes(steps[0]) {
        CloseStep(s, steps[0]);
      } else {
        LiveStep(s, steps[0]);
      }
      PrefixRun(Apply(s, steps[0]), steps[1..]);
    }
  }

  // ---- When the local service has everything ----------------------------------------

  // All frames have arrived, the stream was opened, and what is left in the
  // queue is left by a write task that has ended.
  predicate AtRest(s: State) {
    s.next == |s.arrivals| && s.route.Free? && s.open.Opened? && (s.writing ==> s.queue == [])
  }

  ghost predicate Complete(s: State) {
    InOrder(s.written) && |s.written| == |s.arrivals|
  }

  ghost predicate NeverLoses(s: State, steps: seq<Step>)
    requires IsRun(s, steps)
    decreases steps
  {
    steps != [] ==> !Loses(s, steps[0]) && NeverLoses(Apply(s, steps[0]), steps[1..])
  }

  // Nothing is lost so far, and the write task has not ended over a frame.
  ghost predicate Intact(s: State) {
    Sound(s) && (!s.writing ==> s.queue == [])
  }

  // Something is lost for good.
  ghost predicate Spoilt(s: State) {
    |Line(s)| <= s.next && (Broken(s) || (!s.writing && s.queue != []))
  }

  // Only an opened stream's write task can have ended.
  ghost predicate WritesUntilOpen(s: State) {
    !s.writing ==> s.open.Opened?
  }

  lemma LineFits(s: State, step: Step)
    requires Enabled(s, step) && |Line(s)| <= s.next
    ensures |Line(Apply(s, step))| <= Apply(s, step).next
  {
    DeliveredGrows(s, step);
  }

  lemma IntactStep(s: State, step: Step)
    requires Enabled(s, step) && Intact(s) && WritesUntilOpen(s) && !Loses(s, step)
    ensures Intact(Apply(s, step))
  {
    SoundUnlessLost(s, step);
  }

  lemma LossSpoils(s: State, step: Step)
    requires Enabled(s, step) && Intact(s) && WritesUntilOpen(s) && Loses(s, step)
    ensures Spoilt(Apply(s, step))
  {
    var s' := Apply(s, step);
    LineFits(s, step);
    if step.Send? {
      var i := |Delivered(s)|;
      assert Line(s)[s.next - 1] == s.route.n == s.next - 1 > i;
      assert Delivered(s')[i] == s.route.n;
    } else if !step.StopWriting? {
      assert |Line(s')| < s.next;
    }
  }

  lemma SpoiltStep(s: State, step: Step)
    requires Enabled(s, step) && Spoilt(s) && WritesUntilOpen(s)
    ensures Spoilt(Apply(s, step))
  {
    LineFits(s, step);
    if Broken(s) {
      BrokenStep(s, step);
    }
  }

  lemma {:induction false} SpoiltForGood(s: State, steps: seq<Step>)
    requires IsRun(s, steps) && Spoilt(s) && WritesUntilOpen(s)
    ensures Spoilt(After(s, steps)) && After(s, steps).arrivals == s.arrivals
    decreases steps
  {
    if steps != [] {
      SpoiltStep(s, steps[0]);
      SpoiltForGood(Apply(s, steps[0]), steps[1..]);
    }
  }

  lemma {:induction false} LossRun(s: State, steps: seq<Step>)
    requires IsRun(s, steps) && Intact(s) && WritesUntilOpen(s)
    ensures var e := After(s, steps);
            e.arrivals == s.arrivals && if NeverLoses(s, steps) then Intact(e) else Spoilt(e)
    decreases steps
  {
    if steps != [] {
      if Loses(s, steps[0]) {
        LossSpoils(s, steps[0]);
        SpoiltForGood(Apply(s, steps[0]), steps[1..]);
      } else {
        IntactStep(s, steps[0]);
        LossRun(Apply(s, steps[0]), steps[1..]);
      }
    }
  }

  lemma SpoiltIsIncomplete(s: State)
    requires Spoilt(s) && AtRest(s)
    ensures !Complete(s)
  {
    if s.writing {
      assert Delivered(s) == s.written && Line(s) == s.written;
    }
  }

  // For every run, closes and all, once the stream is at rest the local service
  // has every frame in order if and only if no step lost a frame or the order.
  lemma CompleteIffNothingLost(arrivals: seq<Bytes>, steps: seq<Step>)
    requires IsRun(Start(arrivals), steps) && AtRest(After(Start(arrivals), steps))
    ensures Complete(After(Start(arrivals), steps)) <==> NeverLoses(Start(arrivals), steps)
  {
    var s := After(Start(arrivals), steps);
    LossRun(Start(arrivals), steps);
    if NeverLoses(Start(arrivals), steps) {
      assert s.queue == [] && Line(s) == s.written;
    } else {
      SpoiltIsIncomplete(s);
    }
  }

  // The counterpart of the lost response: the local service half-closes, and its
  // write task is aborted over the request it has not been given yet.
  lemma LocalCloseLosesRequest()
    ensures exists steps :: IsRun(Start([[1]]), steps) && var s := After(Start([[1]]), steps);
              AtRest(s) && s.written == [] && RaceFree(Start([[1]]), steps)
  {
    var s := Start([[1]]);
    var steps: seq<Step> := [];
    steps := RaceFreeExtends(s, steps, Insert);
    steps := RaceFreeExtends(s, steps, TakePending);
    steps := RaceFreeExtends(s, steps, Spawn);
    steps := RaceFreeExtends(s, steps, Look);
    steps := RaceFreeExtends(s, steps, Send);
    steps := RaceFreeExtends(s, steps, Unregister);
    steps := RaceFreeExtends(s, steps, StopWriting);
  }

  lemma {:induction false} RaceFreeExtends(s: State, steps: seq<Step>, step: Step) returns (longer: seq<Step>)
    requires IsRun(s, steps) && RaceFree(s, steps) && Enabled(After(s, steps), step) && !Races(After(s, steps), step)
    ensures IsRun(s, longer) && RaceFree(s, longer) && After(s, longer) == Apply(After(s, steps), step)
    ensures longer == steps + [step]
    decreases steps
  {
    if steps == [] {
      longer := [step];
      assert [step][1..] == [];
    } else {
      var rest := RaceFreeExtends(Apply(s, steps[0]), steps[1..], step);
      longer := steps + [step];
      assert longer[1..] == rest;
    }
  }

  function BytesOf(arrivals: seq<Bytes>, names: seq<nat>): Bytes {
    if names == [] then []
    else BytesOf(arrivals, names[..|names| - 1]) +
         if names[|names| - 1] < |arrivals| then arrivals[names[|names| - 1]] else []
  }

  function Concat(frames: seq<Bytes>): Bytes {
    if frames == [] then [] else Concat(frames[..|frames| - 1]) + frames[|frames| - 1]
  }

  lemma {:induction false} ConcatPrefix(frames: seq<Bytes>, k: nat)
    requires k <= |frames|
    ensures Concat(frames[..k]) <= Concat(frames)
    decreases |frames|
  {
    if k < |frames| {
      var front := frames[..|frames| - 1];
      ConcatPrefix(front, k);
      assert front[..k] == frames[..k];
    } else {
      assert frames[..k] == frames;
    }
  }

  lemma {:induction false} InOrderBytes(arrivals: seq<Bytes>, names: seq<nat>)
    requires InOrder(names)
    ensures BytesOf(arrivals, names) == Concat(arrivals[..if |names| <= |arrivals| then |names| else |arrivals|])
  {
    if names != [] {
      var front := names[..|names| - 1];
      InOrderBytes(arrivals, front);
      if |names| <= |arrivals| {
        assert arrivals[..|names|][..|names| - 1] == arrivals[..|names| - 1];
      }
    }
  }

  // Without a racing step, closes included, the local service receives a prefix
  // of the arrived bytes.
  lemma WrittenIsPrefixOfArrived(arrivals: seq<Bytes>, steps: seq<Step>)
    requires IsRun(Start(arrivals), steps) && RaceFree(Start(arrivals), steps)
    ensures BytesOf(arrivals, After(Start(arrivals), steps).written) <= Concat(arrivals)
  {
    var s := After(Start(arrivals), steps);
    PrefixRun(Start(arrivals), steps);
    if Closed(s) {
      InOrderPrefix(Remains(s), s.written);
    } else {
      InOrderPrefix(Line(s), s.written);
    }
    InOrderBytes(arrivals, s.written);
    ConcatPrefix(arrivals, if |s.written| <= |arrivals| then |s.written| else |arrivals|);
  }

  // ---- With the server's sending half in front ---------------------------------------

  // The frames of one stream on the wire, as the agent's router meets them.
  function FramesOf(wire: seq<SharedQueue.Message>, id: SharedQueue.StreamId): seq<Bytes> {
    if wire == [] then []
    else
      var last := wire[|wire| - 1];
      FramesOf(wire[..|wire| - 1], id) + if SharedQueue.IsOf(last, id) then [last.payload] else []
  }

  lemma {:induction false} FramesCarryPayloads(wire: seq<SharedQueue.Message>, id: SharedQueue.StreamId)
    ensures Concat(FramesOf(wire, id)) == SharedQueue.Payloads(wire, id)
  {
    if wire != [] {
      var front, last := wire[..|wire| - 1], wire[|wire| - 1];
      FramesCarryPayloads(front, id);
      SharedQueue.Appended(front, last, id);
      assert wire == front + [last];
      var fs := FramesOf(front, id);
      if SharedQueue.IsOf(last, id) {
        assert (fs + [last.payload])[..|fs|] == fs;
      } else {
        assert fs + [] == fs;
      }
    }
  }

  // End to end: for every reachable state of the server's channel, and every
  // race-free run of the agent on what it sent, the local service has received
  // a prefix of what was read from the public client.
  lemma EndToEndPrefix(server: SharedQueue.Sender, id: SharedQueue.StreamId, steps: seq<Step>)
    requires SharedQueue.Reachable(server) && SharedQueue.IsTcp(server, id)
    requires var agent := Start(FramesOf(server.wire, id)); IsRun(agent, steps) && RaceFree(agent, steps)
    ensures var arrivals := FramesOf(server.wire, id);
            BytesOf(arrivals, After(Start(arrivals), steps).written) <= server.streams[id].read
  {
    WrittenIsPrefixOfArrived(FramesOf(server.wire, id), steps);
    FramesCarryPayloads(server.wire, id);
    SharedQueue.SentIsPrefixOfRead(server, id);
  }

  // ---- One handler at a time ---------------------------------------------------------------

  // Neither handler runs between two steps of the other, and nothing expires:
  // look-up with buffer or enqueue, and insert with collect, flush and spawn,
  // are each one step.
  predicate Exclusive(s: State, step: Step) {
    match step
    case Look | Buffer | Send | GiveUp => s.open.Unopened? || s.open.Opened?
    case Insert | TakePending | FlushOne | Spawn => s.route.Free?
    case Drain | Unregister | StopWriting => true
    case Expire => false
  }

  ghost predicate ExclusiveRun(s: State, steps: seq<Step>)
    requires IsRun(s, steps)
    decreases steps
  {
    steps != [] ==> Exclusive(s, steps[0]) && ExclusiveRun(Apply(s, steps[0]), steps[1..])
  }

  // The frames out of the router's hands.
  function Routed(s: State): int {
    s.next - |Held(s)|
  }

  ghost predicate Tidy(s: State) {
    && (s.open.Inserted? || s.open.Flushing? ==> s.route.Free?)
    && (s.open.Opened? && s.route.Missing? ==> !s.registered)
    && (s.open.Unopened? ==>
          && !s.registered && !s.route.Found? && 0 <= Routed(s) <= |s.arrivals|
          && (s.route.Missing? ==> s.route.n == Routed(s))
          && s.pending.bytes == Total(s.arrivals[..Routed(s)]))
  }

  lemma {:induction false} TotalOfPrefix(frames: seq<Bytes>, k: nat)
    requires k <= |frames|
    ensures Total(frames[..k]) <= Total(frames)
    decreases |frames|
  {
    if k < |frames| {
      var front := frames[..|frames| - 1];
      TotalOfPrefix(front, k);
      assert front[..k] == frames[..k];
    } else {
      assert frames[..k] == frames;
    }
  }

  lemma NextFits(s: State)
    requires Tidy(s) && s.open.Unopened? && s.route.Missing? && s.route.n < |s.arrivals|
    requires Total(s.arrivals) <= PENDING_STREAM_HARD_BYTES
    ensures Fits(s) && s.pending.bytes + |s.arrivals[s.route.n]| == Total(s.arrivals[..s.route.n + 1])
  {
    var n := s.route.n;
    assert s.arrivals[..n + 1][..n] == s.arrivals[..n];
    TotalOfPrefix(s.arrivals, n + 1);
  }

  lemma ExclusiveStep(s: State, step: Step)
    requires Enabled(s, step) && Exclusive(s, step) && Tidy(s) && Total(s.arrivals) <= PENDING_STREAM_HARD_BYTES
    ensures !Races(s, step) && Tidy(Apply(s, step)) && Apply(s, step).arrivals == s.arrivals
  {
    if step.Buffer? && s.open.Unopened? {
      NextFits(s);
    }
  }

  lemma {:induction false} ExclusiveRunIsRaceFree(s: State, steps: seq<Step>)
    requires IsRun(s, steps) && ExclusiveRun(s, steps) && Tidy(s)
    requires Total(s.arrivals) <= PENDING_STREAM_HARD_BYTES
    ensures RaceFree(s, steps)
    decreases steps
  {
    if steps != [] {
      ExclusiveStep(s, steps[0]);
      ExclusiveRunIsRaceFree(Apply(s, steps[0]), steps[1..]);
    }
  }

  // With each handler one step, no expiry, and arrivals that fit the hard limit,
  // the local service gets a prefix for every arrival order of `StreamOpen` and
  // the data, and while the stream is not closed not one frame is missing.
  lemma ExclusiveHandlersKeepOrder(arrivals: seq<Bytes>, steps: seq<Step>)
    requires IsRun(Start(arrivals), steps) && ExclusiveRun(Start(arrivals), steps)
    requires Total(arrivals) <= PENDING_STREAM_HARD_BYTES
    ensures BytesOf(arrivals, After(Start(arrivals), steps).written) <= Concat(arrivals)
    ensures StaysOpen(steps) ==> Sound(After(Start(arrivals), steps))
  {
    ExclusiveRunIsRaceFree(Start(arrivals), steps);
    WrittenIsPrefixOfArrived(arrivals, steps);
    if StaysOpen(steps) {
      InOrderIffRaceFree(arrivals, steps);
    }
  }

  // ---- The flush needs room --------------------------------------------------------------

  // The handler fills a queue of 64 that nobody drains until it is done.
  lemma FlushStep(s: State, step: Step)
    requires Enabled(s, step) && s.open.Flushing? && |s.queue| + |s.open.todo| > STREAM_QUEUE_FRAMES
    requires |s.queue| <= STREAM_QUEUE_FRAMES
    ensures var s' := Apply(s, step);
            s'.open.Flushing? && |s'.queue| <= STREAM_QUEUE_FRAMES && |s'.queue| + |s'.open.todo| > STREAM_QUEUE_FRAMES
  {
  }

  lemma {:induction false} FlushStuck(s: State, steps: seq<Step>)
    requires IsRun(s, steps) && s.open.Flushing?
    requires |s.queue| <= STREAM_QUEUE_FRAMES && |s.queue| + |s.open.todo| > STREAM_QUEUE_FRAMES
    ensures After(s, steps).open.Flushing?
    decreases steps
  {
    if steps != [] {
      FlushStep(s, steps[0]);
      FlushStuck(Apply(s, steps[0]), steps[1..]);
    }
  }

  lemma {:induction false} FlushFinishes(s: State) returns (steps: seq<Step>)
    requires s.open.Flushing? && |s.queue| + |s.open.todo| <= STREAM_QUEUE_FRAMES
    ensures IsRun(s, steps) && After(s, steps).open.Opened?
    decreases |s.open.todo|
  {
    if s.open.todo == [] {
      steps := [Spawn];
      assert [Spawn][1..] == [];
    } else {
      var rest := FlushFinishes(Apply(s, FlushOne));
      steps := [FlushOne] + rest;
      assert steps[1..] == rest;
    }
  }

  // The `StreamOpen` handler can complete if and only if the collected frames
  // fit the stream queue beside what is already there; otherwise the control
  // reader waits until its connection is given up.
  lemma OpenCompletesIffFits(s: State)
    requires s.open.Flushing? && |s.queue| <= STREAM_QUEUE_FRAMES
    ensures |s.queue| + |s.open.todo| <= STREAM_QUEUE_FRAMES <==>
            exists steps :: IsRun(s, steps) && After(s, steps).open.Opened?
  {
    if |s.queue| + |s.open.todo| <= STREAM_QUEUE_FRAMES {
      var steps := FlushFinishes(s);
    } else {
      forall steps | IsRun(s, steps) ensures !After(s, steps).open.Opened? {
        FlushStuck(s, steps);
      }
    }
  }

  lemma {:induction false} ManyPending(arrivals: seq<Bytes>, k: nat) returns (steps: seq<Step>)
    requires k <= |arrivals| && forall i | 0 <= i < |arrivals| :: |arrivals[i]| == 1
    requires k <= PENDING_STREAM_HARD_BYTES
    ensures IsRun(Start(arrivals), steps)
    ensures var s := After(Start(arrivals), steps);
            s.arrivals == arrivals && s.next == k && s.route.Free? && s.open.Unopened? && !s.registered
            && s.queue == [] && |s.pending.frames| == k && s.pending.bytes == k
  {
    if k == 0 {
      steps := [];
    } else {
      steps := ManyPending(arrivals, k - 1);
      steps := RunExtends(Start(arrivals), steps, Look);
      steps := RunExtends(Start(arrivals), steps, Buffer);
    }
  }

  lemma {:induction false} RunExtends(s: State, steps: seq<Step>, step: Step) returns (longer: seq<Step>)
    requires IsRun(s, steps) && Enabled(After(s, steps), step)
    ensures longer == steps + [step]
    ensures IsRun(s, longer) && After(s, longer) == Apply(After(s, steps), step)
    decreases steps
  {
    if steps == [] {
      longer := [step];
      assert [step][1..] == [];
    } else {
      var rest := RunExtends(Apply(s, steps[0]), steps[1..], step);
      longer := steps + [step];
      assert longer[1..] == rest;
    }
  }

  // Sixty-five one-byte frames ahead of `StreamOpen` are enough.
  lemma StuckOpenReachable(arrivals: seq<Bytes>)
    requires |arrivals| > STREAM_QUEUE_FRAMES && forall i | 0 <= i < |arrivals| :: |arrivals[i]| == 1
    ensures exists steps :: IsRun(Start(arrivals), steps) && var s := After(Start(arrivals), steps);
              s.open.Flushing? && forall more :: IsRun(s, more) ==> After(s, more).open.Flushing?
  {
    var steps := ManyPending(arrivals, STREAM_QUEUE_FRAMES + 1);
    steps := RunExtends(Start(arrivals), steps, Insert);
    steps := RunExtends(Start(arrivals), steps, TakePending);
    var s := After(Start(arrivals), steps);
    forall more | IsRun(s, more) ensures After(s, more).open.Flushing? {
      FlushStuck(s, more);
    }
  }

  // The code's own granularity does not keep the order: the second frame finds
  // the stream inserted and overtakes the flush of the first.
  lemma OvertakenFlush()
    ensures exists steps :: IsRun(Start([[1], [2]]), steps) && StaysOpen(steps)
                            && After(Start([[1], [2]]), steps).queue == [1, 0]
  {
    var steps := SecondInQueue();
    steps := RunExtends(Start([[1], [2]]), steps, TakePending);
    steps := RunExtends(Start([[1], [2]]), steps, FlushOne);
  }

  lemma SecondInQueue() returns (steps: seq<Step>)
    ensures IsRun(Start([[1], [2]]), steps) && StaysOpen(steps)
    ensures var s := After(Start([[1], [2]]), steps);
            s.queue == [1] && s.pending.frames == [0] && s.open.Inserted? && s.writing && s.route.Free?
  {
    var s := Start([[1], [2]]);
    steps := [];
    steps := RunExtends(s, steps, Look);
    steps := RunExtends(s, steps, Buffer);
    steps := RunExtends(s, steps, Insert);
    steps := RunExtends(s, steps, Look);
    steps := RunExtends(s, steps, Send);
  }

  // ---- After the stream is closed ---------------------------------------------------------

  lemma {:induction false} NothingAfterClose(s: State, steps: seq<Step>)
    requires IsRun(s, steps) && s.open.Opened? && !s.registered && !s.route.Found?
    ensures var e := After(s, steps); !e.registered && e.written + e.queue == s.written + s.queue
    decreases steps
  {
    if steps != [] {
      var s' := Apply(s, steps[0]);
      if steps[0].Drain? {
        assert s.written + [s.queue[0]] + s.queue[1..] == s.written + s.queue;
      }
      NothingAfterClose(s', steps[1..]);
    }
  }

  // The bridge's own end closes an open stream: whatever the router finds later,
  // nothing more gets to the local service's queue.
  lemma UnregisterCloses(s: State, steps: seq<Step>)
    requires s.open.Opened? && s.registered && !s.route.Found?
    ensures Enabled(s, Unregister)
    ensures IsRun(Apply(s, Unregister), steps) ==>
              var e := After(Apply(s, Unregister), steps); e.written + e.queue == s.written + s.queue
  {
    if IsRun(Apply(s, Unregister), steps) {
      NothingAfterClose(Apply(s, Unregister), steps);
    }
  }

  // So does a frame the router cannot hand over, and that frame is lost.
  lemma GiveUpCloses(s: State, steps: seq<Step>)
    requires s.open.Opened? && s.route.Found?
    ensures Enabled(s, GiveUp)
    ensures IsRun(Apply(s, GiveUp), steps) ==>
              var e := After(Apply(s, GiveUp), steps); e.written + e.queue == s.written + s.queue
  {
    if IsRun(Apply(s, GiveUp), steps) {
      NothingAfterClose(Apply(s, GiveUp), steps);
    }
  }

  // A frame that comes for a closed stream waits in the buffer until it expires;
  // nothing is left of it.
  lemma LateFrameExpires(s: State)
    requires s.open.Opened? && !s.registered && s.route.Free? && s.next < |s.arrivals|
    ensures var s1 := Apply(s, Look);
            && Enabled(s1, Buffer)
            && var s2 := Apply(s1, Buffer);
               && (s.pending.bytes + |s.arrivals[s.next]| <= PENDING_STREAM_HARD_BYTES ==>
                     s2.pending.frames == s.pending.frames + [s.next])
               && Enabled(s2, Expire)
               && Apply(s2, Expire) == s.(next := s.next + 1, pending := Entry([], 0))
  {
  }

  // ---- Everything can be delivered --------------------------------------------------------

  ghost predicate Gets(s: State, e: State) {
    exists steps :: IsRun(s, steps) && NeverLoses(s, steps) && After(s, steps) == e
  }

  lemma GetsSelf(s: State)
    ensures Gets(s, s)
  {
    assert IsRun(s, []) && NeverLoses(s, []) && After(s, []) == s;
  }

  lemma GetsFrom(s: State, step: Step, e: State)
    requires Enabled(s, step) && !Loses(s, step) && Gets(Apply(s, step), e)
    ensures Gets(s, e)
  {
    var s' := Apply(s, step);
    var steps :| IsRun(s', steps) && NeverLoses(s', steps) && After(s', steps) == e;
    assert ([step] + steps)[1..] == steps;
    assert IsRun(s, [step] + steps) && NeverLoses(s, [step] + steps) && After(s, [step] + steps) == e;
  }

  function FirstNumbers(n: nat): (q: seq<nat>)
    ensures InOrder(q) && |q| == n
  {
    if n == 0 then [] else FirstNumbers(n - 1) + [n - 1]
  }

  // The stream is not open yet, and the first k frames wait in the buffer.
  ghost predicate AllPending(s: State, arrivals: seq<Bytes>, k: nat) {
    && k <= |arrivals|
    && s == State(arrivals, k, Free, Unopened, false, Entry(FirstNumbers(k), Total(arrivals[..k])), [], [], true)
  }

  // The stream is open and idle, and the first k frames have been written.
  ghost predicate Served(s: State, arrivals: seq<Bytes>, k: nat) {
    && k <= |arrivals|
    && s == State(arrivals, k, Free, Opened, true, Empty(), [], FirstNumbers(k), true)
  }

  lemma OneMoreBuffered(s: State, arrivals: seq<Bytes>, k: nat) returns (e: State)
    requires AllPending(s, arrivals, k) && k < |arrivals| && Total(arrivals) <= PENDING_STREAM_HARD_BYTES
    ensures AllPending(e, arrivals, k + 1) && (forall f :: Gets(e, f) ==> Gets(s, f))
  {
    assert arrivals[..k + 1][..k] == arrivals[..k];
    TotalOfPrefix(arrivals, k + 1);
    var m := Apply(s, Look);
    e := Apply(m, Buffer);
    forall f | Gets(e, f) ensures Gets(s, f) {
      GetsFrom(m, Buffer, f);
      GetsFrom(s, Look, f);
    }
  }

  lemma OneMoreServed(s: State, arrivals: seq<Bytes>, k: nat) returns (e: State)
    requires Served(s, arrivals, k) && k < |arrivals|
    ensures Served(e, arrivals, k + 1) && (forall f :: Gets(e, f) ==> Gets(s, f))
  {
    var s1 := Apply(s, Look);
    var s2 := Apply(s1, Send);
    e := Apply(s2, Drain);
    assert s2.queue == [k] && e.queue == [];
    forall f | Gets(e, f) ensures Gets(s, f) {
      GetsFrom(s2, Drain, f);
      GetsFrom(s1, Send, f);
      GetsFrom(s, Look, f);
    }
  }

  lemma {:induction false} BufferedGets(s: State, arrivals: seq<Bytes>, k: nat, n: nat) returns (e: State)
    requires AllPending(s, arrivals, k) && k <= n <= |arrivals| && Total(arrivals) <= PENDING_STREAM_HARD_BYTES
    ensures AllPending(e, arrivals, n) && (forall f :: Gets(e, f) ==> Gets(s, f))
    decreases n - k
  {
    if k == n {
      e := s;
    } else {
      var m := OneMoreBuffered(s, arrivals, k);
      e := BufferedGets(m, arrivals, k + 1, n);
    }
  }

  lemma {:induction false} ServedGets(s: State, arrivals: seq<Bytes>, k: nat) returns (e: State)
    requires Served(s, arrivals, k)
    ensures Served(e, arrivals, |arrivals|) && Gets(s, e)
    decreases |arrivals| - k
  {
    if k == |arrivals| {
      e := s;
      GetsSelf(s);
    } else {
      var m := OneMoreServed(s, arrivals, k);
      e := ServedGets(m, arrivals, k + 1);
    }
  }

  // The flush hands over what it collected, in order.
  lemma {:induction false} FlushGets(s: State) returns (e: State)
    requires s.open.Flushing? && |s.queue| + |s.open.todo| <= STREAM_QUEUE_FRAMES && s.writing
    ensures e == s.(open := Opened, queue := s.queue + s.open.todo) && (forall f :: Gets(e, f) ==> Gets(s, f))
    decreases |s.open.todo|
  {
    if s.open.todo == [] {
      e := Apply(s, Spawn);
      forall f | Gets(e, f) ensures Gets(s, f) {
        GetsFrom(s, Spawn, f);
      }
    } else {
      var m := Apply(s, FlushOne);
      e := FlushGets(m);
      assert s.queue + [s.open.todo[0]] + s.open.todo[1..] == s.queue + s.open.todo;
      forall f | Gets(e, f) ensures Gets(s, f) {
        GetsFrom(s, FlushOne, f);
      }
    }
  }

  lemma {:induction false} DrainGets(s: State) returns (e: State)
    requires s.open.Opened? && s.writing
    ensures e == s.(queue := [], written := s.written + s.queue) && (forall f :: Gets(e, f) ==> Gets(s, f))
    decreases |s.queue|
  {
    if s.queue == [] {
      e := s;
    } else {
      var m := Apply(s, Drain);
      e := DrainGets(m);
      assert s.written + [s.queue[0]] + s.queue[1..] == s.written + s.queue;
      forall f | Gets(e, f) ensures Gets(s, f) {
        GetsFrom(s, Drain, f);
      }
    }
  }

  lemma OpenGets(s: State, arrivals: seq<Bytes>, k: nat) returns (e: State)
    requires AllPending(s, arrivals, k) && k <= STREAM_QUEUE_FRAMES
    ensures Served(e, arrivals, k) && (forall f :: Gets(e, f) ==> Gets(s, f))
  {
    var s1 := Apply(s, Insert);
    var s2 := Apply(s1, TakePending);
    var s3 := FlushGets(s2);
    e := DrainGets(s3);
    forall f | Gets(e, f) ensures Gets(s, f) {
      GetsFrom(s1, TakePending, f);
      GetsFrom(s, Insert, f);
    }
  }

  // However many of the first frames come before `StreamOpen`, as long as they
  // fit the stream queue and all frames the hard limit, there is a run in which
  // nothing is lost and the local service gets everything in order.
  lemma EverythingCanBeDelivered(arrivals: seq<Bytes>, early: nat)
    requires early <= |arrivals| && early <= STREAM_QUEUE_FRAMES && Total(arrivals) <= PENDING_STREAM_HARD_BYTES
    ensures exists e :: Gets(Start(arrivals), e) && AtRest(e) && Complete(e) && e.registered && e.writing
  {
    var s := Start(arrivals);
    assert arrivals[..0] == [];
    var b := BufferedGets(s, arrivals, 0, early);
    var o := OpenGets(b, arrivals, early);
    var e := ServedGets(o, arrivals, early);
    assert Gets(s, e) && AtRest(e);
  }
}
