// One device's control connections: registration, the heartbeat entry and the
// restart banner, with any number of connections starting and cleaning up in any
// order. One lock-held region is one step. `ChannelPool` has their data channels.
module Connections {
  import opened Wrappers

  type Conn = nat

  // Server-driven phases of a requested restart. The admin creates it, the
  // status poll finishes it.
  datatype Phase = NoRestart | Sending | Online | Restarting | Done | Failed {
    predicate Pending() {
      Sending? || Online? || Restarting?
    }
  }

  // Where a control loop is: registered; decided to mark the restart online;
  // reading messages; then each stage of its cleanup, up to the teardown.
  datatype Loop =
    | Registered
    | Marking
    | Serving
    | Unlisted(wasCurrent: bool)
    | Reported
    | Quiet

  datatype State = State(
    session: Option<Conn>,
    heartbeat: Option<Conn>,
    phase: Phase,
    loops: map<Conn, Loop>,
    poll: Option<bool>,
    latest: Option<Conn>)

  datatype LoopStep = Register | MarkRead | MarkWrite | Beat | EndSession | WriteRestart | DropHeartbeat
  datatype AdminStep = RequestRestart | SendFailed | PollRead | PollWrite | Expire | Forget | PruneHeartbeat

  datatype Step =
    | OnLoop(conn: Conn, loop: LoopStep)
    | OnAdmin(admin: AdminStep)

  const Start := State(None, None, NoRestart, map[], None, None)

  predicate LoopEnabled(s: State, c: Conn, step: LoopStep) {
    if step.Register? then c !in s.loops
    else
      && c in s.loops
      && match step
         case MarkRead => s.loops[c].Registered?
         case MarkWrite => s.loops[c].Marking?
         case Beat => s.loops[c].Serving?
         case EndSession => s.loops[c].Serving?
         case WriteRestart => s.loops[c].Unlisted?
         case DropHeartbeat => s.loops[c].Reported?
         case Register => false
  }

  function ApplyLoop(s: State, c: Conn, step: LoopStep): State
    requires LoopEnabled(s, c, step)
  {
    match step
    case Register => s.(session := Some(c), latest := Some(c), loops := s.loops[c := Registered])
    case MarkRead => s.(loops := s.loops[c := if s.phase.Pending() then Marking else Serving])
    case MarkWrite =>
      s.(phase := if s.phase.NoRestart? then NoRestart else Online, loops := s.loops[c := Serving])
    case Beat => s.(heartbeat := Some(c))
    case EndSession =>
      s.(session := if s.session == Some(c) then None else s.session,
         loops := s.loops[c := Unlisted(s.session == Some(c))])
    case WriteRestart =>
      s.(phase := if s.loops[c].wasCurrent && s.phase.Pending() then Restarting else s.phase,
         loops := s.loops[c := Reported])
    case DropHeartbeat =>
      s.(heartbeat := if s.heartbeat == Some(c) then None else s.heartbeat, loops := s.loops[c := Quiet])
  }

  predicate AdminEnabled(s: State, step: AdminStep) {
    match step
    case PollWrite => s.poll.Some?
    case SendFailed => !s.phase.NoRestart?
    case Expire => s.phase.Sending? || s.phase.Restarting?
    case Forget => s.phase.Done? || s.phase.Failed?
    case _ => true
  }

  // The status poll notes whether the device is online before it locks the
  // restart map.
  function ApplyAdmin(s: State, step: AdminStep): State
    requires AdminEnabled(s, step)
  {
    match step
    case RequestRestart => s.(phase := Sending)
    case PollRead => s.(poll := Some(s.session.Some?))
    case PollWrite =>
      s.(poll := None, phase := if !s.phase.Online? then s.phase else if s.poll.value then Done else Restarting)
    case SendFailed => s.(phase := Failed)
    case Expire => s.(phase := Failed)
    case Forget => s.(phase := NoRestart)
    case PruneHeartbeat => s.(heartbeat := None)
  }

  predicate Enabled(s: State, step: Step) {
    match step
    case OnLoop(c, l) => LoopEnabled(s, c, l)
    case OnAdmin(a) => AdminEnabled(s, a)
  }

  function Apply(s: State, step: Step): State
    requires Enabled(s, step)
  {
    match step
    case OnLoop(c, l) => ApplyLoop(s, c, l)
    case OnAdmin(a) => ApplyAdmin(s, a)
  }

  ghost predicate IsRun(s: State, steps: seq<Step>)
    decreases steps
  {
    steps != [] ==> Enabled(s, steps[0]) && IsRun(Apply(s, steps[0]), steps[1..])
  }

  ghost function After(s: State, steps: seq<Step>): State
    requires IsRun(s, steps)
    decreases steps
  {
    if steps == [] then s else After(Apply(s, steps[0]), steps[1..])
  }

  lemma {:induction false} RunExtends(s: State, steps: seq<Step>, step: Step)
    requires IsRun(s, steps) && Enabled(After(s, steps), step)
    ensures IsRun(s, steps + [step]) && After(s, steps + [step]) == Apply(After(s, steps), step)
    decreases steps
  {
    if steps == [] {
      assert [step][1..] == [];
    } else {
      RunExtends(Apply(s, steps[0]), steps[1..], step);
      assert (steps + [step])[1..] == steps[1..] + [step];
    }
  }

  ghost predicate Reachable(s: State) {
    exists steps :: IsRun(Start, steps) && s == After(Start, steps)
  }

  lemma ReachableExtends(s: State, step: Step)
    requires Reachable(s) && Enabled(s, step)
    ensures Reachable(Apply(s, step))
  {
    var steps :| IsRun(Start, steps) && s == After(Start, steps);
    RunExtends(Start, steps, step);
  }

  // ---- Sessions -------------------------------------------------------------------

  predicate Running(s: State, c: Conn) {
    c in s.loops && (s.loops[c].Registered? || s.loops[c].Marking? || s.loops[c].Serving?)
  }

  // The registered session is the latest connection, for as long as that runs.
  ghost predicate SessionOk(s: State) {
    && (s.latest.Some? ==> s.latest.value in s.loops)
    && s.session == if s.latest.Some? && Running(s, s.latest.value) then s.latest else None
  }

  lemma LoopSession(s: State, c: Conn, step: LoopStep)
    requires SessionOk(s) && LoopEnabled(s, c, step)
    ensures SessionOk(ApplyLoop(s, c, step))
  {
  }

  lemma SessionStep(s: State, step: Step)
    requires SessionOk(s) && Enabled(s, step)
    ensures SessionOk(Apply(s, step))
  {
    match step
    case OnLoop(c, l) => LoopSession(s, c, l);
    case OnAdmin(_) =>
  }

  lemma {:induction false} SessionRun(s: State, steps: seq<Step>)
    requires SessionOk(s) && IsRun(s, steps)
    ensures SessionOk(After(s, steps))
    decreases steps
  {
    if steps != [] {
      SessionStep(s, steps[0]);
      SessionRun(Apply(s, steps[0]), steps[1..]);
    }
  }

  // Whatever older connections clean up, the device's session is its latest
  // connection exactly until that connection itself ends.
  lemma SessionIsLatestUnlessEnded(s: State, c: Conn)
    requires Reachable(s)
    ensures s.session == Some(c) <==> s.latest == Some(c) && Running(s, c)
  {
    var steps :| IsRun(Start, steps) && s == After(Start, steps);
    SessionRun(Start, steps);
  }

  // ---- Heartbeats -------------------------------------------------------------------

  // Only another connection's write, the owner's own cleanup or the stale-entry
  // prune takes an entry from its owner.
  predicate Takes(step: Step, owner: Conn) {
    match step
    case OnLoop(c, Beat) => c != owner
    case OnLoop(c, DropHeartbeat) => c == owner
    case OnAdmin(PruneHeartbeat) => true
    case _ => false
  }

  ghost predicate NeverTaken(steps: seq<Step>, owner: Conn) {
    forall i | 0 <= i < |steps| :: !Takes(steps[i], owner)
  }

  // The i-th step is this connection's heartbeat, and nobody takes it later.
  ghost predicate LastBeat(steps: seq<Step>, i: nat, owner: Conn) {
    i < |steps| && steps[i] == OnLoop(owner, Beat) && forall j | i < j < |steps| :: !Takes(steps[j], owner)
  }

  ghost predicate BeatsLast(steps: seq<Step>, owner: Conn) {
    exists i: nat :: LastBeat(steps, i, owner)
  }

  lemma NeverTakenUnfold(steps: seq<Step>, owner: Conn)
    requires steps != []
    ensures NeverTaken(steps, owner) <==> !Takes(steps[0], owner) && NeverTaken(steps[1..], owner)
  {
    var rest := steps[1..];
    if NeverTaken(steps, owner) {
      forall j | 0 <= j < |rest| ensures !Takes(rest[j], owner) {
        assert rest[j] == steps[j + 1];
      }
    }
    if !Takes(steps[0], owner) && NeverTaken(rest, owner) {
      forall j | 0 <= j < |steps| ensures !Takes(steps[j], owner) {
        assert j > 0 ==> steps[j] == rest[j - 1];
      }
    }
  }

  lemma LastBeatShift(steps: seq<Step>, i: nat, owner: Conn)
    requires steps != []
    ensures LastBeat(steps, i + 1, owner) <==> LastBeat(steps[1..], i, owner)
    ensures LastBeat(steps, 0, owner) <==> steps[0] == OnLoop(owner, Beat) && NeverTaken(steps[1..], owner)
  {
    var rest := steps[1..];
    if LastBeat(rest, i, owner) {
      forall j | i + 1 < j < |steps| ensures !Takes(steps[j], owner) {
        assert steps[j] == rest[j - 1];
      }
    }
    if NeverTaken(rest, owner) {
      forall j | 0 < j < |steps| ensures !Takes(steps[j], owner) {
        assert steps[j] == rest[j - 1];
      }
    }
  }

  lemma BeatsLastUnfold(steps: seq<Step>, owner: Conn)
    requires steps != []
    ensures BeatsLast(steps, owner) <==>
            BeatsLast(steps[1..], owner) || (steps[0] == OnLoop(owner, Beat) && NeverTaken(steps[1..], owner))
  {
    LastBeatShift(steps, 0, owner);
    if i: nat :| LastBeat(steps, i, owner) {
      if i > 0 {
        LastBeatShift(steps, i - 1, owner);
      }
    }
    if i: nat :| LastBeat(steps[1..], i, owner) {
      LastBeatShift(steps, i, owner);
    }
  }

  lemma LoopBeat(s: State, c: Conn, step: LoopStep, owner: Conn)
    requires LoopEnabled(s, c, step)
    ensures ApplyLoop(s, c, step).heartbeat == Some(owner) <==>
            (c == owner && step.Beat?) || (s.heartbeat == Some(owner) && !Takes(OnLoop(c, step), owner))
  {
  }

  lemma BeatStep(s: State, step: Step, owner: Conn)
    requires Enabled(s, step)
    ensures Apply(s, step).heartbeat == Some(owner) <==>
            step == OnLoop(owner, Beat) || (s.heartbeat == Some(owner) && !Takes(step, owner))
  {
    match step
    case OnLoop(c, l) => LoopBeat(s, c, l, owner);
    case OnAdmin(_) =>
  }

  // Over any run, the entry is a connection's at the end if and only if its own
  // heartbeat was the last write and nothing took the entry since.
  lemma {:induction false} HeartbeatOwnerIff(s: State, steps: seq<Step>, owner: Conn)
    requires IsRun(s, steps)
    ensures After(s, steps).heartbeat == Some(owner) <==>
            BeatsLast(steps, owner) || (s.heartbeat == Some(owner) && NeverTaken(steps, owner))
    decreases steps
  {
    if steps != [] {
      BeatStep(s, steps[0], owner);
      BeatsLastUnfold(steps, owner);
      NeverTakenUnfold(steps, owner);
      HeartbeatOwnerIff(Apply(s, steps[0]), steps[1..], owner);
    } else {
      assert !BeatsLast(steps, owner);
    }
  }

  // A connection that neither beats again nor ends keeps its entry over a run if
  // and only if no other connection beats and nothing is pruned: a clean-up of
  // another connection alone never takes it.
  lemma HeartbeatSurvives(s: State, steps: seq<Step>, owner: Conn)
    requires IsRun(s, steps) && s.heartbeat == Some(owner)
    requires OnLoop(owner, Beat) !in steps && OnLoop(owner, DropHeartbeat) !in steps
    ensures After(s, steps).heartbeat == Some(owner) <==>
            forall i | 0 <= i < |steps| ::
              steps[i] != OnAdmin(PruneHeartbeat) && !(steps[i].OnLoop? && steps[i].loop.Beat?)
  {
    HeartbeatOwnerIff(s, steps, owner);
    forall i | 0 <= i < |steps| ensures steps[i] != OnLoop(owner, Beat) && steps[i] != OnLoop(owner, DropHeartbeat)
      && (Takes(steps[i], owner) <==>
          steps[i] == OnAdmin(PruneHeartbeat) || (steps[i].OnLoop? && steps[i].loop.Beat?)) {
      assert steps[i] in steps;
    }
    forall i: nat ensures !LastBeat(steps, i, owner) {
      assert i < |steps| ==> steps[i] in steps;
    }
  }

  // A connection's clean-up removes the device's entry, whoever is registered by
  // then, if and only if its own heartbeat was the last one written.
  lemma CleanupRemovesEntryIff(steps: seq<Step>, c: Conn)
    requires IsRun(Start, steps) && LoopEnabled(After(Start, steps), c, DropHeartbeat)
    requires After(Start, steps).heartbeat.Some?
    ensures ApplyLoop(After(Start, steps), c, DropHeartbeat).heartbeat == None <==> BeatsLast(steps, c)
  {
    HeartbeatOwnerIff(Start, steps, c);
  }

  // So a newer connection can lose the device's entry: connection 2 is registered
  // and has beaten, 1 handles one more heartbeat it had received, and ends.
  lemma EntryLostReachable()
    ensures exists s :: Reachable(s) && s.session == Some(2) && s.heartbeat == None
                        && s.loops == map[1 := Quiet, 2 := Serving]
  {
    var s := OldOneEnded();
    ReachableExtends(s, OnLoop(1, WriteRestart));
    s := ApplyLoop(s, 1, WriteRestart);
    assert s.loops == map[1 := Reported, 2 := Serving] && s.heartbeat == Some(1);
    ReachableExtends(s, OnLoop(1, DropHeartbeat));
    s := ApplyLoop(s, 1, DropHeartbeat);
    assert s.loops == map[1 := Quiet, 2 := Serving] && s.session == Some(2);
  }

  lemma TwoServing() returns (s: State)
    ensures Reachable(s) && s.loops == map[1 := Serving, 2 := Serving] && s.session == Some(2)
  {
    s := OneServing();
    ReachableExtends(s, OnLoop(2, Register));
    s := ApplyLoop(s, 2, Register);
    ReachableExtends(s, OnLoop(2, MarkRead));
    s := ApplyLoop(s, 2, MarkRead);
    assert s.loops == map[1 := Serving, 2 := Serving];
  }

  lemma BothBeaten() returns (s: State)
    ensures Reachable(s) && s.loops == map[1 := Serving, 2 := Serving] && s.session == Some(2)
    ensures s.heartbeat == Some(1)
  {
    s := TwoServing();
    ReachableExtends(s, OnLoop(2, Beat));
    s := ApplyLoop(s, 2, Beat);
    ReachableExtends(s, OnLoop(1, Beat));
    s := ApplyLoop(s, 1, Beat);
  }

  lemma OldOneEnded() returns (s: State)
    ensures Reachable(s) && s.loops == map[1 := Unlisted(false), 2 := Serving] && s.session == Some(2)
    ensures s.heartbeat == Some(1)
  {
    s := BothBeaten();
    ReachableExtends(s, OnLoop(1, EndSession));
    s := ApplyLoop(s, 1, EndSession);
  }

  // ---- The restart banner -------------------------------------------------------------

  // A connected and marked device is shown as still restarting.
  predicate ShownDown(s: State) {
    s.session.Some? && s.session.value in s.loops && s.loops[s.session.value].Serving? && s.phase.Restarting?
  }

  predicate Connected(s: State) {
    s.session.Some? && s.session.value in s.loops && s.loops[s.session.value].Serving?
  }

  // A cleanup or a poll writes `restarting` on what it knew from an earlier
  // locked region, although a newer connection is registered and marked by now.
  predicate Regresses(s: State, step: Step) {
    match step
    case OnLoop(c, WriteRestart) =>
      c in s.loops && s.loops[c].Unlisted? && s.loops[c].wasCurrent && s.phase.Pending() && Connected(s)
    case OnAdmin(PollWrite) => s.poll == Some(false) && s.phase.Online? && Connected(s)
    case _ => false
  }

  lemma BannerStep(s: State, step: Step)
    requires SessionOk(s) && Enabled(s, step) && !ShownDown(s)
    ensures ShownDown(Apply(s, step)) <==> Regresses(s, step)
  {
    match step
    case OnLoop(c, l) => LoopBanner(s, c, l);
    case OnAdmin(_) =>
  }

  lemma LoopBanner(s: State, c: Conn, step: LoopStep)
    requires SessionOk(s) && LoopEnabled(s, c, step) && !ShownDown(s)
    ensures ShownDown(ApplyLoop(s, c, step)) <==> Regresses(s, OnLoop(c, step))
  {
  }

  ghost predicate NeverShownDown(s: State, steps: seq<Step>)
    requires IsRun(s, steps)
    decreases steps
  {
    !ShownDown(s) && (steps != [] ==> NeverShownDown(Apply(s, steps[0]), steps[1..]))
  }

  ghost predicate NeverRegresses(s: State, steps: seq<Step>)
    requires IsRun(s, steps)
    decreases steps
  {
    steps != [] ==> !Regresses(s, steps[0]) && NeverRegresses(Apply(s, steps[0]), steps[1..])
  }

  // In every run, a device that is back and marked is never shown as restarting
  // if and only if no such late write happens.
  lemma {:induction false} BannerRightIffNoLateWrite(s: State, steps: seq<Step>)
    requires SessionOk(s) && IsRun(s, steps) && !ShownDown(s)
    ensures NeverShownDown(s, steps) <==> NeverRegresses(s, steps)
    decreases steps
  {
    if steps != [] {
      BannerStep(s, steps[0]);
      SessionStep(s, steps[0]);
      var s' := Apply(s, steps[0]);
      if !ShownDown(s') {
        BannerRightIffNoLateWrite(s', steps[1..]);
      }
    }
  }

  // The late write is real: connection 1 leaves the session map, connection 2
  // registers and marks the restart online, then 1 writes `restarting`.
  lemma LateWriteReachable()
    ensures exists s :: Reachable(s) && ShownDown(s) && s.session == Some(2)
  {
    var s := TwoConnections();
    ReachableExtends(s, OnLoop(1, WriteRestart));
    assert ShownDown(ApplyLoop(s, 1, WriteRestart));
  }

  lemma OneServing() returns (s: State)
    ensures Reachable(s) && s == Start.(session := Some(1), latest := Some(1), loops := map[1 := Serving])
  {
    assert IsRun(Start, []) && After(Start, []) == Start;
    s := Start;
    ReachableExtends(s, OnLoop(1, Register));
    s := ApplyLoop(s, 1, Register);
    ReachableExtends(s, OnLoop(1, MarkRead));
    s := ApplyLoop(s, 1, MarkRead);
    assert s.loops == map[1 := Serving];
  }

  lemma EndedMidRestart() returns (s: State)
    ensures Reachable(s) && s.loops == map[1 := Unlisted(true)] && s.phase == Sending && s.session == None
  {
    s := OneServing();
    ReachableExtends(s, OnAdmin(RequestRestart));
    s := ApplyAdmin(s, RequestRestart);
    ReachableExtends(s, OnLoop(1, EndSession));
    s := ApplyLoop(s, 1, EndSession);
  }

  lemma TwoConnections() returns (s: State)
    ensures Reachable(s) && s.loops == map[1 := Unlisted(true), 2 := Serving] && s.phase == Online && s.session == Some(2)
  {
    s := EndedMidRestart();
    ReachableExtends(s, OnLoop(2, Register));
    s := ApplyLoop(s, 2, Register);
    assert s.loops == map[1 := Unlisted(true), 2 := Registered] && s.phase == Sending && s.session == Some(2);
    ReachableExtends(s, OnLoop(2, MarkRead));
    s := ApplyLoop(s, 2, MarkRead);
    ReachableExtends(s, OnLoop(2, MarkWrite));
    s := ApplyLoop(s, 2, MarkWrite);
  }

  // ---- A restart from request to end --------------------------------------------------

  // The requested restart of a connected device: the old connection ends.
  lemma RestartGoesDown(s: State, c: Conn) returns (e: State)
    requires s.session == Some(c) && c in s.loops && s.loops[c].Serving?
    ensures IsRun(s, [OnAdmin(RequestRestart), OnLoop(c, EndSession), OnLoop(c, WriteRestart), OnLoop(c, DropHeartbeat)])
    ensures e == After(s, [OnAdmin(RequestRestart), OnLoop(c, EndSession), OnLoop(c, WriteRestart), OnLoop(c, DropHeartbeat)])
    ensures e == s.(session := None, phase := Restarting, loops := s.loops[c := Quiet],
                    heartbeat := if s.heartbeat == Some(c) then None else s.heartbeat)
  {
    var s1 := ApplyAdmin(s, RequestRestart);
    var s2 := ApplyLoop(s1, c, EndSession);
    assert s2.loops == s.loops[c := Unlisted(true)];
    var s3 := ApplyLoop(s2, c, WriteRestart);
    assert s3.loops == s.loops[c := Reported];
    e := ApplyLoop(s3, c, DropHeartbeat);
    assert e.loops == s.loops[c := Quiet];
    RunFour(s, OnAdmin(RequestRestart), OnLoop(c, EndSession), OnLoop(c, WriteRestart), OnLoop(c, DropHeartbeat));
  }

  // The device comes back: the new connection marks the restart online.
  lemma RestartComesUp(s: State, d: Conn) returns (e: State)
    requires d !in s.loops && s.phase.Restarting?
    ensures IsRun(s, [OnLoop(d, Register), OnLoop(d, MarkRead), OnLoop(d, MarkWrite), OnLoop(d, Beat)])
    ensures e == After(s, [OnLoop(d, Register), OnLoop(d, MarkRead), OnLoop(d, MarkWrite), OnLoop(d, Beat)])
    ensures e == s.(session := Some(d), latest := Some(d), phase := Online, heartbeat := Some(d),
                    loops := s.loops[d := Serving])
  {
    var s1 := ApplyLoop(s, d, Register);
    var s2 := ApplyLoop(s1, d, MarkRead);
    assert s2.loops == s.loops[d := Marking];
    var s3 := ApplyLoop(s2, d, MarkWrite);
    assert s3.loops == s.loops[d := Serving];
    e := ApplyLoop(s3, d, Beat);
    RunFour(s, OnLoop(d, Register), OnLoop(d, MarkRead), OnLoop(d, MarkWrite), OnLoop(d, Beat));
  }

  lemma RunFirst(s: State, a: Step, rest: seq<Step>)
    requires Enabled(s, a) && IsRun(Apply(s, a), rest)
    ensures IsRun(s, [a] + rest) && After(s, [a] + rest) == After(Apply(s, a), rest)
  {
    assert ([a] + rest)[0] == a && ([a] + rest)[1..] == rest;
  }

  lemma RunFour(s: State, a: Step, b: Step, c: Step, d: Step)
    requires Enabled(s, a) && Enabled(Apply(s, a), b) && Enabled(Apply(Apply(s, a), b), c)
    requires Enabled(Apply(Apply(Apply(s, a), b), c), d)
    ensures IsRun(s, [a, b, c, d]) && After(s, [a, b, c, d]) == Apply(Apply(Apply(Apply(s, a), b), c), d)
  {
    var s1 := Apply(s, a);
    var s2 := Apply(s1, b);
    var s3 := Apply(s2, c);
    RunFirst(s3, d, []);
    RunFirst(s2, c, [d]);
    RunFirst(s1, b, [c, d]);
    RunFirst(s, a, [b, c, d]);
    assert [d] + [] == [d] && [c] + [d] == [c, d] && [b] + [c, d] == [b, c, d] && [a] + [b, c, d] == [a, b, c, d];
  }

  // The poll finishes an online restart as done exactly when the device is
  // registered at its first look, sends it back otherwise, and changes no other.
  lemma PollDecides(s: State)
    ensures var e := ApplyAdmin(ApplyAdmin(s, PollRead), PollWrite);
            e == s.(poll := None, phase := e.phase) &&
            e.phase == if s.phase != Online then s.phase else if s.session.Some? then Done else Restarting
  {
  }

  // A restart that is not back in time fails, one whose command cannot be sent
  // fails at once, and only a finished one is forgotten.
  lemma RestartEnds(s: State)
    ensures AdminEnabled(s, Expire) <==> s.phase == Sending || s.phase == Restarting
    ensures AdminEnabled(s, Expire) ==> ApplyAdmin(s, Expire) == s.(phase := Failed)
    ensures s.phase != NoRestart ==> AdminEnabled(s, SendFailed) && ApplyAdmin(s, SendFailed) == s.(phase := Failed)
    ensures AdminEnabled(s, Forget) <==> s.phase == Done || s.phase == Failed
    ensures AdminEnabled(s, Forget) ==> ApplyAdmin(s, Forget) == s.(phase := NoRestart)
  {
  }
}
