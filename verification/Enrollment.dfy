// One pending enrollment: any number of approvals and denials against the
// expiry timer and the agent's socket. Taking the in-memory entry is one
// locked region.
module Enrollment {
  type Actor = nat

  datatype Decision = Approved | Denied | Expired

  datatype Kind = Approver | Denier

  // A request that passed its database checks: before the take, holding the
  // entry, having created the device, done with the entry, dropped with the
  // device created, turned away.
  datatype Request =
    Asking(kind: Kind) | Holding(kind: Kind) | Created | Sent(decision: Decision) | Gaveup | Lost | Refused

  // The oneshot channel inside the entry, and the loop waiting on the socket.
  datatype Oneshot = Open | Carries(decision: Decision) | Dropped
  datatype Waiter = Waiting | Left | Answered(decision: Decision)

  datatype State = State(
    entry: bool, requests: map<Actor, Request>, oneshot: Oneshot, waiter: Waiter,
    devices: nat, answers: nat)

  datatype Step =
    | Ask(actor: Actor, kind: Kind)
    | Take(actor: Actor)
    | Create(actor: Actor)
    | GiveUp(actor: Actor)
    | Drop(actor: Actor)
    | Send(actor: Actor)
    | Receive
    | TimeOut
    | SocketCloses

  const Start := State(true, map[], Open, Waiting, 0, 0)

  predicate Is(s: State, a: Actor, r: Request) {
    a in s.requests && s.requests[a] == r
  }

  predicate MaySend(s: State, a: Actor) {
    Is(s, a, Created) || Is(s, a, Holding(Denier))
  }

  predicate Enabled(s: State, step: Step) {
    match step
    case Ask(a, _) => a !in s.requests
    case Take(a) => a in s.requests && s.requests[a].Asking?
    case Create(a) => Is(s, a, Holding(Approver))
    case GiveUp(a) => Is(s, a, Holding(Approver))
    case Drop(a) => Is(s, a, Created)
    case Send(a) => MaySend(s, a)
    case Receive => s.waiter.Waiting? && !s.oneshot.Open?
    case TimeOut => s.waiter.Waiting?
    case SocketCloses => s.waiter.Waiting?
  }

  function Apply(s: State, step: Step): State
    requires Enabled(s, step)
  {
    match step
    case Ask(a, kind) => s.(requests := s.requests[a := Asking(kind)])
    case Take(a) =>
      if s.entry then s.(entry := false, requests := s.requests[a := Holding(s.requests[a].kind)])
      else s.(requests := s.requests[a := Refused])
    case Create(a) => s.(devices := s.devices + 1, requests := s.requests[a := Created])
    case GiveUp(a) =>
      // Expired in the meantime, or the device could not be created.
      s.(oneshot := Dropped, requests := s.requests[a := Gaveup])
    case Drop(a) =>
      // The handler is dropped with its client, before it sends.
      s.(oneshot := Dropped, requests := s.requests[a := Lost])
    case Send(a) =>
      var d := if s.requests[a].Created? then Approved else Denied;
      s.(oneshot := if s.waiter.Waiting? then Carries(d) else s.oneshot, requests := s.requests[a := Sent(d)])
    case Receive =>
      s.(waiter := Answered(if s.oneshot.Carries? then s.oneshot.decision else Expired), answers := s.answers + 1)
    case TimeOut => s.(entry := false, waiter := Answered(Expired), answers := s.answers + 1)
    case SocketCloses => s.(entry := false, waiter := Left)
  }

  ghost predicate IsRun(s: State, steps: seq<Step>)
    decreases steps
  {
    steps != [] ==> Enabled(s, steps[0]) && IsRun(Apply(s, steps[0]), steps[1..])
  }

  ghost function After(s: State, steps: seq<Step>): State
    requires IsRun(s, steps)
    decreases steps
  {
    if steps == [] then s else After(Apply(s, steps[0]), steps[1..])
  }

  ghost predicate Reachable(s: State) {
    exists steps :: IsRun(Start, steps) && s == After(Start, steps)
  }

  // Has this request ever had the entry?
  predicate Took(s: State, a: Actor) {
    a in s.requests && !s.requests[a].Asking? && !s.requests[a].Refused?
  }

  predicate MadeDevice(s: State, a: Actor) {
    Is(s, a, Created) || Is(s, a, Sent(Approved)) || Is(s, a, Lost)
  }

  ghost predicate Inv(s: State) {
    && (s.entry ==> s.waiter.Waiting? && forall a | a in s.requests :: !Took(s, a))
    && (forall a, b | Took(s, a) && Took(s, b) :: a == b)
    && (s.devices == if exists a :: MadeDevice(s, a) then 1 else 0)
    && (s.answers == if s.waiter.Answered? then 1 else 0)
    && (forall a | a in s.requests && s.requests[a].Sent? :: s.requests[a].decision != Expired)
    && (match s.oneshot
        case Open => s.waiter.Waiting? ==> forall a | Took(s, a) :: s.requests[a].Holding? || s.requests[a].Created?
        case Dropped => exists a :: Is(s, a, Gaveup) || Is(s, a, Lost)
        case Carries(d) => exists a :: Is(s, a, Sent(d)))
    && (s.waiter == Answered(Approved) ==> s.oneshot == Carries(Approved))
    && (s.waiter == Answered(Denied) ==> s.oneshot == Carries(Denied))
  }

  lemma OpenWhileHeld(s: State)
    requires Inv(s) && (s.entry || exists a :: a in s.requests && (s.requests[a].Holding? || s.requests[a].Created?))
    ensures s.oneshot.Open?
  {
    if s.oneshot.Dropped? {
      var b :| Is(s, b, Gaveup) || Is(s, b, Lost);
      assert Took(s, b);
    } else if s.oneshot.Carries? {
      var b :| Is(s, b, Sent(s.oneshot.decision));
      assert Took(s, b);
    }
    if !s.entry {
      var a :| a in s.requests && (s.requests[a].Holding? || s.requests[a].Created?);
      assert Took(s, a);
    }
  }

  lemma TakeKeeps(s: State, a: Actor)
    requires Inv(s) && Enabled(s, Take(a))
    ensures Inv(Apply(s, Take(a)))
  {
    var s' := Apply(s, Take(a));
    assert forall b :: MadeDevice(s', b) <==> MadeDevice(s, b);
    assert forall b, d :: Is(s', b, Sent(d)) <==> Is(s, b, Sent(d));
    assert forall b :: Is(s', b, Gaveup) <==> Is(s, b, Gaveup);
    assert forall b :: Is(s', b, Lost) <==> Is(s, b, Lost);
    if s.entry {
      OpenWhileHeld(s);
    } else {
      assert forall b :: Took(s', b) <==> Took(s, b);
    }
  }

  lemma HolderKeeps(s: State, step: Step)
    requires Inv(s) && Enabled(s, step) && (step.Create? || step.GiveUp? || step.Drop? || step.Send?)
    ensures Inv(Apply(s, step))
  {
    var s' := Apply(s, step);
    var a := step.actor;
    OpenWhileHeld(s);
    assert Took(s, a);
    forall b: Actor | b != a
      ensures !Took(s, b) && !Took(s', b) && !MadeDevice(s, b) && !MadeDevice(s', b) {
      assert Took(s, b) ==> a == b;
      assert b in s'.requests <==> b in s.requests;
      assert b in s.requests ==> s'.requests[b] == s.requests[b];
    }
    assert (exists b :: MadeDevice(s, b)) <==> MadeDevice(s, a);
    assert (exists b :: MadeDevice(s', b)) <==> MadeDevice(s', a);
    forall b | b in s'.requests && s'.requests[b].Sent? ensures s'.requests[b].decision != Expired {
      assert b != a ==> Took(s, b);
    }
    assert step.GiveUp? ==> Is(s', a, Gaveup);
    assert step.Drop? ==> Is(s', a, Lost);
    assert step.Send? ==> Is(s', a, s'.requests[a]);
  }

  lemma OtherKeeps(s: State, step: Step)
    requires Inv(s) && Enabled(s, step) && !(step.Take? || step.Create? || step.GiveUp? || step.Drop? || step.Send?)
    ensures Inv(Apply(s, step))
  {
    var s' := Apply(s, step);
    assert forall b :: MadeDevice(s', b) <==> MadeDevice(s, b);
    assert forall b, d :: Is(s', b, Sent(d)) <==> Is(s, b, Sent(d));
    assert forall b :: Is(s', b, Gaveup) <==> Is(s, b, Gaveup);
    assert forall b :: Is(s', b, Lost) <==> Is(s, b, Lost);
    assert forall b :: Took(s', b) <==> Took(s, b);
  }

  lemma {:induction false} RunKeepsInv(s: State, steps: seq<Step>)
    requires Inv(s) && IsRun(s, steps)
    ensures Inv(After(s, steps))
    decreases steps
  {
    if steps != [] {
      match steps[0] {
        case Take(a) => TakeKeeps(s, a);
        case Create(_) => HolderKeeps(s, steps[0]);
        case GiveUp(_) => HolderKeeps(s, steps[0]);
        case Drop(_) => HolderKeeps(s, steps[0]);
        case Send(_) => HolderKeeps(s, steps[0]);
        case _ => OtherKeeps(s, steps[0]);
      }
      RunKeepsInv(Apply(s, steps[0]), steps[1..]);
    }
  }

  // For every interleaving: one request at most ever has the entry, so one
  // device at most is created and one decision at most reaches the agent; and
  // the agent is told `approved` only when a device was created for it.
  lemma ConsumedOnce(s: State)
    requires Reachable(s)
    ensures forall a, b | Took(s, a) && Took(s, b) :: a == b
    ensures s.devices <= 1 && s.answers <= 1
    ensures s.waiter == Answered(Approved) ==> s.devices == 1
    ensures s.waiter == Answered(Denied) ==> s.devices == 0
  {
    var steps :| IsRun(Start, steps) && s == After(Start, steps);
    RunKeepsInv(Start, steps);
    if s.waiter == Answered(Approved) {
      var a :| Is(s, a, Sent(Approved));
      assert MadeDevice(s, a);
    }
    if s.waiter == Answered(Denied) {
      DeniedMeansNoDevice(s);
    }
  }

  // ---- Is the agent told? ------------------------------------------------------------

  // The waiting loop leaves without the decision, or the decision is lost with
  // the approver's handler.
  predicate Interrupts(step: Step) {
    step.TimeOut? || step.SocketCloses? || step.Drop?
  }

  ghost predicate Interrupted(steps: seq<Step>) {
    exists i :: 0 <= i < |steps| && Interrupts(steps[i])
  }

  lemma InterruptedUnfold(steps: seq<Step>)
    requires steps != []
    ensures Interrupted(steps) <==> Interrupts(steps[0]) || Interrupted(steps[1..])
  {
    if i :| 0 <= i < |steps| && Interrupts(steps[i]) {
      assert i > 0 ==> steps[1..][i - 1] == steps[i];
    }
    if i :| 0 <= i < |steps[1..]| && Interrupts(steps[1..][i]) {
      assert steps[i + 1] == steps[1..][i];
    }
  }

  lemma {:induction false} LeftForGood(s: State, steps: seq<Step>)
    requires IsRun(s, steps) && !s.waiter.Waiting?
    ensures After(s, steps).waiter == s.waiter
    decreases steps
  {
    if steps != [] {
      LeftForGood(Apply(s, steps[0]), steps[1..]);
    }
  }

  lemma {:induction false} LostForGood(s: State, steps: seq<Step>, a: Actor)
    requires IsRun(s, steps) && Is(s, a, Lost)
    ensures Is(After(s, steps), a, Lost)
    decreases steps
  {
    if steps != [] {
      LostForGood(Apply(s, steps[0]), steps[1..], a);
    }
  }

  // An interrupt leaves its mark to the end of the run.
  lemma {:induction false} InterruptShows(s: State, steps: seq<Step>)
    requires IsRun(s, steps) && Interrupted(steps)
    ensures var e := After(s, steps);
            e.waiter == Answered(Expired) || e.waiter == Left || exists a :: Is(e, a, Lost)
    decreases steps
  {
    InterruptedUnfold(steps);
    var s' := Apply(s, steps[0]);
    if !Interrupts(steps[0]) {
      InterruptShows(s', steps[1..]);
    } else if steps[0].Drop? {
      LostForGood(s', steps[1..], steps[0].actor);
    } else {
      LeftForGood(s', steps[1..]);
    }
  }

  // Without one, the loop has not left, nobody was dropped, and `expired` can
  // only be the word of a sender that gave up.
  ghost predicate Undisturbed(s: State) {
    && s.waiter != Left && (forall a :: !Is(s, a, Lost))
    && (s.waiter == Answered(Expired) ==> s.oneshot.Dropped?)
  }

  lemma UndisturbedStep(s: State, step: Step)
    requires Inv(s) && Undisturbed(s) && Enabled(s, step) && !Interrupts(step)
    ensures Undisturbed(Apply(s, step))
  {
    if step.Receive? && s.oneshot.Carries? {
      var b :| Is(s, b, Sent(s.oneshot.decision));
    }
    var s' := Apply(s, step);
    forall a ensures !Is(s', a, Lost) {
      assert !Is(s, a, Lost);
    }
  }

  lemma StepKeepsInv(s: State, step: Step)
    requires Inv(s) && Enabled(s, step)
    ensures Inv(Apply(s, step))
  {
    assert [step][1..] == [] && After(Apply(s, step), []) == Apply(s, step);
    RunKeepsInv(s, [step]);
  }

  lemma {:induction false} UndisturbedRun(s: State, steps: seq<Step>)
    requires Inv(s) && Undisturbed(s) && IsRun(s, steps) && !Interrupted(steps)
    ensures Undisturbed(After(s, steps))
    decreases steps
  {
    if steps != [] {
      InterruptedUnfold(steps);
      UndisturbedStep(s, steps[0]);
      StepKeepsInv(s, steps[0]);
      UndisturbedRun(Apply(s, steps[0]), steps[1..]);
    }
  }

  lemma GivenUpMeansNoDevice(s: State, a: Actor)
    requires Inv(s) && Is(s, a, Gaveup)
    ensures s.devices == 0
  {
    assert Took(s, a);
    assert forall b | MadeDevice(s, b) :: Took(s, b);
  }

  lemma LostMeansNotApproved(s: State, a: Actor)
    requires Inv(s) && Is(s, a, Lost)
    ensures s.waiter != Answered(Approved)
  {
    if s.waiter == Answered(Approved) {
      var b :| Is(s, b, Sent(Approved));
      assert Took(s, a) && Took(s, b);
    }
  }

  // In any run that created the device and ended the wait, the agent was told
  // `approved` if and only if neither the timer nor the socket ended the wait
  // and the approver's handler was not dropped after it created the device.
  lemma ApprovalReachesAgentIff(steps: seq<Step>)
    requires IsRun(Start, steps)
    requires var s := After(Start, steps); s.devices == 1 && !s.waiter.Waiting?
    ensures After(Start, steps).waiter == Answered(Approved) <==> !Interrupted(steps)
  {
    var s := After(Start, steps);
    RunKeepsInv(Start, steps);
    if Interrupted(steps) {
      InterruptShows(Start, steps);
      if a :| Is(s, a, Lost) {
        LostMeansNotApproved(s, a);
      }
    } else {
      UndisturbedRun(Start, steps);
      UndisturbedDecides(s);
    }
  }

  lemma UndisturbedDecides(s: State)
    requires Inv(s) && Undisturbed(s) && s.devices == 1 && !s.waiter.Waiting?
    ensures s.waiter == Answered(Approved)
  {
    match s.waiter
    case Answered(Denied) => DeniedMeansNoDevice(s);
    case Answered(Expired) =>
      var a :| Is(s, a, Gaveup) || Is(s, a, Lost);
      assert !Is(s, a, Lost);
      GivenUpMeansNoDevice(s, a);
    case Answered(Approved) =>
    case Left =>
  }

  lemma DeniedMeansNoDevice(s: State)
    requires Inv(s) && s.waiter == Answered(Denied)
    ensures s.devices == 0
  {
    var a :| Is(s, a, Sent(Denied));
    assert Took(s, a);
    assert forall b | MadeDevice(s, b) :: Took(s, b);
  }

  lemma {:induction false} RunExtends(s: State, steps: seq<Step>, step: Step)
    requires IsRun(s, steps) && Enabled(After(s, steps), step)
    ensures IsRun(s, steps + [step]) && After(s, steps + [step]) == Apply(After(s, steps), step)
    decreases steps
  {
    if steps == [] {
      assert [step][1..] == [];
    } else {
      RunExtends(Apply(s, steps[0]), steps[1..], step);
      assert (steps + [step])[1..] == steps[1..] + [step];
    }
  }

  lemma ReachableExtends(s: State, step: Step)
    requires Reachable(s) && Enabled(s, step)
    ensures Reachable(Apply(s, step))
  {
    var steps :| IsRun(Start, steps) && s == After(Start, steps);
    RunExtends(Start, steps, step);
  }

  lemma TimedOutWhileHeld() returns (s: State)
    ensures Reachable(s) && s == State(false, map[1 := Holding(Approver)], Open, Answered(Expired), 0, 1)
  {
    assert IsRun(Start, []) && After(Start, []) == Start;
    s := Start;
    ReachableExtends(s, Ask(1, Approver));
    s := Apply(s, Ask(1, Approver));
    ReachableExtends(s, Take(1));
    s := Apply(s, Take(1));
    assert s.requests == map[1 := Holding(Approver)];
    ReachableExtends(s, TimeOut);
    s := Apply(s, TimeOut);
  }

  lemma DeviceWithoutAgent()
    ensures exists s :: Reachable(s) && s.devices == 1 && s.waiter == Answered(Expired) && Is(s, 1, Sent(Approved))
  {
    var s := TimedOutWhileHeld();
    ReachableExtends(s, Create(1));
    s := Apply(s, Create(1));
    assert s.requests[1] == Created;
    ReachableExtends(s, Send(1));
    s := Apply(s, Send(1));
    assert Is(s, 1, Sent(Approved));
  }

  // Even a decision sent to a loop that still waits can come too late: both
  // arms of its `select!` are ready, and the timer's is taken.
  lemma SentButExpired()
    ensures exists s :: Reachable(s) && s.devices == 1 && s.waiter == Answered(Expired)
                        && s.oneshot == Carries(Approved) && Is(s, 1, Sent(Approved))
  {
    var s := ApprovedAndSent();
    ReachableExtends(s, TimeOut);
    s := Apply(s, TimeOut);
    assert Is(s, 1, Sent(Approved));
  }

  lemma ApprovedAndSent() returns (s: State)
    ensures Reachable(s) && s == State(false, map[1 := Sent(Approved)], Carries(Approved), Waiting, 1, 0)
  {
    s := CreatedAndWaiting();
    ReachableExtends(s, Send(1));
    s := Apply(s, Send(1));
  }

  // And the decision is never sent when the approver's client disconnects after
  // the device was created: the handler is dropped at its next suspension.
  lemma DroppedAfterCreate()
    ensures exists s :: Reachable(s) && s.devices == 1 && s.waiter == Answered(Expired) && Is(s, 1, Lost) && s.answers == 1
  {
    var s := CreatedAndWaiting();
    ReachableExtends(s, Drop(1));
    s := Apply(s, Drop(1));
    assert s.requests == map[1 := Lost];
    ReachableExtends(s, Receive);
    s := Apply(s, Receive);
    assert Is(s, 1, Lost);
  }

  lemma CreatedAndWaiting() returns (s: State)
    ensures Reachable(s) && s == State(false, map[1 := Created], Open, Waiting, 1, 0)
  {
    assert IsRun(Start, []) && After(Start, []) == Start;
    s := Start;
    ReachableExtends(s, Ask(1, Approver));
    s := Apply(s, Ask(1, Approver));
    ReachableExtends(s, Take(1));
    s := Apply(s, Take(1));
    assert s.requests == map[1 := Holding(Approver)];
    ReachableExtends(s, Create(1));
    s := Apply(s, Create(1));
  }

  // ---- Every outcome, undisturbed --------------------------------------------------------

  // Nobody has taken the entry yet and the agent waits.
  predicate Undecided(s: State) {
    s.entry && s.waiter.Waiting? && s.oneshot.Open?
  }

  // A request gets the entry if and only if it is still there.
  lemma TakesIffThere(s: State, a: Actor, kind: Kind)
    requires a !in s.requests
    ensures var s1 := Apply(s, Ask(a, kind));
            && Enabled(s1, Take(a))
            && var s2 := Apply(s1, Take(a));
               && s2 == s.(entry := false, requests := s.requests[a := if s.entry then Holding(kind) else Refused])
  {
    var s2 := Apply(Apply(s, Ask(a, kind)), Take(a));
    assert s2.requests == s.requests[a := if s.entry then Holding(kind) else Refused];
  }

  // An approval creates one device and tells the agent `approved`.
  lemma ApprovalAchieves(s: State, a: Actor)
    requires Undecided(s) && a !in s.requests
    ensures var s2 := Apply(Apply(s, Ask(a, Approver)), Take(a));
            && Enabled(s2, Create(a))
            && var s3 := Apply(s2, Create(a));
               && Enabled(s3, Send(a))
               && var s4 := Apply(s3, Send(a));
                  && Enabled(s4, Receive)
                  && Apply(s4, Receive) ==
                     State(false, s.requests[a := Sent(Approved)], Carries(Approved), Answered(Approved),
                           s.devices + 1, s.answers + 1)
  {
    TakesIffThere(s, a, Approver);
    var s3 := Apply(Apply(Apply(s, Ask(a, Approver)), Take(a)), Create(a));
    assert s3.requests == s.requests[a := Created];
  }

  // A denial creates none and tells it `denied`.
  lemma DenialAchieves(s: State, a: Actor)
    requires Undecided(s) && a !in s.requests
    ensures var s2 := Apply(Apply(s, Ask(a, Denier)), Take(a));
            && Enabled(s2, Send(a))
            && var s3 := Apply(s2, Send(a));
               && Enabled(s3, Receive)
               && Apply(s3, Receive) ==
                  State(false, s.requests[a := Sent(Denied)], Carries(Denied), Answered(Denied), s.devices, s.answers + 1)
  {
    TakesIffThere(s, a, Denier);
  }

  // An approval that fails after taking the entry leaves the agent `expired`,
  // like the timer, and no later request gets in.
  lemma FailureExpires(s: State, a: Actor)
    requires Undecided(s) && a !in s.requests
    ensures var s2 := Apply(Apply(s, Ask(a, Approver)), Take(a));
            && Enabled(s2, GiveUp(a))
            && var s3 := Apply(s2, GiveUp(a));
               && Enabled(s3, Receive)
               && Apply(s3, Receive) ==
                  State(false, s.requests[a := Gaveup], Dropped, Answered(Expired), s.devices, s.answers + 1)
    ensures Apply(s, TimeOut) == State(false, s.requests, Open, Answered(Expired), s.devices, s.answers + 1)
    ensures Apply(s, SocketCloses) == State(false, s.requests, Open, Left, s.devices, s.answers)
  {
    TakesIffThere(s, a, Approver);
  }
}
