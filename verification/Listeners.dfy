// Public listeners: generations drawn from one counter, entries installed under
// the write lock, and exiting tasks that check under a read lock and remove
// under a later write lock.
module Listeners {
  import opened Wrappers

  type Tunnel = nat
  type Generation = nat
  type Caller = nat

  const U64: nat := 0x1_0000_0000_0000_0000

  // The n-th draw: `fetch_add(1)` wraps, `saturating_add(1)` does not.
  function Drawn(n: nat): Generation {
    var previous := n % U64;
    if previous + 1 >= U64 then U64 - 1 else previous + 1
  }

  // A run's generations are all different if and only if there are fewer than
  // 2^64 of them.
  lemma GenerationsUniqueIff(draws: nat)
    ensures (forall i: nat, j: nat | i < j < draws :: Drawn(i) != Drawn(j)) <==> draws < U64
  {
    if draws >= U64 {
      assert Drawn(U64 - 2) == Drawn(U64 - 1);
    }
  }

  // A `start_listener` call between its draw and the lock, or done.
  datatype Start = Waiting(tunnel: Tunnel, generation: Generation) | Installed(tunnel: Tunnel, generation: Generation) | NoOp

  // A listener task: accepting, told to remove its entry or not, gone.
  datatype Task = Accepting(tunnel: Tunnel) | Checked(tunnel: Tunnel, own: bool) | Exited(tunnel: Tunnel)

  datatype State = State(
    draws: nat,
    entries: map<Tunnel, Generation>,
    starts: map<Caller, Start>,
    tasks: map<Generation, Task>)

  datatype Step =
    | Draw(caller: Caller, tunnel: Tunnel)
    | Install(caller: Caller)
    | Check(task: Generation)
    | Finish(task: Generation)
    | Kill(task: Generation)
    | RemoveListener(tunnel: Tunnel)
    | RemoveStale(caller: Caller)

  const Begin := State(0, map[], map[], map[])

  predicate Enabled(s: State, step: Step) {
    match step
    case Draw(k, _) => k !in s.starts && s.draws < U64 - 1
    case Install(k) => k in s.starts && s.starts[k].Waiting?
    case Check(g) => g in s.tasks && s.tasks[g].Accepting?
    case Finish(g) => g in s.tasks && s.tasks[g].Checked?
    case Kill(g) => g in s.tasks
    case RemoveListener(_) => true
    case RemoveStale(k) => k in s.starts && s.starts[k].Installed?
  }

  function EntryOf(s: State, t: Tunnel): Option<Generation> {
    if t in s.entries then Some(s.entries[t]) else None
  }

  function Apply(s: State, step: Step): State
    requires Enabled(s, step)
  {
    match step
    case Draw(k, t) => s.(draws := s.draws + 1, starts := s.starts[k := Waiting(t, Drawn(s.draws))])
    case Install(k) =>
      var t, g := s.starts[k].tunnel, s.starts[k].generation;
      if t in s.entries then s.(starts := s.starts[k := NoOp])
      else
        s.(entries := s.entries[t := g], tasks := s.tasks[g := Accepting(t)], starts := s.starts[k := Installed(t, g)])
    case Check(g) =>
      var t := s.tasks[g].tunnel;
      s.(tasks := s.tasks[g := Checked(t, EntryOf(s, t) == Some(g))])
    case Finish(g) =>
      // Decided by the earlier check; whatever entry is there now goes.
      var s' := s.(tasks := s.tasks[g := Exited(s.tasks[g].tunnel)]);
      if s.tasks[g].own then s'.(entries := s.entries - {s.tasks[g].tunnel}) else s'
    case Kill(g) =>
      // An abort takes effect at the task's next suspension.
      s.(tasks := s.tasks[g := Exited(s.tasks[g].tunnel)])
    case RemoveListener(t) => s.(entries := s.entries - {t})
    case RemoveStale(k) =>
      var t, g := s.starts[k].tunnel, s.starts[k].generation;
      if EntryOf(s, t) == Some(g) then s.(entries := s.entries - {t}) else s
  }

  ghost predicate IsRun(s: State, steps: seq<Step>)
    decreases steps
  {
    steps != [] ==> Enabled(s, steps[0]) && IsRun(Apply(s, steps[0]), steps[1..])
  }

  ghost function After(s: State, steps: seq<Step>): State
    requires IsRun(s, steps)
    decreases steps
  {
    if steps == [] then s else After(Apply(s, steps[0]), steps[1..])
  }

  lemma {:induction false} RunExtends(s: State, steps: seq<Step>, step: Step)
    requires IsRun(s, steps) && Enabled(After(s, steps), step)
    ensures IsRun(s, steps + [step]) && After(s, steps + [step]) == Apply(After(s, steps), step)
    decreases steps
  {
    if steps == [] {
      assert [step][1..] == [];
    } else {
      RunExtends(Apply(s, steps[0]), steps[1..], step);
      assert (steps + [step])[1..] == steps[1..] + [step];
    }
  }

  ghost predicate Reachable(s: State) {
    exists steps :: IsRun(Begin, steps) && s == After(Begin, steps)
  }

  lemma ReachableExtends(s: State, step: Step)
    requires Reachable(s) && Enabled(s, step)
    ensures Reachable(Apply(s, step))
  {
    var steps :| IsRun(Begin, steps) && s == After(Begin, steps);
    RunExtends(Begin, steps, step);
  }

  // ---- Invariant ------------------------------------------------------------------

  predicate HasGeneration(s: State, k: Caller) {
    k in s.starts && !s.starts[k].NoOp?
  }

  // Every generation in use was drawn, each by one call; a task's generation is
  // not waiting any more; an entry is for the tunnel its task listens on.
  ghost predicate Inv(s: State) {
    && s.draws < U64
    && (forall k | HasGeneration(s, k) :: s.starts[k].generation <= s.draws)
    && (forall k, l | HasGeneration(s, k) && HasGeneration(s, l) && k != l ::
          s.starts[k].generation != s.starts[l].generation)
    && (forall g | g in s.tasks :: g <= s.draws)
    && (forall k | k in s.starts && s.starts[k].Waiting? :: s.starts[k].generation !in s.tasks)
    && (forall t | t in s.entries :: s.entries[t] in s.tasks && s.tasks[s.entries[t]].tunnel == t)
  }

  lemma DrawKeeps(s: State, k: Caller, t: Tunnel)
    requires Inv(s) && Enabled(s, Draw(k, t))
    ensures Inv(Apply(s, Draw(k, t)))
  {
    assert Drawn(s.draws) == s.draws + 1;
  }

  lemma InstallKeeps(s: State, k: Caller)
    requires Inv(s) && Enabled(s, Install(k))
    ensures Inv(Apply(s, Install(k)))
  {
    var s' := Apply(s, Install(k));
    assert forall l :: HasGeneration(s', l) ==> HasGeneration(s, l) && s'.starts[l].generation == s.starts[l].generation;
    assert s.starts[k].generation !in s.tasks;
    assert forall g | g in s.tasks :: s'.tasks[g] == s.tasks[g];
  }

  lemma OthersKeep(s: State, step: Step)
    requires Inv(s) && Enabled(s, step) && !step.Draw? && !step.Install?
    ensures Inv(Apply(s, step))
  {
    var s' := Apply(s, step);
    assert s'.starts == s.starts && s'.draws == s.draws && s'.tasks.Keys == s.tasks.Keys;
    assert forall g | g in s.tasks :: s'.tasks[g].tunnel == s.tasks[g].tunnel;
  }

  lemma StepKeepsInv(s: State, step: Step)
    requires Inv(s) && Enabled(s, step)
    ensures Inv(Apply(s, step))
  {
    match step
    case Draw(k, t) => DrawKeeps(s, k, t);
    case Install(k) => InstallKeeps(s, k);
    case _ => OthersKeep(s, step);
  }

  lemma {:induction false} RunKeepsInv(s: State, steps: seq<Step>)
    requires Inv(s) && IsRun(s, steps)
    ensures Inv(After(s, steps))
    decreases steps
  {
    if steps != [] {
      StepKeepsInv(s, steps[0]);
      RunKeepsInv(Apply(s, steps[0]), steps[1..]);
    }
  }

  // In every reachable state no two calls hold the same generation, even when
  // they take the lock in another order than they drew, no generation is
  // installed for two tunnels, and one still waiting has never had a task.
  lemma OneOwnerPerGeneration(s: State)
    requires Reachable(s)
    ensures forall k, l | HasGeneration(s, k) && HasGeneration(s, l) && k != l ::
              s.starts[k].generation != s.starts[l].generation
    ensures forall k | k in s.starts && s.starts[k].Waiting? :: s.starts[k].generation !in s.tasks
    ensures forall t, u | t in s.entries && u in s.entries && t != u :: s.entries[t] != s.entries[u]
  {
    var steps :| IsRun(Begin, steps) && s == After(Begin, steps);
    RunKeepsInv(Begin, steps);
  }

  // ---- Removal ------------------------------------------------------------------------

  // The entries of other generations survive a step.
  ghost predicate SparesOthers(s: State, step: Step, g: Generation)
    requires Enabled(s, step)
  {
    forall t | t in s.entries && s.entries[t] != g :: EntryOf(Apply(s, step), t) == Some(s.entries[t])
  }

  // Compare and remove under one lock never touches another generation.
  lemma StaleRemovalIsOwn(s: State, k: Caller)
    requires Enabled(s, RemoveStale(k))
    ensures SparesOthers(s, RemoveStale(k), s.starts[k].generation)
  {
  }

  // Checking first and removing later does so if and only if, when it removes,
  // the entry is still its own or already gone.
  lemma FinishIsOwnIff(s: State, g: Generation)
    requires Enabled(s, Finish(g)) && s.tasks[g].own
    ensures SparesOthers(s, Finish(g), g) <==>
            EntryOf(s, s.tasks[g].tunnel) == Some(g) || EntryOf(s, s.tasks[g].tunnel) == None
  {
    var t := s.tasks[g].tunnel;
    if t in s.entries && s.entries[t] != g {
      assert EntryOf(Apply(s, Finish(g)), t) == None;
    }
  }

  // Steps that take generation g's entry away on purpose: the tunnel is stopped,
  // or its own task or starter gives it up.
  predicate GivesUp(s: State, step: Step, g: Generation) {
    match step
    case RemoveListener(t) => EntryOf(s, t) == Some(g)
    case RemoveStale(k) => k in s.starts && s.starts[k].Installed? && s.starts[k].generation == g
    case Finish(h) => h == g
    case _ => false
  }

  // Another task acts on a check it made before g was installed.
  predicate Steals(s: State, step: Step, g: Generation) {
    step.Finish? && step.task != g && step.task in s.tasks
    && s.tasks[step.task].Checked? && s.tasks[step.task].own
    && EntryOf(s, s.tasks[step.task].tunnel) == Some(g)
  }

  ghost predicate NeverGivesUp(s: State, steps: seq<Step>, g: Generation)
    requires IsRun(s, steps)
    decreases steps
  {
    steps != [] ==> !GivesUp(s, steps[0], g) && NeverGivesUp(Apply(s, steps[0]), steps[1..], g)
  }

  ghost predicate NeverStolen(s: State, steps: seq<Step>, g: Generation)
    requires IsRun(s, steps)
    decreases steps
  {
    steps != [] ==> !Steals(s, steps[0], g) && NeverStolen(Apply(s, steps[0]), steps[1..], g)
  }

  lemma SurvivesStep(s: State, step: Step, t: Tunnel, g: Generation)
    requires Inv(s) && Enabled(s, step) && EntryOf(s, t) == Some(g) && !GivesUp(s, step, g)
    ensures EntryOf(Apply(s, step), t) == Some(g) <==> !Steals(s, step, g)
    ensures g in Apply(s, step).tasks
  {
    assert s.tasks[g].tunnel == t;
    if Steals(s, step, g) {
      assert s.tasks[step.task].tunnel == t;
    }
  }

  lemma {:induction false} NeverBack(s: State, steps: seq<Step>, t: Tunnel, g: Generation)
    requires Inv(s) && IsRun(s, steps) && g in s.tasks && EntryOf(s, t) != Some(g)
    ensures EntryOf(After(s, steps), t) != Some(g)
    decreases steps
  {
    if steps != [] {
      StepKeepsInv(s, steps[0]);
      NeverBack(Apply(s, steps[0]), steps[1..], t, g);
    }
  }

  // Over any run in which a listener is not given up, whatever starts, exits
  // and removals go on around it, its entry is there at the end if and only if
  // no other task removed it on an outdated check.
  lemma {:induction false} EntrySurvivesIffNotStolen(s: State, steps: seq<Step>, t: Tunnel, g: Generation)
    requires Inv(s) && IsRun(s, steps) && EntryOf(s, t) == Some(g) && NeverGivesUp(s, steps, g)
    ensures EntryOf(After(s, steps), t) == Some(g) <==> NeverStolen(s, steps, g)
    decreases steps
  {
    if steps != [] {
      SurvivesStep(s, steps[0], t, g);
      StepKeepsInv(s, steps[0]);
      if Steals(s, steps[0], g) {
        NeverBack(Apply(s, steps[0]), steps[1..], t, g);
      } else {
        EntrySurvivesIffNotStolen(Apply(s, steps[0]), steps[1..], t, g);
      }
    }
  }

  // Every removal directly follows its check, as under one lock.
  ghost predicate ChecksAtOnce(steps: seq<Step>) {
    forall i | 0 <= i < |steps| && steps[i].Finish? :: i > 0 && steps[i - 1] == Check(steps[i].task)
  }

  // With check and removal in one step no entry is ever stolen.
  lemma {:induction false} ChecksAtOnceNeverSteal(s: State, steps: seq<Step>, g: Generation)
    requires IsRun(s, steps) && ChecksAtOnce(steps)
    ensures NeverStolen(s, steps, g)
    decreases |steps|
  {
    if steps != [] {
      assert !steps[0].Finish?;
      var s1, tail := Apply(s, steps[0]), steps[1..];
      assert forall i | 0 <= i < |tail| :: tail[i] == steps[i + 1];
      if tail != [] && tail[0].Finish? {
        assert steps[0] == Check(tail[0].task) && !Steals(s1, tail[0], g);
        assert forall i | 0 <= i < |tail[1..]| :: tail[1..][i] == steps[i + 2];
        ChecksAtOnceNeverSteal(Apply(s1, tail[0]), tail[1..], g);
      } else {
        ChecksAtOnceNeverSteal(s1, tail, g);
      }
    }
  }

  // The gap is real, for a UDP tunnel, whose socket is closed by then: task 1
  // passes its check, the tunnel is disabled and enabled again before the abort
  // takes effect, and task 1 removes generation 2's entry while that task runs.
  lemma OrphanReachable()
    ensures exists s :: Reachable(s) && 2 in s.tasks && s.tasks[2] == Accepting(7) && 7 !in s.entries
  {
    var s := SecondInstalled();
    ReachableExtends(s, Finish(1));
    assert 7 !in Apply(s, Finish(1)).entries;
  }

  lemma FirstChecked() returns (s: State)
    ensures Reachable(s) && s.draws == 1 && s.entries == map[7 := 1] && s.tasks == map[1 := Checked(7, true)]
    ensures s.starts == map[0 := Installed(7, 1)]
  {
    assert IsRun(Begin, []) && After(Begin, []) == Begin;
    s := Begin;
    ReachableExtends(s, Draw(0, 7));
    s := Apply(s, Draw(0, 7));
    ReachableExtends(s, Install(0));
    s := Apply(s, Install(0));
    assert s.starts == map[0 := Installed(7, 1)];
    ReachableExtends(s, Check(1));
    s := Apply(s, Check(1));
  }

  lemma SecondInstalled() returns (s: State)
    ensures Reachable(s) && s.entries == map[7 := 2]
    ensures s.tasks == map[1 := Checked(7, true), 2 := Accepting(7)]
  {
    s := FirstChecked();
    ReachableExtends(s, RemoveListener(7));
    s := Apply(s, RemoveListener(7));
    ReachableExtends(s, Draw(1, 7));
    s := Apply(s, Draw(1, 7));
    ReachableExtends(s, Install(1));
    s := Apply(s, Install(1));
  }

  // ---- A listener's life ----------------------------------------------------------------

  // A start installs its listener under a new generation if and only if the
  // tunnel has none; otherwise it changes nothing but its own record.
  lemma StartInstallsIff(s: State, k: Caller, t: Tunnel)
    requires s.draws < U64 - 1 && k !in s.starts
    ensures var s1 := Apply(s, Draw(k, t));
            && Enabled(s, Draw(k, t)) && Enabled(s1, Install(k))
            && var s2 := Apply(s1, Install(k));
               var g := s.draws + 1;
               && s2.draws == g
               && s2.entries == (if t in s.entries then s.entries else s.entries[t := g])
               && s2.tasks == (if t in s.entries then s.tasks else s.tasks[g := Accepting(t)])
               && s2.starts == s.starts[k := if t in s.entries then NoOp else Installed(t, g)]
  {
    var s2 := Apply(Apply(s, Draw(k, t)), Install(k));
    assert Drawn(s.draws) == s.draws + 1;
    assert s2.starts == s.starts[k := if t in s.entries then NoOp else Installed(t, s.draws + 1)];
  }

  // A task that exits undisturbed takes its entry along if it is still its own,
  // and otherwise nothing.
  lemma ExitRemovesIff(s: State, g: Generation)
    requires g in s.tasks && s.tasks[g].Accepting?
    ensures var t := s.tasks[g].tunnel;
            var s1 := Apply(s, Check(g));
            && Enabled(s, Check(g)) && Enabled(s1, Finish(g))
            && var s2 := Apply(s1, Finish(g));
               && s2 == s.(tasks := s.tasks[g := Exited(t)], entries := s2.entries)
               && s2.entries == if t in s.entries && s.entries[t] == g then s.entries - {t} else s.entries
  {
    var s2 := Apply(Apply(s, Check(g)), Finish(g));
    assert s2.tasks == s.tasks[g := Exited(s.tasks[g].tunnel)];
  }

  lemma {:induction false} ExitedForGood(s: State, steps: seq<Step>, g: Generation)
    requires Inv(s) && IsRun(s, steps) && g in s.tasks && s.tasks[g].Exited?
    ensures Check(g) !in steps && Finish(g) !in steps
    decreases steps
  {
    if steps != [] {
      StepKeepsInv(s, steps[0]);
      ExitedForGood(Apply(s, steps[0]), steps[1..], g);
    }
  }

  // A task can be aborted wherever it stands; its entry stays, and whatever comes
  // later, it never removes one.
  lemma AbortedNeverRemoves(s: State, g: Generation)
    requires Reachable(s) && g in s.tasks
    ensures Enabled(s, Kill(g)) && Apply(s, Kill(g)).entries == s.entries
    ensures forall steps | IsRun(Apply(s, Kill(g)), steps) :: Check(g) !in steps && Finish(g) !in steps
  {
    var s' := Apply(s, Kill(g));
    var before :| IsRun(Begin, before) && s == After(Begin, before);
    RunKeepsInv(Begin, before);
    StepKeepsInv(s, Kill(g));
    forall steps | IsRun(s', steps) ensures Check(g) !in steps && Finish(g) !in steps {
      ExitedForGood(s', steps, g);
    }
  }

  // The starter's own clean-up does the same in one step.
  lemma StaleRemovedIff(s: State, k: Caller)
    requires k in s.starts && s.starts[k].Installed?
    ensures var t, g := s.starts[k].tunnel, s.starts[k].generation;
            Enabled(s, RemoveStale(k)) && Apply(s, RemoveStale(k)) ==
            s.(entries := if t in s.entries && s.entries[t] == g then s.entries - {t} else s.entries)
  {
  }

  // After stopping a tunnel its next start always gets through.
  lemma StopThenStart(s: State, k: Caller, t: Tunnel)
    requires s.draws < U64 - 1 && k !in s.starts
    ensures var s0 := Apply(s, RemoveListener(t));
            var s2 := Apply(Apply(s0, Draw(k, t)), Install(k));
            && s2.entries == s.entries[t := s.draws + 1]
            && s.draws + 1 in s2.tasks && s2.tasks[s.draws + 1] == Accepting(t)
  {
    var s0 := Apply(s, RemoveListener(t));
    StartInstallsIff(s0, k, t);
    assert s.entries[t := s.draws + 1] == s0.entries[t := s.draws + 1];
  }
}
