/** When repeated rounds reach Ready, when they finish a deletion, and the states in which they never do. */
module PostgresConvergence {
  import opened Wrappers
  import opened Kubernetes
  import opened Managed
  import opened PostgresApi
  import opened PostgresDefaults
  import opened PostgresObjects
  import opened PostgresLifecycle
  import opened PostgresLadder

  const CLEAN := Calls(Works, Works)

  predicate CleanCreate(c: CreateInput) {
    c.sizeParses && c.pvc == CLEAN && c.random.Some? && c.deployment == CLEAN && c.service == CLEAN
  }

  predicate CleanDelete(d: DeleteInput) {
    d.service == CLEAN && d.deployment == CLEAN && d.pvc == CLEAN
  }

  /** A round in which nothing fails. */
  predicate Clean(input: Input) {
    && input.getDeployment.Works? && input.getService.Works?
    && input.publishObserved.Works? && input.addFinalizer.Works?
    && CleanCreate(input.create) && input.publishCreated.Works?
    && CleanDelete(input.delete) && input.removeFinalizer.Works?
    && input.saveStatus.Works?
  }

  lemma CleanCreateSucceeds(key: Key, p: Parameters, slot: Slot, c: CreateInput)
    requires CleanCreate(c)
    ensures CreateSlot(key, p, slot, c).result.Ok? && Level(CreateSlot(key, p, slot, c).slot) == 3
  {
  }

  lemma CleanDeleteEmpties(slot: Slot, d: DeleteInput)
    requires CleanDelete(d)
    ensures DeleteSlot(slot, d) == Deletion(EMPTY, None)
  {
  }

  // ---- Reaching Ready ----

  /** A Deployment without its Service: Create is not called again, because Observe looks at the Deployment. */
  predicate Stuck(slot: Slot) {
    slot.deployment.Some? && slot.service.None?
  }

  predicate KeepingStep(step: Step) { !step.RequestDeletion? }

  predicate Live(s: State) { !s.deleting && !s.gone }

  function Missing(slot: Slot): nat {
    (if slot.pvc.None? then 1 else 0) + (if slot.deployment.None? then 1 else 0)
    + (if slot.service.None? then 1 else 0)
  }

  lemma StepKeepsLive(key: Key, s: State, step: Step)
    requires Live(s) && KeepingStep(step)
    ensures Live(Next(key, s, step))
    ensures Missing(Next(key, s, step).slot) <= Missing(s.slot)
    ensures s.slot.deployment.Some? ==> Essence(Next(key, s, step).slot) == Essence(s.slot)
    ensures s.ready ==> Next(key, s, step).ready
    ensures s.slot.service.None? ==> Next(key, s, step).ready == s.ready
  {
    if step.Round? {
      RoundMoves(key, s, step.input);
      DriveWithoutServiceIsNotReady(s, step.input, CreateIn(key, s, step.input), DeleteIn(s, step.input));
    }
  }

  lemma DriveWithoutServiceIsNotReady(s: State, input: Input, c: Creation, d: Deletion)
    ensures s.slot.service.None? ==> Drive(s, input, c, d).ready == s.ready
    ensures s.ready ==> Drive(s, input, c, d).ready
    ensures !s.deleting && !s.gone ==> !Drive(s, input, c, d).gone
  {
  }

  lemma {:induction false} RunKeepsLive(key: Key, s: State, steps: seq<Step>)
    requires Live(s) && Every(steps, KeepingStep)
    ensures Live(Run(key, s, steps))
    ensures Missing(Run(key, s, steps).slot) <= Missing(s.slot)
    ensures s.slot.deployment.Some? ==> Essence(Run(key, s, steps).slot) == Essence(s.slot)
    ensures s.ready ==> Run(key, s, steps).ready
  {
    if steps != [] {
      var n := |steps| - 1;
      RunKeepsLive(key, s, steps[..n]);
      StepKeepsLive(key, Run(key, s, steps[..n]), steps[n]);
    }
  }

  /** A kept resource whose Deployment has no Service stays so, and does not become Ready, whatever happens
      short of its deletion. */
  lemma {:induction false} StuckForever(key: Key, s: State, steps: seq<Step>)
    requires Live(s) && Stuck(s.slot) && Every(steps, KeepingStep)
    ensures Stuck(Run(key, s, steps).slot)
    ensures Essence(Run(key, s, steps).slot) == Essence(s.slot)
    ensures Run(key, s, steps).ready == s.ready
  {
    RunKeepsLive(key, s, steps);
    if steps != [] {
      var n := |steps| - 1;
      StuckForever(key, s, steps[..n]);
      RunKeepsLive(key, s, steps[..n]);
      StepKeepsLive(key, Run(key, s, steps[..n]), steps[n]);
    }
  }

  /** From any other state one clean round completes the objects. */
  lemma CleanRoundCompletes(key: Key, s: State, input: Input)
    requires Live(s) && !Stuck(s.slot) && Clean(input)
    ensures Live(Reconcile(key, s, input))
    ensures Reconcile(key, s, input).slot.deployment.Some? && Reconcile(key, s, input).slot.service.Some?
    ensures s.slot.deployment.None? ==> Missing(Reconcile(key, s, input).slot) == 0
  {
    CleanCreateSucceeds(key, Defaulted(s.spec), s.slot, input.create);
    DriveCallsCreate(s, input, CreateIn(key, s, input), DeleteIn(s, input));
  }

  lemma DriveCallsCreate(s: State, input: Input, c: Creation, d: Deletion)
    requires Live(s) && Clean(input)
    ensures Live(Drive(s, input, c, d))
    ensures Drive(s, input, c, d).slot == if s.slot.deployment.None? then c.slot else s.slot
  {
  }

  /** What a round needs in order to see the objects and record that they are ready. */
  predicate Sees(input: Input) {
    input.getDeployment.Works? && input.getService.Works? && input.saveStatus.Lands()
  }

  lemma SeeingIsReady(key: Key, s: State, conditions: seq<Condition>, input: Input)
    requires Live(s) && s.slot.deployment.Some? && s.slot.service.Some?
    requires Available(conditions) && Sees(input)
    ensures Next(key, Next(key, s, DeploymentStatus(conditions)), Round(input)).ready
  {
  }

  /** One clean round, then anything short of deletion (failed rounds, edits, status changes), then an
      available Deployment and a round that sees it: the resource is Ready. */
  lemma Converges(key: Key, s: State, first: Input, middle: seq<Step>, conditions: seq<Condition>, last: Input)
    requires Live(s) && !Stuck(s.slot)
    requires Clean(first) && Every(middle, KeepingStep) && Available(conditions) && Sees(last)
    ensures Run(key, s, [Round(first)] + middle + [DeploymentStatus(conditions), Round(last)]).ready
  {
    var s1 := Run(key, s, [Round(first)]);
    assert [Round(first)][..0] == [];
    assert Run(key, s, []) == s;
    CleanRoundCompletes(key, s, first);
    RunConcat(key, s, [Round(first)], middle);
    RunKeepsLive(key, s1, middle);
    var s2 := Run(key, s, [Round(first)] + middle);
    RunConcat(key, s, [Round(first)] + middle, [DeploymentStatus(conditions), Round(last)]);
    RunTwo(key, s2, DeploymentStatus(conditions), Round(last));
    SeeingIsReady(key, s2, conditions, last);
  }

  lemma RunTwo(key: Key, s: State, a: Step, b: Step)
    ensures Run(key, s, [a, b]) == Next(key, Next(key, s, a), b)
  {
    assert [a, b][..1] == [a];
    assert [a][..0] == [];
    assert Run(key, s, [a]) == Next(key, s, a);
  }

  const CLEAN_INPUT: Input :=
    Input(Works, Works, Works, Works,
          CreateInput(true, CLEAN, Works, map[], Some([0, 0, 0, 0, 0, 0, 0, 0, 0, 0, 0, 0, 0, 0, 0, 0]),
                      CLEAN, CLEAN, ""), Works,
          DeleteInput(CLEAN, CLEAN, CLEAN), Works, Works)

  /** Exactly the states from which a kept resource can become Ready. */
  lemma CanConvergeIff(key: Key, s: State)
    requires Live(s)
    ensures (exists steps :: Every(steps, KeepingStep) && Run(key, s, steps).ready) <==> s.ready || !Stuck(s.slot)
  {
    if s.ready {
      assert Every([], KeepingStep) && Run(key, s, []).ready;
    } else if !Stuck(s.slot) {
      var steps := ConvergingSteps();
      ConvergingStepsConverge(key, s);
      assert Every(steps, KeepingStep) && Run(key, s, steps).ready;
    } else {
      forall steps | Every(steps, KeepingStep) ensures !Run(key, s, steps).ready {
        StuckForever(key, s, steps);
      }
    }
  }

  function ConvergingSteps(): seq<Step> {
    [Round(CLEAN_INPUT)] + [] + [DeploymentStatus([Condition("Available", "True")]), Round(CLEAN_INPUT)]
  }

  lemma ConvergingStepsConverge(key: Key, s: State)
    requires Live(s) && !Stuck(s.slot)
    ensures Every(ConvergingSteps(), KeepingStep) && Run(key, s, ConvergingSteps()).ready
  {
    var conditions := [Condition("Available", "True")];
    assert conditions[0] == Condition("Available", "True");
    Converges(key, s, CLEAN_INPUT, [], conditions, CLEAN_INPUT);
  }

  /** The same round with a Service whose write is lost. */
  function Unserved(clean: Input): Input {
    clean.(create := clean.create.(service := Calls(Works, FailsBefore)))
  }

  /** Such a state is reached from a fresh resource by one failed write. */
  lemma StuckIsReachable(key: Key, s: State, clean: Input)
    requires Live(s) && s.slot == EMPTY && Clean(clean)
    ensures Live(Reconcile(key, s, Unserved(clean))) && Stuck(Reconcile(key, s, Unserved(clean)).slot)
  {
  }

  // ---- Finishing a deletion ----

  predicate Deleting(s: State) { s.deleting && s.finalizer && !s.gone && s.policy.PolicyDelete? }

  /** The state in which Observe fails before Delete is reached. */
  predicate Blocked(slot: Slot) {
    Stuck(slot) && Available(slot.deployment.value.conditions)
  }

  /** Two clean rounds remove the objects and then the finalizer, from exactly the states that are not
      blocked. */
  lemma DeletionEndsIff(key: Key, s: State, first: Input, second: Input)
    requires Deleting(s) && Clean(first) && Clean(second)
    ensures var t := Run(key, s, [Round(first), Round(second)]);
            && (t.gone <==> !Blocked(s.slot))
            && (t.gone && Ladder(s.slot) ==> t.slot.deployment.None? && t.slot.service.None?)
            && (s.slot.deployment.Some? && !Blocked(s.slot) ==> t.slot == EMPTY)
  {
    RunTwo(key, s, Round(first), Round(second));
    CleanDeleteEmpties(s.slot, first.delete);
    DriveDeletes(s, first, CreateIn(key, s, first), DeleteIn(s, first));
    var t := Reconcile(key, s, first);
    if Deleting(t) {
      DriveDeletes(t, second, CreateIn(key, t, second), DeleteIn(t, second));
    }
  }

  lemma DriveDeletes(s: State, input: Input, c: Creation, d: Deletion)
    requires Deleting(s) && Clean(input)
    ensures var t := Drive(s, input, c, d);
            if Blocked(s.slot) then t == s
            else if s.slot.deployment.None? then t == s.(finalizer := false, gone := true)
            else Deleting(t) && t.slot == d.slot
  {
  }

  predicate KeepsBlocked(step: Step) {
    && (step.DeploymentStatus? ==> Available(step.conditions))
    && (step.EditSpec? ==> step.policy.PolicyDelete?)
  }

  /** Such a state is reached from a fresh resource by one lost write of the Service and the request for its
      deletion. */
  lemma BlockedIsReachable(key: Key, spec: Parameters, clean: Input, conditions: seq<Condition>)
    requires Clean(clean) && Available(conditions)
    ensures var s := Next(key, Fresh(spec, PolicyDelete), Round(Unserved(clean)));
            var t := Next(key, Next(key, s, DeploymentStatus(conditions)), RequestDeletion);
            Deleting(t) && Blocked(t.slot)
  {
  }

  predicate RoundStep(step: Step) { step.Round? }

  /** While the Deployment stays available without a Service, no round of a deletion changes anything. */
  lemma {:induction false} BlockedForever(key: Key, s: State, steps: seq<Step>)
    requires Deleting(s) && Blocked(s.slot) && Every(steps, KeepsBlocked)
    ensures var t := Run(key, s, steps);
            && Deleting(t) && Blocked(t.slot) && Essence(t.slot) == Essence(s.slot)
            && t.secret == s.secret && t.ready == s.ready
            && (Every(steps, RoundStep) ==> t == s)
  {
    if steps != [] {
      var n := |steps| - 1;
      BlockedForever(key, s, steps[..n]);
      var t := Run(key, s, steps[..n]);
      if steps[n].Round? {
        DriveBlocked(t, steps[n].input, CreateIn(key, t, steps[n].input), DeleteIn(t, steps[n].input));
      }
    }
  }

  lemma DriveBlocked(s: State, input: Input, c: Creation, d: Deletion)
    requires Deleting(s) && Blocked(s.slot)
    ensures Drive(s, input, c, d) == s
  {
  }

  // ---- Why the delete helpers' reads must work ----

  /** The same round with a failure of the Get in `DeletePostgresService`. */
  function Unread(clean: Input): Input {
    clean.(delete := clean.delete.(service := Calls(FailsBefore, Works)))
  }

  /** From a fresh resource: created in full, its deletion requested, one failed read in Delete, and the
      finalizer is removed with the Service still there. */
  lemma FailedReadLeavesService(key: Key, spec: Parameters, clean: Input)
    requires Clean(clean)
    ensures var steps := [Round(clean), RequestDeletion] + [Round(Unread(clean)), Round(clean)];
            var s := Run(key, Fresh(spec, PolicyDelete), steps);
            s.gone && s.slot.service.Some? && s.slot.deployment.None?
  {
    var start := Fresh(spec, PolicyDelete);
    RunConcat(key, start, [Round(clean), RequestDeletion], [Round(Unread(clean)), Round(clean)]);
    CreatedThenDeleting(key, start, clean);
    UnreadDelete(key, Run(key, start, [Round(clean), RequestDeletion]), clean);
  }

  lemma CreatedThenDeleting(key: Key, s: State, clean: Input)
    requires Live(s) && s.slot == EMPTY && s.policy.PolicyDelete? && Clean(clean)
    ensures var t := Run(key, s, [Round(clean), RequestDeletion]);
            Deleting(t) && Level(t.slot) == 3 && !Available(t.slot.deployment.value.conditions)
  {
    RunTwo(key, s, Round(clean), RequestDeletion);
    CreatedIsGuarded(key, s, clean);
  }

  lemma CreatedIsGuarded(key: Key, s: State, input: Input)
    requires Live(s) && s.slot == EMPTY && Clean(input)
    ensures var t := Reconcile(key, s, input);
            t.finalizer && t.policy == s.policy && Live(t) && Level(t.slot) == 3
            && !Available(t.slot.deployment.value.conditions)
  {
  }

  lemma UnreadDelete(key: Key, s: State, clean: Input)
    requires Deleting(s) && Level(s.slot) == 3 && !Available(s.slot.deployment.value.conditions)
    requires Clean(clean)
    ensures var t := Run(key, s, [Round(Unread(clean)), Round(clean)]);
            t.gone && t.slot.service.Some? && t.slot.deployment.None?
  {
    RunTwo(key, s, Round(Unread(clean)), Round(clean));
    var unread := Unread(clean);
    var d := DeleteSlot(s.slot, unread.delete);
    assert d.slot.service.Some? && d.slot.deployment.None?;
    var c := CreateIn(key, s, unread);
    assert Drive(s, unread, c, d).slot == d.slot;
    var t := Next(key, s, Round(unread));
    DriveDeletes(t, clean, CreateIn(key, t, clean), DeleteIn(t, clean));
  }
}
