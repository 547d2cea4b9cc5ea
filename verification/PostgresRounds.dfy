/** What a round does besides changing the objects: the finalizer, the release, and the call it makes. */
module PostgresRounds {
  import opened Kubernetes
  import opened PostgresDefaults
  import opened PostgresLifecycle
  import opened PostgresLadder
  import opened PostgresSecret

  /** A round of a kept resource whose write of the finalizer lands. */
  predicate AddsFinalizer(s: State, step: Step) {
    && step.Round? && !s.gone && !s.deleting && Observes(s, step.input)
    && step.input.publishObserved.Works? && step.input.addFinalizer.Lands()
  }

  /** The step with which a resource leaves: the request for its deletion if it has no finalizer, or a round
      of its deletion that may remove the finalizer, at once under the Orphan policy, and otherwise when it
      finds no Deployment. */
  predicate Releases(s: State, step: Step) {
    match step
    case RequestDeletion => !s.finalizer
    case Round(input) =>
      && !s.gone && s.deleting && input.removeFinalizer.Lands()
      && (s.policy.PolicyDelete? ==> input.getDeployment.Works? && s.slot.deployment.None?)
    case _ => false
  }

  /** How a round ends its call of Create or Delete, if it makes one. */
  function Recorded(s: State, input: Input, created: bool, deleted: bool): LastCall {
    if CallsCreate(s, input) then if created then Succeeded else Erred
    else if CallsDelete(s, input) then if deleted then Succeeded else Erred
    else s.lastCall
  }

  /** Besides the objects, the secret and Ready, a round changes the finalizer and the record of its call, or
      releases the resource. What the user wrote it leaves alone. */
  predicate Records(s: State, input: Input, created: bool, deleted: bool, t: State) {
    && t.spec == s.spec && t.policy == s.policy && t.deleting == s.deleting
    && (t.gone <==> s.gone || Releases(s, Round(input)))
    && (t.finalizer <==> (s.finalizer && (s.gone || !Releases(s, Round(input)))) || AddsFinalizer(s, Round(input)))
    && t.lastCall == Recorded(s, input, created, deleted)
  }

  lemma KeepingRoundRecords(s: State, o: Observation, input: Input, c: Creation, deleted: bool)
    requires !s.deleting && !s.gone && Observes(s, input)
    requires o.Observed? && (o.present <==> s.slot.deployment.Some?)
    ensures Records(s, input, c.result.Ok?, deleted, KeepingRound(s, o, input, c))
  {
  }

  lemma DeletingDriveRecords(s: State, input: Input, c: Creation, d: Deletion)
    requires s.deleting
    ensures Records(s, input, c.result.Ok?, d.err.None?, Drive(s, input, c, d))
  {
  }

  lemma DriveRecords(s: State, input: Input, c: Creation, d: Deletion)
    ensures Records(s, input, c.result.Ok?, d.err.None?, Drive(s, input, c, d))
  {
    if s.deleting {
      DeletingDriveRecords(s, input, c, d);
    } else {
      var o := ObserveSlot(s.slot, input.getDeployment, input.getService);
      if !s.gone && o.Observed? { KeepingRoundRecords(s, o, input, c, d.err.None?); }
    }
  }

  /** A round records exactly how Create or Delete ended in it, told from the failures it met. */
  lemma RoundRecords(key: Key, s: State, input: Input)
    ensures Records(s, input, Completes(Defaulted(s.spec), s.slot, input.create), Empties(s.slot, input.delete),
                    Reconcile(key, s, input))
  {
    CreateSucceedsIff(key, Defaulted(s.spec), s.slot, input.create);
    DeleteLeavesIff(s.slot, input.delete);
    DriveRecords(s, input, CreateIn(key, s, input), DeleteIn(s, input));
  }

  /** Delete succeeds. */
  predicate Empties(slot: Slot, d: DeleteInput) {
    Returns(slot.service, d.service) && Returns(slot.deployment, d.deployment) && Returns(slot.pvc, d.pvc)
  }

  // ---- Over whole runs ----

  lemma StepAddsFinalizer(key: Key, s: State, step: Step)
    ensures var t := Next(key, s, step);
            !t.deleting ==>
              && !s.deleting && t.gone == s.gone
              && (t.finalizer <==> s.finalizer || AddsFinalizer(s, step))
  {
    if step.Round? { RoundRecords(key, s, step.input); }
  }

  /** While a resource is kept, it has its finalizer exactly if some round has added it. */
  lemma {:induction false} FinalizerIsAddedIff(key: Key, s: State, steps: seq<Step>)
    ensures var t := Run(key, s, steps);
            !t.deleting ==>
              t.gone == s.gone && (t.finalizer <==> s.finalizer || Sometime(key, s, steps, AddsFinalizer))
  {
    if steps != [] {
      var n := |steps| - 1;
      FinalizerIsAddedIff(key, s, steps[..n]);
      StepAddsFinalizer(key, Run(key, s, steps[..n]), steps[n]);
    }
  }

  /** Over any run, a resource is gone exactly if it was or some step released it. */
  lemma {:induction false} IsReleasedIff(key: Key, s: State, steps: seq<Step>)
    ensures Run(key, s, steps).gone <==> s.gone || Sometime(key, s, steps, Releases)
  {
    if steps != [] {
      var n := |steps| - 1;
      IsReleasedIff(key, s, steps[..n]);
      if steps[n].Round? { RoundRecords(key, Run(key, s, steps[..n]), steps[n].input); }
    }
  }

  /** How the latest call of Create or Delete in a run ended, told from the failures it met. */
  function LatestOutcome(key: Key, s: State, steps: seq<Step>): LastCall {
    if steps == [] then s.lastCall
    else
      var n := |steps| - 1;
      var t, step := Run(key, s, steps[..n]), steps[n];
      if step.Round? && CallsCreate(t, step.input) then
        if Completes(Defaulted(t.spec), t.slot, step.input.create) then Succeeded else Erred
      else if step.Round? && CallsDelete(t, step.input) then
        if Empties(t.slot, step.input.delete) then Succeeded else Erred
      else LatestOutcome(key, s, steps[..n])
  }

  lemma {:induction false} LastCallIsTheLatest(key: Key, s: State, steps: seq<Step>)
    ensures Run(key, s, steps).lastCall == LatestOutcome(key, s, steps)
  {
    if steps != [] {
      var n := |steps| - 1;
      LastCallIsTheLatest(key, s, steps[..n]);
      if steps[n].Round? { RoundRecords(key, Run(key, s, steps[..n]), steps[n].input); }
    }
  }
}
