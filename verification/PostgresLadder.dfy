/**
  Creation climbs a ladder of three rungs (PVC, Deployment, Service) and deletion descends it. What follows
  from that over whole runs: the ladder invariant, what the finalizer protects, and that no object is ever
  replaced during the life of a resource.
 */
module PostgresLadder {
  import opened Wrappers
  import opened Kubernetes
  import opened Managed
  import opened PostgresApi
  import opened PostgresDefaults
  import opened PostgresObjects
  import opened PostgresLifecycle

  predicate Ladder(slot: Slot) {
    && (slot.service.Some? ==> slot.deployment.Some?)
    && (slot.deployment.Some? ==> slot.pvc.Some?)
  }

  function Level(slot: Slot): nat {
    (if slot.pvc.Some? then 1 else 0) + (if slot.deployment.Some? then 1 else 0)
    + (if slot.service.Some? then 1 else 0)
  }

  /** The objects are the lowest n rungs. */
  predicate Occupies(slot: Slot, n: nat) {
    (slot.pvc.Some? <==> n >= 1) && (slot.deployment.Some? <==> n >= 2) && (slot.service.Some? <==> n >= 3)
  }

  /** The ladder says that the three objects are as good as one number: their count says which they are. */
  lemma LadderIsALevel(slot: Slot)
    ensures Ladder(slot) <==> Occupies(slot, Level(slot))
    ensures Ladder(slot) <==> exists n: nat :: n <= 3 && Occupies(slot, n)
  {
    assert Ladder(slot) ==> Occupies(slot, Level(slot));
  }

  predicate Grows(before: Slot, after: Slot) {
    Stays(before.pvc, after.pvc) && Stays(before.deployment, after.deployment) && Stays(before.service, after.service)
  }

  predicate Withers(before: Slot, after: Slot) {
    && Shrinks(before.pvc, after.pvc) && Shrinks(before.deployment, after.deployment)
    && Shrinks(before.service, after.service)
  }

  // ---- One call of Create ----

  /** Create only adds objects, keeps the ladder wherever it stops, and does not return a result before all
      three objects exist. */
  lemma CreateClimbs(key: Key, p: Parameters, slot: Slot, c: CreateInput)
    ensures Grows(slot, CreateSlot(key, p, slot, c).slot)
    ensures Ladder(slot) ==> Ladder(CreateSlot(key, p, slot, c).slot)
    ensures CreateSlot(key, p, slot, c).result.Ok? ==> Level(CreateSlot(key, p, slot, c).slot) == 3
  {
    CreateGrows(key, p, slot, c);
    CreateIsOrdered(key, p, slot, c);
  }

  lemma CreateGrows(key: Key, p: Parameters, slot: Slot, c: CreateInput)
    ensures Grows(slot, CreateSlot(key, p, slot, c).slot)
  {
  }

  /** An object that Create has added stands on the one below, and the last one stands when it succeeds. */
  lemma CreateIsOrdered(key: Key, p: Parameters, slot: Slot, c: CreateInput)
    ensures var r := CreateSlot(key, p, slot, c);
            && (r.slot.service.Some? && slot.service.None? ==> r.slot.deployment.Some?)
            && (r.slot.deployment.Some? && slot.deployment.None? ==> r.slot.pvc.Some?)
            && (r.result.Ok? ==> r.slot.pvc.Some? && r.slot.deployment.Some? && r.slot.service.Some?)
  {
  }

  datatype Attempt = Attempt(p: Parameters, input: CreateInput)

  function CreateAll(key: Key, slot: Slot, attempts: seq<Attempt>): Slot
    decreases |attempts|
  {
    if attempts == [] then slot
    else CreateAll(key, CreateSlot(key, attempts[0].p, slot, attempts[0].input).slot, attempts[1..])
  }

  /** After one successful Create, any further calls, with any parameters, passwords and failures, leave the
      three objects as they are. */
  lemma {:induction false} CreateIsIdempotent(key: Key, p: Parameters, slot: Slot, c: CreateInput,
                                              attempts: seq<Attempt>)
    requires CreateSlot(key, p, slot, c).result.Ok?
    ensures var once := CreateSlot(key, p, slot, c).slot; CreateAll(key, once, attempts) == once
  {
    CreateClimbs(key, p, slot, c);
    FullSlotIsFixed(key, CreateSlot(key, p, slot, c).slot, attempts);
  }

  lemma {:induction false} FullSlotIsFixed(key: Key, slot: Slot, attempts: seq<Attempt>)
    requires Level(slot) == 3
    ensures CreateAll(key, slot, attempts) == slot
    decreases |attempts|
  {
    if attempts != [] {
      CreateClimbs(key, attempts[0].p, slot, attempts[0].input);
      FullSlotIsFixed(key, slot, attempts[1..]);
    }
  }

  // ---- One call of Delete ----

  /** The delete helpers' reads fail only because the object is not there. */
  predicate ReadsWork(d: DeleteInput) {
    d.service.get.Works? && d.deployment.get.Works? && d.pvc.get.Works?
  }

  /** Delete only removes objects; when its reads work it keeps the ladder wherever it stops, and a nil result
      means that nothing is left. */
  lemma DeleteDescends(slot: Slot, d: DeleteInput)
    ensures Withers(slot, DeleteSlot(slot, d).slot)
    ensures Ladder(slot) && ReadsWork(d) ==> Ladder(DeleteSlot(slot, d).slot)
    ensures ReadsWork(d) && DeleteSlot(slot, d).err.None? ==> DeleteSlot(slot, d).slot == EMPTY
  {
  }

  /** A write is reached, and reaches the store. */
  predicate Takes(calls: Calls) { calls.get.Works? && calls.write.Lands() }

  /** A helper returns nil without having removed the object. */
  predicate Skips(calls: Calls) { !calls.get.Works? }

  /** Exactly which failures break the ladder: a read that fails on an object that exists, followed by a
      removal of the object below it. */
  lemma DeleteKeepsLadderIff(slot: Slot, d: DeleteInput)
    requires Ladder(slot)
    ensures Ladder(DeleteSlot(slot, d).slot) <==>
            && !(slot.service.Some? && Skips(d.service) && Takes(d.deployment))
            && !(slot.deployment.Some? && Skips(d.deployment) && Takes(d.pvc)
                 && (slot.service.Some? ==> Skips(d.service) || d.service.write.Works?))
  {
  }

  // ---- Runs ----

  predicate ReliableStep(step: Step) { step.Round? ==> ReadsWork(step.input.delete) }

  /** A resource that is being kept has its ladder; so does one being deleted while the delete helpers' reads
      work. A lone PVC is the trace of a failed call; nothing exists before the finalizer does; and once the
      resource has left under the Delete policy, neither Deployment nor Service remains. */
  predicate Invariant(s: State) {
    && Ladder(s.slot)
    && (s.slot.deployment.None? && s.slot.pvc.Some? ==> s.lastCall.Erred?)
    && (!s.finalizer && !s.gone ==> s.slot == EMPTY)
    && (s.gone ==> s.deleting)
    && (s.gone && s.policy.PolicyDelete? ==> s.slot.deployment.None? && s.slot.service.None?)
  }

  /** A round of a kept resource calls Create. */
  predicate CallsCreate(s: State, input: Input) {
    && !s.gone && !s.deleting && input.getDeployment.Works? && s.slot.deployment.None?
    && input.publishObserved.Works? && (s.finalizer || input.addFinalizer.Works?)
  }

  /** Observe returns without an error: it reads the Deployment, and the Service if the Deployment is available. */
  predicate Observes(s: State, input: Input) {
    && input.getDeployment.Works?
    && (s.slot.deployment.Some? && Available(s.slot.deployment.value.conditions) ==>
          input.getService.Works? && s.slot.service.Some?)
  }

  /** A round of a deletion that gets past Observe and calls Delete. */
  predicate CallsDelete(s: State, input: Input) {
    !s.gone && s.deleting && s.policy.PolicyDelete? && s.slot.deployment.Some? && Observes(s, input)
  }

  /** How far a round can change the objects, given what Create and Delete would do: while the resource is kept
      only Create can, if it is called, and while it is being deleted only Delete. */
  lemma KeepingDriveMoves(s: State, input: Input, c: Creation, d: Deletion)
    requires !s.deleting
    ensures var t := Drive(s, input, c, d);
            && !t.deleting
            && t.slot == (if CallsCreate(s, input) then c.slot else s.slot)
            && (CallsCreate(s, input) ==> t.finalizer) && (s.finalizer ==> t.finalizer)
            && t.gone == s.gone && t.policy == s.policy
  {
    var o := ObserveSlot(s.slot, input.getDeployment, input.getService);
    if !s.gone && o.Observed? { KeepingRoundMoves(s, o, input, c); }
  }

  lemma KeepingRoundMoves(s: State, o: Observation, input: Input, c: Creation)
    requires o.Observed? && !s.deleting
    ensures var t := KeepingRound(s, o, input, c);
            && !t.deleting
            && t.slot == (if Proceeds(s, input) && !o.present then c.slot else s.slot)
            && (Proceeds(s, input) ==> t.finalizer) && (s.finalizer ==> t.finalizer)
            && t.gone == s.gone && t.policy == s.policy
  {
  }

  lemma DeletingDriveMoves(s: State, input: Input, c: Creation, d: Deletion)
    requires s.deleting
    ensures var t := Drive(s, input, c, d);
            && t.deleting
            && t.slot == (if CallsDelete(s, input) then d.slot else s.slot)
            && (t.gone && !s.gone ==> t.policy.PolicyOrphan? || s.slot.deployment.None?)
            && (t.finalizer == s.finalizer || t.gone) && (s.gone ==> t.gone) && t.policy == s.policy
  {
  }

  lemma RoundMoves(key: Key, s: State, input: Input)
    ensures var t := Reconcile(key, s, input);
            && t.deleting == s.deleting
            && (if s.deleting then Withers(s.slot, t.slot) else Grows(s.slot, t.slot))
            && (!s.deleting && s.slot.deployment.Some? ==> t.slot == s.slot)
            && (!s.deleting && Ladder(s.slot) ==> Ladder(t.slot))
            && (if s.deleting then Level(t.slot) <= Level(s.slot) else Level(s.slot) <= Level(t.slot))
  {
    CreateClimbs(key, Defaulted(s.spec), s.slot, input.create);
    DeleteDescends(s.slot, input.delete);
    if s.deleting {
      DeletingDriveMoves(s, input, CreateIn(key, s, input), DeleteIn(s, input));
    } else {
      KeepingDriveMoves(s, input, CreateIn(key, s, input), DeleteIn(s, input));
    }
  }

  lemma KeepingDriveKeepsInvariant(s: State, input: Input, c: Creation, d: Deletion)
    requires Invariant(s) && !s.deleting
    requires Grows(s.slot, c.slot) && Ladder(c.slot) && (c.result.Ok? ==> Level(c.slot) == 3)
    ensures Invariant(Drive(s, input, c, d))
  {
    var o := ObserveSlot(s.slot, input.getDeployment, input.getService);
    if o.Observed? { KeepingRoundKeepsInvariant(s, o, input, c); }
  }

  lemma KeepingRoundKeepsInvariant(s: State, o: Observation, input: Input, c: Creation)
    requires Invariant(s) && !s.deleting && o.Observed? && (o.present <==> s.slot.deployment.Some?)
    requires Grows(s.slot, c.slot) && Ladder(c.slot) && (c.result.Ok? ==> Level(c.slot) == 3)
    ensures Invariant(KeepingRound(s, o, input, c))
  {
  }

  lemma DeletingDriveKeepsInvariant(s: State, input: Input, c: Creation, d: Deletion)
    requires Invariant(s) && s.deleting
    requires Withers(s.slot, d.slot) && Ladder(d.slot) && (d.err.None? ==> d.slot == EMPTY)
    ensures Invariant(Drive(s, input, c, d))
  {
  }

  lemma RoundKeepsInvariant(key: Key, s: State, input: Input)
    requires Invariant(s) && ReadsWork(input.delete)
    ensures Invariant(Reconcile(key, s, input))
  {
    CreateClimbs(key, Defaulted(s.spec), s.slot, input.create);
    DeleteDescends(s.slot, input.delete);
    if s.deleting {
      DeletingDriveKeepsInvariant(s, input, CreateIn(key, s, input), DeleteIn(s, input));
    } else {
      KeepingDriveKeepsInvariant(s, input, CreateIn(key, s, input), DeleteIn(s, input));
    }
  }

  lemma {:induction false} RunKeepsInvariant(key: Key, s: State, steps: seq<Step>)
    requires Invariant(s) && Every(steps, ReliableStep)
    ensures Invariant(Run(key, s, steps))
  {
    if steps != [] {
      var n := |steps| - 1;
      RunKeepsInvariant(key, s, steps[..n]);
      if steps[n].Round? { RoundKeepsInvariant(key, Run(key, s, steps[..n]), steps[n].input); }
    }
  }

  /** The ladder over all runs, from any state that satisfies the invariant, in particular a fresh resource. */
  lemma LadderAlwaysHolds(key: Key, spec: Parameters, policy: DeletionPolicy, steps: seq<Step>)
    requires Every(steps, ReliableStep)
    ensures Ladder(Run(key, Fresh(spec, policy), steps).slot)
  {
    RunKeepsInvariant(key, Fresh(spec, policy), steps);
  }

  // ---- What is left behind a removed finalizer ----

  /** A round that removes the Deployment and has passed over the Service, whose read failed. */
  predicate StrandsService(s: State, step: Step) {
    && step.Round? && CallsDelete(s, step.input)
    && s.slot.service.Some? && Skips(step.input.delete.service) && Takes(step.input.delete.deployment)
  }

  /** A helper of Delete lets the next one run, on an object that exists. */
  predicate Passes(calls: Calls) { Skips(calls) || calls.write.Works? }

  /** The deletion is requested while a PVC stands without its Deployment, or a round of it removes the
      Deployment but does not get as far as the PVC. */
  predicate StrandsPvc(s: State, step: Step) {
    && s.slot.pvc.Some?
    && match step
       case RequestDeletion => s.slot.deployment.None?
       case Round(input) =>
         && CallsDelete(s, input)
         && (s.slot.service.Some? ==> Passes(input.delete.service)) && Takes(input.delete.deployment)
         && !(input.delete.deployment.write.Works? && Takes(input.delete.pvc))
       case _ => false
  }

  /** Without any premise on reads: while the resource is kept it has its ladder, nothing exists before the
      finalizer does, and a resource that has left under the Delete policy has no Deployment. */
  predicate Guarded(s: State) {
    && (!s.deleting ==> Ladder(s.slot))
    && (!s.finalizer && !s.gone ==> s.slot == EMPTY)
    && (s.gone ==> s.deleting)
    && (s.gone && s.policy.PolicyDelete? ==> s.slot.deployment.None?)
  }

  predicate LoneService(s: State) { s.slot.service.Some? && s.slot.deployment.None? }

  predicate LonePvc(s: State) { s.deleting && s.slot.pvc.Some? && s.slot.deployment.None? }

  /** A helper of Delete returns nil. */
  predicate Returns<T>(cell: Option<T>, calls: Calls) { cell.Some? ==> Passes(calls) }

  /** Exactly what one call of Delete leaves, and when it succeeds. */
  lemma DeleteLeavesIff(slot: Slot, d: DeleteInput)
    ensures var r := DeleteSlot(slot, d);
            var service := Returns(slot.service, d.service);
            var deployment := service && Returns(slot.deployment, d.deployment);
            && r.slot.service == (if Takes(d.service) then None else slot.service)
            && r.slot.deployment == (if service && Takes(d.deployment) then None else slot.deployment)
            && r.slot.pvc == (if deployment && Takes(d.pvc) then None else slot.pvc)
            && (r.err.None? <==> deployment && Returns(slot.pvc, d.pvc))
  {
  }

  lemma StepStrands(key: Key, s: State, step: Step)
    requires Guarded(s)
    ensures var t := Next(key, s, step);
            && Guarded(t)
            && (LoneService(t) <==> LoneService(s) || StrandsService(s, step))
            && (LonePvc(t) <==> LonePvc(s) || StrandsPvc(s, step))
  {
    if step.Round? {
      var input := step.input;
      var c, d := CreateIn(key, s, input), DeleteIn(s, input);
      if s.deleting {
        DeleteDescends(s.slot, input.delete);
        DeleteLeavesIff(s.slot, input.delete);
        DeletingDriveMoves(s, input, c, d);
      } else {
        CreateClimbs(key, Defaulted(s.spec), s.slot, input.create);
        KeepingDriveMoves(s, input, c, d);
      }
    }
  }

  lemma {:induction false} RunStrands(key: Key, s: State, steps: seq<Step>)
    requires Guarded(s)
    ensures var t := Run(key, s, steps);
            && Guarded(t)
            && (LoneService(t) <==> LoneService(s) || Sometime(key, s, steps, StrandsService))
            && (LonePvc(t) <==> LonePvc(s) || Sometime(key, s, steps, StrandsPvc))
  {
    if steps != [] {
      var n := |steps| - 1;
      RunStrands(key, s, steps[..n]);
      StepStrands(key, Run(key, s, steps[..n]), steps[n]);
    }
  }

  /** A round that removes the PVC and has passed over the Deployment, whose read failed. */
  predicate StrandsDeployment(s: State, step: Step) {
    && step.Round? && CallsDelete(s, step.input) && s.slot.pvc.Some?
    && (s.slot.service.Some? ==> Passes(step.input.delete.service))
    && Skips(step.input.delete.deployment) && Takes(step.input.delete.pvc)
  }

  /** The PVC goes before the Deployment only by such a round, and does not come back. */
  lemma StepStrandsDeployment(key: Key, s: State, step: Step)
    requires !s.deleting ==> Ladder(s.slot)
    ensures var t := Next(key, s, step);
            && (s.deleting && s.slot.pvc.None? ==> t.deleting && t.slot.pvc.None?)
            && (StrandsDeployment(s, step) ==> t.deleting && t.slot.pvc.None?)
            && ((s.slot.deployment.Some? ==> s.slot.pvc.Some?) && !StrandsDeployment(s, step) ==>
                  t.slot.deployment.Some? ==> t.slot.pvc.Some?)
  {
    if step.Round? {
      var input := step.input;
      RoundMoves(key, s, input);
      if s.deleting {
        DeleteLeavesIff(s.slot, input.delete);
        DeletingDriveMoves(s, input, CreateIn(key, s, input), DeleteIn(s, input));
      }
    }
  }

  lemma {:induction false} RunStrandsDeployment(key: Key, s: State, steps: seq<Step>)
    requires Guarded(s) && (s.slot.deployment.Some? ==> s.slot.pvc.Some?)
    ensures var t, stranded := Run(key, s, steps), Sometime(key, s, steps, StrandsDeployment);
            && (stranded ==> t.deleting && t.slot.pvc.None?)
            && (!stranded && t.slot.deployment.Some? ==> t.slot.pvc.Some?)
  {
    if steps != [] {
      var n := |steps| - 1;
      RunStrandsDeployment(key, s, steps[..n]);
      RunStrands(key, s, steps[..n]);
      StepStrandsDeployment(key, Run(key, s, steps[..n]), steps[n]);
    }
  }

  /** Exactly when the ladder holds at the end of a run, with any failures: no round has stranded a Service, and
      none a Deployment that is still there. */
  lemma LadderHoldsIff(key: Key, spec: Parameters, policy: DeletionPolicy, steps: seq<Step>)
    ensures var start := Fresh(spec, policy);
            var slot := Run(key, start, steps).slot;
            Ladder(slot) <==>
            && !Sometime(key, start, steps, StrandsService)
            && (slot.deployment.Some? ==> !Sometime(key, start, steps, StrandsDeployment))
  {
    RunStrands(key, Fresh(spec, policy), steps);
    RunStrandsDeployment(key, Fresh(spec, policy), steps);
  }

  /** When the finalizer of a resource under the Delete policy has been removed, its Deployment is gone, and the
      Service and the PVC are left exactly if some step stranded them. With working reads no Service is, and a
      PVC only if the last call of Create or Delete failed. */
  lemma FinalizerIsSafe(key: Key, spec: Parameters, policy: DeletionPolicy, steps: seq<Step>)
    ensures var start := Fresh(spec, policy);
            var s := Run(key, start, steps);
            s.gone && s.policy.PolicyDelete? ==>
              && s.slot.deployment.None?
              && (s.slot.service.Some? <==> Sometime(key, start, steps, StrandsService))
              && (s.slot.pvc.Some? <==> Sometime(key, start, steps, StrandsPvc))
              && (Every(steps, ReliableStep) ==> s.slot.service.None? && (s.slot.pvc.Some? ==> s.lastCall.Erred?))
  {
    RunStrands(key, Fresh(spec, policy), steps);
    if Every(steps, ReliableStep) { RunKeepsInvariant(key, Fresh(spec, policy), steps); }
  }

  /** A round that stores the PVC. */
  predicate StoresPvc(s: State, step: Step) {
    && step.Round? && CallsCreate(s, step.input) && s.slot.pvc.None?
    && step.input.create.sizeParses && Takes(step.input.create.pvc)
  }

  /** A round that stores the Deployment: Create has got past the PVC and has a password. */
  predicate StoresDeployment(s: State, step: Step) {
    && step.Round? && CallsCreate(s, step.input)
    && PutsDeployment(Defaulted(s.spec), s.slot, step.input.create)
  }

  predicate PutsDeployment(p: Parameters, slot: Slot, c: CreateInput) {
    && c.sizeParses && c.pvc.get.Works? && (slot.pvc.Some? || c.pvc.write.Works?)
    && ChoosePassword(p, c).Ok? && Takes(c.deployment)
  }

  /** A round that stores the Service: Create has been told of the Deployment. */
  predicate StoresService(s: State, step: Step) {
    && step.Round? && CallsCreate(s, step.input)
    && PutsDeployment(Defaulted(s.spec), s.slot, step.input.create)
    && step.input.create.deployment.write.Works? && Takes(step.input.create.service)
  }

  lemma CreateStores(key: Key, p: Parameters, slot: Slot, c: CreateInput)
    requires slot.deployment.None?
    ensures var after := CreateSlot(key, p, slot, c).slot;
            && (after.pvc.Some? <==> slot.pvc.Some? || (c.sizeParses && Takes(c.pvc)))
            && (after.deployment.Some? <==> PutsDeployment(p, slot, c))
            && (after.service.Some? <==>
                  slot.service.Some? || (PutsDeployment(p, slot, c) && c.deployment.write.Works? && Takes(c.service)))
  {
  }

  lemma StepStores(key: Key, s: State, step: Step)
    ensures var t := Next(key, s, step);
            && (s.deleting ==> t.deleting)
            && (!t.deleting ==>
                  && (t.slot.pvc.Some? <==> s.slot.pvc.Some? || StoresPvc(s, step))
                  && (t.slot.deployment.Some? <==> s.slot.deployment.Some? || StoresDeployment(s, step))
                  && (t.slot.service.Some? <==> s.slot.service.Some? || StoresService(s, step)))
  {
    if step.Round? && !s.deleting {
      KeepingDriveMoves(s, step.input, CreateIn(key, s, step.input), DeleteIn(s, step.input));
      if s.slot.deployment.None? { CreateStores(key, Defaulted(s.spec), s.slot, step.input.create); }
    } else if step.Round? {
      RoundMoves(key, s, step.input);
    }
  }

  /** What exists while a resource is kept: exactly what some round has stored. A PVC is alone, and is stranded
      if deletion is requested then, when some round has stored it and none has stored a Deployment. */
  lemma {:induction false} KeptObjectsIff(key: Key, spec: Parameters, policy: DeletionPolicy, steps: seq<Step>)
    ensures var start := Fresh(spec, policy);
            var s := Run(key, start, steps);
            !s.deleting ==>
              && (s.slot.pvc.Some? <==> Sometime(key, start, steps, StoresPvc))
              && (s.slot.deployment.Some? <==> Sometime(key, start, steps, StoresDeployment))
              && (s.slot.service.Some? <==> Sometime(key, start, steps, StoresService))
  {
    if steps != [] {
      var n := |steps| - 1;
      KeptObjectsIff(key, spec, policy, steps[..n]);
      StepStores(key, Run(key, Fresh(spec, policy), steps[..n]), steps[n]);
    }
  }

  // ---- No object is ever replaced ----

  /** A slot without the status of its Deployment, which belongs to the cluster. */
  function Essence(slot: Slot): Slot {
    if slot.deployment.None? then slot
    else slot.(deployment := Some(slot.deployment.value.(conditions := [])))
  }

  /** How the objects at one moment relate to those at a later one: what is there at both moments is the same
      object; nothing goes while the resource is kept; nothing comes while it is being deleted. */
  predicate Continues(s: State, t: State) {
    var a, b := Essence(s.slot), Essence(t.slot);
    && Agree(a.pvc, b.pvc) && Agree(a.deployment, b.deployment) && Agree(a.service, b.service)
    && (!t.deleting ==> Grows(a, b))
    && (s.deleting ==> t.deleting && Withers(a, b))
  }

  lemma ContinuesIsTransitive(s: State, t: State, u: State)
    requires Continues(s, t) && Continues(t, u)
    ensures Continues(s, u)
  {
  }

  lemma StepContinues(key: Key, s: State, step: Step)
    ensures Continues(s, Next(key, s, step))
  {
    if step.Round? { RoundMoves(key, s, step.input); }
  }

  /** Over any run, with any failures and any edits, every object stays what it was when it was first stored
      until it is deleted, and a deleted object does not come back. */
  lemma {:induction false} RunContinues(key: Key, s: State, steps: seq<Step>)
    ensures Continues(s, Run(key, s, steps))
  {
    if steps != [] {
      var n := |steps| - 1;
      RunContinues(key, s, steps[..n]);
      StepContinues(key, Run(key, s, steps[..n]), steps[n]);
      ContinuesIsTransitive(s, Run(key, s, steps[..n]), Run(key, s, steps));
    }
  }

  predicate Unedited(step: Step) { !step.EditSpec? }

  /** Under the Orphan policy the deletion of a resource leaves its objects alone. */
  lemma {:induction false} OrphanedObjectsStay(key: Key, s: State, steps: seq<Step>)
    requires s.deleting && s.policy.PolicyOrphan? && Every(steps, Unedited)
    ensures var t := Run(key, s, steps);
            t.deleting && t.policy.PolicyOrphan? && Essence(t.slot) == Essence(s.slot) && t.secret == s.secret
  {
    if steps != [] {
      var n := |steps| - 1;
      OrphanedObjectsStay(key, s, steps[..n]);
      var t := Run(key, s, steps[..n]);
      if steps[n].Round? {
        OrphaningDrive(t, steps[n].input, CreateIn(key, t, steps[n].input), DeleteIn(t, steps[n].input));
      }
    }
  }

  lemma OrphaningDrive(s: State, input: Input, c: Creation, d: Deletion)
    requires s.deleting && s.policy.PolicyOrphan?
    ensures var t := Drive(s, input, c, d); t == s || t == s.(finalizer := false, gone := true)
  {
  }
}
