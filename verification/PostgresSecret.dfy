/**
  When the connection secret is complete: exactly which rounds publish what, over whole runs, and what it takes
  for a resource that is Ready to have all the fields that docs/database.md promises.
 */
module PostgresSecret {
  import opened Wrappers
  import opened Kubernetes
  import opened Managed
  import opened PostgresApi
  import opened PostgresDefaults
  import opened PostgresObjects
  import opened PostgresLifecycle
  import opened PostgresLadder
  import opened PostgresConvergence
  import opened PostgresCredentials

  predicate HasCredentials(secret: Details) {
    Username in secret && Password in secret && Port in secret && Database in secret
  }

  /** Exactly when the credentials are in the secret: the round that stored the Deployment went on to store
      the Service, was told so both times, and then published. Nothing later repairs it. */
  lemma CredentialsArePublishedIff(key: Key, spec: Parameters, policy: DeletionPolicy, before: seq<Step>,
                                   input: Input, after: seq<Step>)
    ensures var s := Run(key, Fresh(spec, policy), before);
            var t := Run(key, Run(key, Fresh(spec, policy), before + [Round(input)]), after);
            s.slot.deployment.None? && Next(key, s, Round(input)).slot.deployment.Some? ==>
              (HasCredentials(t.secret) <==>
                 && input.create.deployment.write.Works?
                 && input.create.service == CLEAN
                 && input.publishCreated.Lands())
  {
    var s := Run(key, Fresh(spec, policy), before);
    var t := Next(key, s, Round(input));
    assert (before + [Round(input)])[..|before|] == before;
    if s.slot.deployment.None? && t.slot.deployment.Some? {
      RunKeepsAgreement(key, Fresh(spec, policy), before);
      RoundMoves(key, s, input);
      CreateOutcome(key, Defaulted(s.spec), s.slot, input.create);
      DriveCreates(s, input, CreateIn(key, s, input), DeleteIn(s, input));
      CredentialsAreSettled(key, t, after);
    }
  }

  /** Once the Deployment exists, or deletion was requested, Create is not called, so the credentials in the
      secret stay as they are. */
  lemma {:induction false} CredentialsAreSettled(key: Key, s: State, steps: seq<Step>)
    requires s.deleting || s.slot.deployment.Some?
    ensures var t := Run(key, s, steps);
            && (t.deleting || t.slot.deployment.Some?)
            && (HasCredentials(t.secret) <==> HasCredentials(s.secret))
  {
    if steps != [] {
      var n := |steps| - 1;
      CredentialsAreSettled(key, s, steps[..n]);
      var t := Run(key, s, steps[..n]);
      if steps[n].Round? {
        var input := steps[n].input;
        var c, d := CreateIn(key, t, input), DeleteIn(t, input);
        if t.deleting { DeletingDriveOnlyRemoves(t, input, c, d); } else { DriveSettled(t, input, c, d); }
      }
    }
  }

  lemma DriveSettled(s: State, input: Input, c: Creation, d: Deletion)
    requires !s.deleting && s.slot.deployment.Some?
    ensures var t := Drive(s, input, c, d);
            && t.slot.deployment.Some?
            && (HasCredentials(t.secret) <==> HasCredentials(s.secret))
  {
    var o := ObserveSlot(s.slot, input.getDeployment, input.getService);
    if !s.gone && o.Observed? { PreparationPublishes(s, o, input); }
  }

  /** How a call of Create that stores a Deployment in an empty place ends. */
  lemma CreateOutcome(key: Key, p: Parameters, slot: Slot, c: CreateInput)
    requires slot.deployment.None? && slot.service.None?
    ensures var r := CreateSlot(key, p, slot, c);
            && (r.slot.deployment.Some? ==> (r.result.Ok? <==> c.deployment.write.Works? && c.service == CLEAN))
            && (r.result.Ok? ==> HasCredentials(r.result.value))
  {
  }

  lemma DriveCreates(s: State, input: Input, c: Creation, d: Deletion)
    requires !s.deleting && s.slot.deployment.None? && s.secret == map[]
    requires c.result.Ok? ==> HasCredentials(c.result.value)
    requires Drive(s, input, c, d).slot.deployment.Some?
    ensures c.slot.deployment.Some?
    ensures HasCredentials(Drive(s, input, c, d).secret) <==> c.result.Ok? && input.publishCreated.Lands()
  {
  }

  // ---- Every publication, over whole runs ----

  /** Exactly what a call of Create needs in order to succeed. */
  predicate Completes(p: Parameters, slot: Slot, c: CreateInput) {
    && c.sizeParses && c.pvc.get.Works? && (slot.pvc.Some? || c.pvc.write.Works?)
    && (GivesPassword(p, c) || c.random.Some?)
    && c.deployment.get.Works? && (slot.deployment.Some? || c.deployment.write.Works?)
    && c.service.get.Works? && (slot.service.Some? || c.service.write.Works?)
  }

  lemma CreateSucceedsIff(key: Key, p: Parameters, slot: Slot, c: CreateInput)
    ensures var r := CreateSlot(key, p, slot, c).result;
            && (r.Ok? <==> Completes(p, slot, c))
            && (r.Ok? ==> HasCredentials(r.value) && Endpoint !in r.value)
  {
  }

  /** A round of a kept resource that calls Create, is told of its success, and publishes what it returns. */
  predicate PublishesCredentials(s: State, step: Step) {
    && step.Round? && CallsCreate(s, step.input)
    && Completes(Defaulted(s.spec), s.slot, step.input.create) && step.input.publishCreated.Lands()
  }

  /** A round of a kept resource that reads an available Deployment and the Service, and publishes that. */
  predicate PublishesEndpoint(s: State, step: Step) {
    && step.Round? && !s.gone && !s.deleting
    && step.input.getDeployment.Works? && step.input.getService.Works? && step.input.publishObserved.Lands()
    && s.slot.deployment.Some? && Available(s.slot.deployment.value.conditions) && s.slot.service.Some?
  }

  lemma DrivePublishes(s: State, input: Input, c: Creation, d: Deletion)
    requires c.result.Ok? <==> Completes(Defaulted(s.spec), s.slot, input.create)
    requires c.result.Ok? ==> HasCredentials(c.result.value) && Endpoint !in c.result.value
    ensures var t := Drive(s, input, c, d);
            && (HasCredentials(t.secret) <==> HasCredentials(s.secret) || PublishesCredentials(s, Round(input)))
            && (Endpoint in t.secret <==> Endpoint in s.secret || PublishesEndpoint(s, Round(input)))
  {
    if s.deleting {
      DeletingDriveOnlyRemoves(s, input, c, d);
    } else {
      var o := ObserveSlot(s.slot, input.getDeployment, input.getService);
      if !s.gone && o.Observed? { KeepingRoundPublishes(s, o, input, c); }
    }
  }

  lemma KeepingRoundPublishes(s: State, o: Observation, input: Input, c: Creation)
    requires o == ObserveSlot(s.slot, input.getDeployment, input.getService) && o.Observed? && !s.deleting && !s.gone
    requires c.result.Ok? <==> Completes(Defaulted(s.spec), s.slot, input.create)
    requires c.result.Ok? ==> HasCredentials(c.result.value) && Endpoint !in c.result.value
    ensures var t := KeepingRound(s, o, input, c);
            && (HasCredentials(t.secret) <==> HasCredentials(s.secret) || PublishesCredentials(s, Round(input)))
            && (Endpoint in t.secret <==> Endpoint in s.secret || PublishesEndpoint(s, Round(input)))
  {
    PreparationPublishes(s, o, input);
    var t := Prepare(s, o, input);
    if CallsCreate(s, input) { CreationPublishes(t, input, c); }
  }

  /** Observe publishes at most the endpoint. */
  lemma PreparationPublishes(s: State, o: Observation, input: Input)
    requires o == ObserveSlot(s.slot, input.getDeployment, input.getService) && o.Observed? && !s.deleting && !s.gone
    ensures var t := Prepare(s, o, input);
            && (HasCredentials(t.secret) <==> HasCredentials(s.secret))
            && (Endpoint in t.secret <==> Endpoint in s.secret || PublishesEndpoint(s, Round(input)))
  {
  }

  /** Create publishes at most the credentials. */
  lemma CreationPublishes(s: State, input: Input, c: Creation)
    requires c.result.Ok? ==> HasCredentials(c.result.value) && Endpoint !in c.result.value
    ensures var t := CreatingRound(s, input, c);
            && (HasCredentials(t.secret) <==>
                  HasCredentials(s.secret) || (c.result.Ok? && input.publishCreated.Lands()))
            && (Endpoint in t.secret <==> Endpoint in s.secret)
  {
  }

  /** Over any run: the credentials are in the secret exactly if they were at the start or some round published
      them, and so for the endpoint. */
  lemma {:induction false} PublishedIff(key: Key, s: State, steps: seq<Step>)
    ensures var t := Run(key, s, steps);
            && (HasCredentials(t.secret) <==> HasCredentials(s.secret) || Sometime(key, s, steps, PublishesCredentials))
            && (Endpoint in t.secret <==> Endpoint in s.secret || Sometime(key, s, steps, PublishesEndpoint))
  {
    if steps != [] {
      var n := |steps| - 1;
      PublishedIff(key, s, steps[..n]);
      var t := Run(key, s, steps[..n]);
      if steps[n].Round? {
        var input := steps[n].input;
        CreateSucceedsIff(key, Defaulted(t.spec), t.slot, input.create);
        DrivePublishes(t, input, CreateIn(key, t, input), DeleteIn(t, input));
      }
    }
  }

  /** All that docs/database.md promises of the connection secret. */
  predicate IsFull(secret: Details) { HasCredentials(secret) && Endpoint in secret }

  /** The connection secret has all five fields, whether or not the resource is Ready or being deleted, exactly
      if one round of its life published the credentials and one, while it was kept, the endpoint. What it has
      agrees with the stored objects. */
  lemma SecretIsFullIff(key: Key, spec: Parameters, policy: DeletionPolicy, steps: seq<Step>)
    ensures var start := Fresh(spec, policy);
            var s := Run(key, start, steps);
            && (IsFull(s.secret) <==>
                  && Sometime(key, start, steps, PublishesCredentials)
                  && Sometime(key, start, steps, PublishesEndpoint))
            && Agreement(s)
  {
    PublishedIff(key, Fresh(spec, policy), steps);
    CredentialsAlwaysAgree(key, spec, policy, steps);
  }

  // ---- Ready and complete ----

  /** A write of the Service that fails has had no effect, and everything that is published arrives. */
  predicate TidyStep(step: Step) {
    step.Round? ==>
      && !step.input.create.service.write.FailsAfter?
      && step.input.publishObserved.Lands() && step.input.publishCreated.Lands()
  }

  predicate Informed(s: State) {
    && Silence(s)
    && (s.slot.service.Some? || s.ready ==> HasCredentials(s.secret))
    && (!s.deleting && s.ready ==> s.slot.service.Some? && Endpoint in s.secret)
  }

  lemma DriveKeepsInformed(s: State, input: Input, c: Creation, d: Deletion)
    requires Informed(s) && TidyStep(Round(input)) && !s.deleting
    requires s.slot.deployment.None? ==>
               && (c.slot.service.Some? ==> c.result.Ok?)
               && (c.result.Ok? ==> HasCredentials(c.result.value))
    ensures var t := Drive(s, input, c, d);
            && (t.slot.service.Some? || t.ready ==> HasCredentials(t.secret))
            && (t.ready ==> t.slot.service.Some? && Endpoint in t.secret)
  {
    var o := ObserveSlot(s.slot, input.getDeployment, input.getService);
    if !s.gone && o.Observed? { KeepingRoundInforms(s, o, input, c); }
  }

  lemma KeepingRoundInforms(s: State, o: Observation, input: Input, c: Creation)
    requires Informed(s) && TidyStep(Round(input)) && !s.deleting && !s.gone
    requires o == ObserveSlot(s.slot, input.getDeployment, input.getService) && o.Observed?
    requires s.slot.deployment.None? ==>
               && (c.slot.service.Some? ==> c.result.Ok?)
               && (c.result.Ok? ==> HasCredentials(c.result.value))
    ensures var t := KeepingRound(s, o, input, c);
            && (t.slot.service.Some? ==> HasCredentials(t.secret))
            && (s.ready || o.upToDate ==> t.slot.service.Some? && Endpoint in t.secret)
  {
    PreparationPublishes(s, o, input);
  }

  lemma DeletingDriveIsInformed(s: State, input: Input, c: Creation, d: Deletion)
    requires Informed(s) && s.deleting && Withers(s.slot, d.slot)
    ensures Informed(Drive(s, input, c, d))
  {
  }

  lemma TidyCreate(key: Key, p: Parameters, slot: Slot, c: CreateInput)
    requires slot.deployment.None? && slot.service.None? && !c.service.write.FailsAfter?
    ensures var r := CreateSlot(key, p, slot, c);
            && (r.slot.service.Some? ==> r.result.Ok?)
            && (r.result.Ok? ==> HasCredentials(r.result.value))
  {
  }

  lemma StepKeepsInformed(key: Key, s: State, step: Step)
    requires Informed(s) && Agreement(s) && TidyStep(step)
    ensures Informed(Next(key, s, step))
  {
    if step.Round? {
      var input := step.input;
      var c, d := CreateIn(key, s, input), DeleteIn(s, input);
      if s.deleting {
        DeleteDescends(s.slot, input.delete);
        DeletingDriveIsInformed(s, input, c, d);
      } else {
        RoundKeepsAgreement(key, s, input);
        RoundMoves(key, s, input);
        if s.slot.deployment.None? { TidyCreate(key, Defaulted(s.spec), s.slot, input.create); }
        DriveKeepsInformed(s, input, c, d);
      }
    }
  }

  lemma {:induction false} RunKeepsInformed(key: Key, s: State, steps: seq<Step>)
    requires Informed(s) && Agreement(s) && Every(steps, TidyStep)
    ensures Informed(Run(key, s, steps)) && Agreement(Run(key, s, steps))
  {
    if steps != [] {
      var n := |steps| - 1;
      RunKeepsInformed(key, s, steps[..n]);
      StepKeepsInformed(key, Run(key, s, steps[..n]), steps[n]);
      StepKeepsAgreement(key, Run(key, s, steps[..n]), steps[n]);
    }
  }

  /** In a run in which failed writes of the Service have no effect and every publication arrives, a resource
      that is Ready has its credentials in the secret. It has all five fields if it is being kept, and in any
      case exactly if some round saw its endpoint before deletion was requested. */
  lemma ReadyMeansFullSecret(key: Key, spec: Parameters, policy: DeletionPolicy, steps: seq<Step>)
    requires Every(steps, TidyStep)
    ensures var start := Fresh(spec, policy);
            var s := Run(key, start, steps);
            && Agreement(s)
            && (s.ready ==> HasCredentials(s.secret))
            && (s.ready && !s.deleting ==> IsFull(s.secret) && s.slot.deployment.Some? && s.slot.service.Some?)
            && (s.ready ==> (IsFull(s.secret) <==> Sometime(key, start, steps, PublishesEndpoint)))
  {
    RunKeepsInformed(key, Fresh(spec, policy), steps);
    PublishedIff(key, Fresh(spec, policy), steps);
  }

  /** A round of a deletion may still find everything available and record Ready, but publishes nothing. */
  lemma ReadyWhileDeleting(key: Key, s: State, clean: Input, conditions: seq<Condition>)
    requires Live(s) && s.slot == EMPTY && s.policy.PolicyDelete? && s.secret == map[]
    requires Clean(clean) && Available(conditions)
    ensures var t := Run(key, s, [Round(clean), RequestDeletion]);
            var u := Next(key, Next(key, t, DeploymentStatus(conditions)), Round(clean));
            u.ready && Endpoint !in u.secret
  {
    CreatedThenDeleting(key, s, clean);
    NoEndpointYet(key, s, clean);
    var t := Run(key, s, [Round(clean), RequestDeletion]);
    var seen := Next(key, t, DeploymentStatus(conditions));
    DeletingDriveSees(seen, clean, CreateIn(key, seen, clean), DeleteIn(seen, clean));
  }

  lemma NoEndpointYet(key: Key, s: State, clean: Input)
    requires Live(s) && s.slot == EMPTY && s.secret == map[] && Clean(clean)
    ensures Endpoint !in Run(key, s, [Round(clean), RequestDeletion]).secret
  {
    RunTwo(key, s, Round(clean), RequestDeletion);
    var password := CreateBuilds(key, Defaulted(s.spec), s.slot, clean.create);
    CreatedSecret(s, clean, CreateIn(key, s, clean), DeleteIn(s, clean));
  }

  lemma CreatedSecret(s: State, input: Input, c: Creation, d: Deletion)
    requires Live(s) && s.slot.deployment.None? && Endpoint !in s.secret
    requires c.result.Ok? ==> Endpoint !in c.result.value
    ensures Endpoint !in Drive(s, input, c, d).secret
  {
  }

  lemma DeletingDriveSees(s: State, input: Input, c: Creation, d: Deletion)
    requires Deleting(s) && s.slot.deployment.Some? && s.slot.service.Some?
    requires Available(s.slot.deployment.value.conditions) && Clean(input)
    ensures Drive(s, input, c, d).ready && Drive(s, input, c, d).secret == s.secret
  {
  }

  /** The same round with a Service that is stored although its write reports an error. */
  function Unanswered(clean: Input): Input {
    clean.(create := clean.create.(service := Calls(Works, FailsAfter)))
  }

  /** Without the hypothesis on the Service it fails: after such a round the resource is Ready as soon as its
      Deployment is available, and stays without its credentials for good. */
  lemma ReadyWithoutCredentials(key: Key, spec: Parameters, policy: DeletionPolicy, clean: Input,
                                conditions: seq<Condition>, more: seq<Step>)
    requires Clean(clean) && Available(conditions) && Every(more, KeepingStep)
    ensures var s := Next(key, Fresh(spec, policy), Round(Unanswered(clean)));
            var t := Next(key, Next(key, s, DeploymentStatus(conditions)), Round(clean));
            t.ready && Run(key, t, more).ready && !HasCredentials(Run(key, t, more).secret)
  {
    var s := Next(key, Fresh(spec, policy), Round(Unanswered(clean)));
    UnansweredService(key, Fresh(spec, policy), clean);
    var t := Next(key, Next(key, s, DeploymentStatus(conditions)), Round(clean));
    ReadyInTwoSteps(key, s, conditions, clean);
    CredentialsAreSettled(key, t, more);
    RunKeepsLive(key, t, more);
  }

  lemma ReadyInTwoSteps(key: Key, s: State, conditions: seq<Condition>, clean: Input)
    requires Live(s) && s.slot.deployment.Some? && s.slot.service.Some? && !HasCredentials(s.secret)
    requires Clean(clean) && Available(conditions)
    ensures var t := Next(key, Next(key, s, DeploymentStatus(conditions)), Round(clean));
            Live(t) && t.ready && t.slot.deployment.Some? && !HasCredentials(t.secret)
  {
    SeeingIsReady(key, s, conditions, clean);
    var seen := Next(key, s, DeploymentStatus(conditions));
    StepKeepsLive(key, seen, Round(clean));
    DriveSettled(seen, clean, CreateIn(key, seen, clean), DeleteIn(seen, clean));
  }

  lemma UnansweredService(key: Key, s: State, clean: Input)
    requires Live(s) && s.slot == EMPTY && s.secret == map[] && Clean(clean)
    ensures var t := Reconcile(key, s, Unanswered(clean));
            Live(t) && t.slot.deployment.Some? && t.slot.service.Some? && !HasCredentials(t.secret)
  {
  }
}
