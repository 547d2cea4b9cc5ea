/**
  The life of one Postgres resource as a state machine on values: what `Observe`, `Create` and `Delete` do to
  the three objects of one key, the round in which the reconciler calls them, and runs of such rounds
  interleaved with the user and the cluster.
 */
module PostgresLifecycle {
  import opened Wrappers
  import opened Kubernetes
  import opened Text
  import opened Password
  import opened CreateOrUpdate
  import opened Managed
  import opened PostgresApi
  import opened PostgresDefaults
  import opened PostgresObjects

  /** The cells of one key in the stores of the three kinds. */
  datatype Slot = Slot(pvc: Option<Pvc>, deployment: Option<Deployment>, service: Option<Service>)

  const EMPTY := Slot(None, None, None)

  /** The keys of the connection secret: "username", "password", "port", "database" and "endpoint". */
  datatype Field = Username | Password | Port | Database | Endpoint

  type Details = map<Field, string>
  type Secrets = map<Key, map<string, string>>

  // ---- Observe ----

  datatype Observation = Failed | Observed(present: bool, upToDate: bool, details: Details)

  function ObserveSlot(slot: Slot, getDeployment: Fault, getService: Fault): Observation {
    match GetCell(slot.deployment, getDeployment)
    case Err(NotFound) => Observed(false, false, map[])
    case Err(_) => Failed
    case Ok(deployment) =>
      if !Available(deployment.conditions) then Observed(true, false, map[])
      else match GetCell(slot.service, getService)
        case Err(_) => Failed
        case Ok(service) => Observed(true, true, map[Endpoint := service.clusterIP])
  }

  // ---- Create ----

  /** What one call of Create meets: the faults of its API calls, whether the size parses, the secrets it can
      read, the random source, and the address the API server hands out. */
  datatype CreateInput = CreateInput(
    sizeParses: bool, pvc: Calls,
    getSecret: Fault, secrets: Secrets, random: Option<Uuid>,
    deployment: Calls, service: Calls, clusterIP: string)

  datatype Creation = Creation(slot: Slot, result: Result<Details, Error>)

  function ParseInputSecret(p: Parameters, secrets: Secrets, get: Fault): Result<string, Error> {
    match p.passwordRef
    case None => Err(Invalid)
    case Some(ref) =>
      match GetCell(Lookup(secrets, Key(ref.namespace, ref.name)), get)
      case Err(e) => Err(e)
      case Ok(data) => Ok(if ref.key in data then data[ref.key] else "")
  }

  /** The password of the input secret, or a generated one when there is none. */
  function ChoosePassword(p: Parameters, c: CreateInput): Result<string, Error> {
    var given := ParseInputSecret(p, c.secrets, c.getSecret);
    if given.Err? || given.value == "" then GeneratePassword(c.random) else given
  }

  function Credentials(p: Parameters, password: string): Details {
    map[Username := StringValue(p.masterUsername),
        Password := password,
        Port := Itoa(IntValue(p.port)),
        Database := StringValue(p.database)]
  }

  function CreateSlot(key: Key, p: Parameters, slot: Slot, c: CreateInput): Creation {
    match MakePvc(key, p, c.sizeParses)
    case Err(e) => Creation(slot, Err(e))
    case Ok(pvc) =>
      var first := Ensure(PVCS, slot.pvc, pvc, c.pvc);
      var withPvc := slot.(pvc := first.cell);
      if first.err.Some? then Creation(withPvc, Err(first.err.value))
      else match ChoosePassword(p, c)
        case Err(e) => Creation(withPvc, Err(e))
        case Ok(password) =>
          var second := Ensure(DEPLOYMENTS, slot.deployment, MakeDeployment(key, p, password), c.deployment);
          var withDeployment := withPvc.(deployment := second.cell);
          if second.err.Some? then Creation(withDeployment, Err(second.err.value))
          else
            var third := Ensure(Services(c.clusterIP), slot.service, MakeService(key, p), c.service);
            Creation(withDeployment.(service := third.cell),
                     if third.err.Some? then Err(third.err.value) else Ok(Credentials(p, password)))
  }

  // ---- Delete ----

  datatype DeleteInput = DeleteInput(service: Calls, deployment: Calls, pvc: Calls)

  datatype Deletion = Deletion(slot: Slot, err: Option<Error>)

  /** One of the three delete helpers: a failed Get, whatever the failure, counts as "already gone". */
  function Remove<T>(cell: Option<T>, calls: Calls): Written<T> {
    if GetCell(cell, calls.get).Err? then Written(cell, None) else DeleteCell(cell, calls.write)
  }

  function DeleteSlot(slot: Slot, d: DeleteInput): Deletion {
    var first := Remove(slot.service, d.service);
    var withoutService := slot.(service := first.cell);
    if first.err.Some? then Deletion(withoutService, first.err)
    else
      var second := Remove(slot.deployment, d.deployment);
      var withoutDeployment := withoutService.(deployment := second.cell);
      if second.err.Some? then Deletion(withoutDeployment, second.err)
      else
        var third := Remove(slot.pvc, d.pvc);
        Deletion(withoutDeployment.(pvc := third.cell), third.err)
  }

  // ---- One round of the reconciler ----

  datatype LastCall = NoCall | Succeeded | Erred

  /** A resource, its objects and its connection secret. `gone` says that the resource itself has left the
      API server; `lastCall` is how the latest call of Create or Delete ended. */
  datatype State = State(
    slot: Slot, secret: Details,
    spec: Parameters, policy: DeletionPolicy,
    deleting: bool, finalizer: bool, ready: bool, gone: bool,
    lastCall: LastCall)

  datatype Input = Input(
    getDeployment: Fault, getService: Fault,
    publishObserved: Fault, addFinalizer: Fault,
    create: CreateInput, publishCreated: Fault,
    delete: DeleteInput, removeFinalizer: Fault,
    saveStatus: Fault)

  /** Publishing merges the details into the connection secret. */
  function Publish(s: State, details: Details, fault: Fault): State {
    if fault.Lands() then s.(secret := s.secret + details) else s
  }

  /** The resource leaves the API server with its last finalizer. */
  function RemoveFinalizer(s: State, fault: Fault): State {
    if fault.Lands() then s.(finalizer := false, gone := true) else s
  }

  /** The part of a round after Observe when deletion was requested; d is what Delete would do. */
  function DeletingRound(s: State, present: bool, input: Input, d: Deletion): State {
    if present then s.(slot := d.slot, lastCall := if d.err.None? then Succeeded else Erred)
    else RemoveFinalizer(s, input.removeFinalizer)
  }

  /** The call of Create, and the publishing of what it returns. */
  function CreatingRound(s: State, input: Input, c: Creation): State {
    match c.result
    case Err(_) => s.(slot := c.slot, lastCall := Erred)
    case Ok(details) => Publish(s.(slot := c.slot, lastCall := Succeeded), details, input.publishCreated)
  }

  /** Publish what was observed, then add the finalizer, unless publishing failed. */
  function Prepare(s: State, o: Observation, input: Input): State
    requires o.Observed?
  {
    var published := Publish(s, o.details, input.publishObserved);
    if input.publishObserved.Works? && input.addFinalizer.Lands() then published.(finalizer := true) else published
  }

  /** Whether the round goes on after that. A finalizer that is already there costs no API call. */
  predicate Proceeds(s: State, input: Input) {
    input.publishObserved.Works? && (s.finalizer || input.addFinalizer.Works?)
  }

  /** The part of a round after Observe otherwise: prepare, then Create if the resource is absent. If it is
      present but not up to date, Update is called, which does nothing. */
  function KeepingRound(s: State, o: Observation, input: Input, c: Creation): State
    requires o.Observed?
  {
    if Proceeds(s, input) && !o.present then CreatingRound(Prepare(s, o, input), input, c)
    else Prepare(s, o, input)
  }

  /** The part of a round after Observe. */
  function Act(s: State, o: Observation, input: Input, c: Creation, d: Deletion): State
    requires o.Observed?
  {
    if s.deleting then DeletingRound(s, o.present, input, d) else KeepingRound(s, o, input, c)
  }

  /** A round, given what Create and Delete would do in it. It reads the resource, and ends by saving its
      status, in which Observe may have set Ready. */
  function Drive(s: State, input: Input, c: Creation, d: Deletion): State {
    if s.gone then s
    else if s.deleting && s.policy.PolicyOrphan? then RemoveFinalizer(s, input.removeFinalizer)
    else
      var o := ObserveSlot(s.slot, input.getDeployment, input.getService);
      if o.Failed? then s
      else Act(s, o, input, c, d).(ready := s.ready || (o.upToDate && input.saveStatus.Lands()))
  }

  /** What Create would do in a round. Observe has filled in the missing parameters by then. */
  function CreateIn(key: Key, s: State, input: Input): Creation {
    CreateSlot(key, Defaulted(s.spec), s.slot, input.create)
  }

  function DeleteIn(s: State, input: Input): Deletion {
    DeleteSlot(s.slot, input.delete)
  }

  function Reconcile(key: Key, s: State, input: Input): State {
    Drive(s, input, CreateIn(key, s, input), DeleteIn(s, input))
  }

  // ---- Runs ----

  datatype Step =
    | Round(input: Input)
    | DeploymentStatus(conditions: seq<Condition>)
    | EditSpec(spec: Parameters, policy: DeletionPolicy)
    | RequestDeletion

  function Next(key: Key, s: State, step: Step): State {
    match step
    case Round(input) => Reconcile(key, s, input)
    case DeploymentStatus(conditions) =>
      if s.slot.deployment.None? then s
      else s.(slot := s.slot.(deployment := Some(s.slot.deployment.value.(conditions := conditions))))
    case EditSpec(spec, policy) => if s.gone then s else s.(spec := spec, policy := policy)
    case RequestDeletion => if s.finalizer then s.(deleting := true) else s.(deleting := true, gone := true)
  }

  function Run(key: Key, s: State, steps: seq<Step>): State {
    if steps == [] then s else Next(key, Run(key, s, steps[..|steps| - 1]), steps[|steps| - 1])
  }

  /** Some step of a run is of this kind, in the state in which it is taken. */
  predicate Sometime(key: Key, s: State, steps: seq<Step>, kind: (State, Step) -> bool) {
    steps != [] &&
    var earlier := steps[..|steps| - 1];
    Sometime(key, s, earlier, kind) || kind(Run(key, s, earlier), steps[|steps| - 1])
  }

  /** The i-th step is. */
  predicate At(key: Key, s: State, steps: seq<Step>, kind: (State, Step) -> bool, i: nat) {
    i < |steps| && kind(Run(key, s, steps[..i]), steps[i])
  }

  lemma {:induction false} SometimeIff(key: Key, s: State, steps: seq<Step>, kind: (State, Step) -> bool)
    ensures Sometime(key, s, steps, kind) <==> exists i: nat :: At(key, s, steps, kind, i)
  {
    if steps != [] {
      var n := |steps| - 1;
      SometimeIff(key, s, steps[..n], kind);
      forall i: nat | i < n ensures At(key, s, steps[..n], kind, i) <==> At(key, s, steps, kind, i) {
        assert steps[..n][..i] == steps[..i];
      }
      assert At(key, s, steps, kind, n) <==> kind(Run(key, s, steps[..n]), steps[n]);
    }
  }

  /** A resource that has just been created by its user. */
  function Fresh(spec: Parameters, policy: DeletionPolicy): State {
    State(EMPTY, map[], spec, policy, false, false, false, false, NoCall)
  }

  lemma {:induction false} RunConcat(key: Key, s: State, a: seq<Step>, b: seq<Step>)
    ensures Run(key, s, a + b) == Run(key, Run(key, s, a), b)
  {
    if b == [] {
      assert a + b == a;
    } else {
      RunConcat(key, s, a, b[..|b| - 1]);
      assert (a + b)[..|a + b| - 1] == a + b[..|b| - 1];
    }
  }
}
