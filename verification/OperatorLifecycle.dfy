/**
  The life of one OLM Operator resource as a state machine on values. Its own object is a Subscription;
  whether it exists is judged by the ClusterServiceVersion (CSV) at the head of its channel, which OLM
  installs and the catalog may change at any time.
 */
module OperatorLifecycle {
  import opened Wrappers
  import opened Kubernetes
  import opened Managed

  datatype OperatorParameters = OperatorParameters(
    operatorName: string, catalogSource: string, catalogSourceNamespace: string, channel: string)

  datatype Subscription = Subscription(
    key: Key, catalogSource: string, catalogSourceNamespace: string, package: string, channel: string)

  datatype Csv = Csv(phase: string)

  datatype Channel = Channel(name: string, currentCSV: string)
  datatype PackageManifest = PackageManifest(channels: seq<Channel>)

  function MakeSubscription(key: Key, p: OperatorParameters): Subscription {
    Subscription(key, p.catalogSource, p.catalogSourceNamespace, p.operatorName, p.channel)
  }

  /** The CSV of the first entry of the channel. */
  function FirstMatch(channels: seq<Channel>, name: string): Option<string> {
    if channels == [] then None
    else if channels[0].name == name then Some(channels[0].currentCSV)
    else FirstMatch(channels[1..], name)
  }

  lemma {:induction false} FirstMatchIsFirst(channels: seq<Channel>, name: string, i: nat)
    requires i < |channels| && channels[i].name == name
    requires forall j :: 0 <= j < i ==> channels[j].name != name
    ensures FirstMatch(channels, name) == Some(channels[i].currentCSV)
  {
    if i > 0 { FirstMatchIsFirst(channels[1..], name, i - 1); }
  }

  lemma {:induction false} FirstMatchNoneIff(channels: seq<Channel>, name: string)
    ensures FirstMatch(channels, name).None? <==> forall c :: c in channels ==> c.name != name
  {
    if channels != [] {
      FirstMatchNoneIff(channels[1..], name);
      assert channels == [channels[0]] + channels[1..];
    }
  }

  // ---- Observe, Create and Delete ----

  /** What the cluster holds that concerns one resource, and the catalog. */
  datatype Scene = Scene(
    subscription: Option<Subscription>, csvs: map<Key, Csv>, manifests: map<Key, PackageManifest>)

  function ManifestKey(p: OperatorParameters): Key { Key(p.catalogSourceNamespace, p.operatorName) }

  function LookUpManifest(p: OperatorParameters, scene: Scene, get: Fault): Result<PackageManifest, Error> {
    GetCell(Lookup(scene.manifests, ManifestKey(p)), get)
  }

  function CheckCsv(k: Key, scene: Scene, get: Fault): (bool, bool) {
    match GetCell(Lookup(scene.csvs, k), get)
    case Err(_) => (false, false)
    case Ok(csv) => (true, csv.phase == "Succeeded")
  }

  datatype Observation = Failed | Observed(present: bool, upToDate: bool)

  function Observe(key: Key, p: OperatorParameters, scene: Scene, getManifest: Fault, getCsv: Fault): Observation {
    match LookUpManifest(p, scene, getManifest)
    case Err(_) => Failed
    case Ok(manifest) =>
      match FirstMatch(manifest.channels, p.channel)
      case None => Observed(false, false)
      case Some(csv) =>
        var found := CheckCsv(Key(key.namespace, csv), scene, getCsv);
        Observed(found.0, found.1)
  }

  datatype Outcome = Outcome(scene: Scene, err: Option<Error>)

  /** Creating a Subscription that is already there counts as success. */
  function Create(key: Key, p: OperatorParameters, scene: Scene, write: Fault): Outcome {
    var w := CreateCell(scene.subscription, MakeSubscription(key, p), write);
    Outcome(scene.(subscription := w.cell), if w.err == Some(AlreadyExists) then None else w.err)
  }

  /** Get, then delete. Here a failed Get, NotFound included, is an error. */
  function Remove<T>(cell: Option<T>, calls: Calls): Written<T> {
    match GetCell(cell, calls.get)
    case Err(e) => Written(cell, Some(e))
    case Ok(_) => DeleteCell(cell, calls.write)
  }

  datatype DeleteInput = DeleteInput(getManifest: Fault, csv: Calls, subscription: Calls)

  function DeleteSubscription(scene: Scene, calls: Calls): Outcome {
    var w := Remove(scene.subscription, calls);
    Outcome(scene.(subscription := w.cell), w.err)
  }

  function Delete(key: Key, p: OperatorParameters, scene: Scene, d: DeleteInput): Outcome {
    var manifest := LookUpManifest(p, scene, d.getManifest);
    var head := if manifest.Ok? then FirstMatch(manifest.value.channels, p.channel) else None;
    match head
    case None => DeleteSubscription(scene, d.subscription)
    case Some(csv) =>
      var k := Key(key.namespace, csv);
      var w := Remove(Lookup(scene.csvs, k), d.csv);
      var without := scene.(csvs := Store(scene.csvs, k, w.cell));
      if w.err.Some? then Outcome(without, w.err) else DeleteSubscription(without, d.subscription)
  }

  // ---- Rounds and runs ----

  datatype State = State(
    scene: Scene, spec: OperatorParameters, policy: DeletionPolicy,
    deleting: bool, finalizer: bool, ready: bool, gone: bool)

  datatype Input = Input(
    getManifest: Fault, getCsv: Fault, publishObserved: Fault, addFinalizer: Fault, create: Fault,
    delete: DeleteInput, removeFinalizer: Fault, saveStatus: Fault)

  function RemoveFinalizer(s: State, fault: Fault): State {
    if fault.Lands() then s.(finalizer := false, gone := true) else s
  }

  function DeletingRound(key: Key, s: State, present: bool, input: Input): State {
    if present then s.(scene := Delete(key, s.spec, s.scene, input.delete).scene)
    else RemoveFinalizer(s, input.removeFinalizer)
  }

  /** Nothing is published, but the connection secret is still written. */
  function KeepingRound(key: Key, s: State, present: bool, input: Input): State {
    if !input.publishObserved.Works? then s
    else
      var guarded := if input.addFinalizer.Lands() then s.(finalizer := true) else s;
      if !s.finalizer && !input.addFinalizer.Works? then guarded
      else if present then guarded
      else guarded.(scene := Create(key, s.spec, s.scene, input.create).scene)
  }

  /** The part of a round after Observe. */
  function Act(key: Key, s: State, o: Observation, input: Input): State
    requires o.Observed?
  {
    if s.deleting then DeletingRound(key, s, o.present, input) else KeepingRound(key, s, o.present, input)
  }

  function Reconcile(key: Key, s: State, input: Input): State {
    if s.gone then s
    else if s.deleting && s.policy.PolicyOrphan? then RemoveFinalizer(s, input.removeFinalizer)
    else
      var o := Observe(key, s.spec, s.scene, input.getManifest, input.getCsv);
      if o.Failed? then s
      else Act(key, s, o, input).(ready := s.ready || (o.upToDate && input.saveStatus.Lands()))
  }

  /** OLM may change the CSVs and the catalog its manifests in any way. */
  datatype Step =
    | Round(input: Input)
    | Install(csvs: map<Key, Csv>)
    | Catalog(manifests: map<Key, PackageManifest>)
    | EditSpec(spec: OperatorParameters, policy: DeletionPolicy)
    | RequestDeletion

  function Next(key: Key, s: State, step: Step): State {
    match step
    case Round(input) => Reconcile(key, s, input)
    case Install(csvs) => s.(scene := s.scene.(csvs := csvs))
    case Catalog(manifests) => s.(scene := s.scene.(manifests := manifests))
    case EditSpec(spec, policy) => if s.gone then s else s.(spec := spec, policy := policy)
    case RequestDeletion => if s.finalizer then s.(deleting := true) else s.(deleting := true, gone := true)
  }

  function Run(key: Key, s: State, steps: seq<Step>): State {
    if steps == [] then s else Next(key, Run(key, s, steps[..|steps| - 1]), steps[|steps| - 1])
  }

  /** A resource that has just been created by its user, in any cluster without a Subscription of its key. */
  function Fresh(spec: OperatorParameters, policy: DeletionPolicy, csvs: map<Key, Csv>,
                 manifests: map<Key, PackageManifest>): State
  {
    State(Scene(None, csvs, manifests), spec, policy, false, false, false, false)
  }

  /** Some step of a run is of this kind, in the state in which it is taken. */
  predicate Sometime(key: Key, s: State, steps: seq<Step>, kind: (Key, State, Step) -> bool) {
    steps != [] &&
    var earlier := steps[..|steps| - 1];
    Sometime(key, s, earlier, kind) || kind(key, Run(key, s, earlier), steps[|steps| - 1])
  }
}
