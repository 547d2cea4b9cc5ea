/** The OLM client and the Operator controller as they run, proved against the state machine. */
module OperatorController {
  import opened Wrappers
  import opened Kubernetes
  import opened Text
  import opened Managed
  import opened OperatorLifecycle
  import opened OperatorFleet

  /** An Operator resource in memory. */
  class Operator {
    var name: string
    var namespace: string
    var parameters: OperatorParameters
    var ready: bool

    constructor (name: string, namespace: string, parameters: OperatorParameters, ready: bool)
      ensures this.name == name && this.namespace == namespace && this.parameters == parameters && this.ready == ready
    {
      this.name, this.namespace, this.parameters, this.ready := name, namespace, parameters, ready;
    }

    function KeyOf(): Key reads this { Key(namespace, name) }
  }

  /** Gives a resource without a namespace the default one, and reports whether it did. */
  method InitializeDefaults(op: Operator) returns (updated: bool)
    modifies op`namespace
    ensures op.namespace == DefaultNamespace(old(op.namespace))
    ensures updated == (TrimSpace(old(op.namespace)) == "")
  {
    updated := false;
    if TrimSpace(op.namespace) == "" {
      op.namespace := "default";
      updated := true;
    }
  }

  /** The client of pkg/client/olm/operator. */
  class OlmClient {
    const subscriptions: Collection<Subscription>
    const csvs: Collection<Csv>
    const manifests: Collection<PackageManifest>

    constructor ()
      ensures fresh(subscriptions) && fresh(csvs) && fresh(manifests)
    {
      subscriptions := new Collection();
      csvs := new Collection();
      manifests := new Collection();
    }

    /** What the cluster holds for the Subscription of one key. */
    ghost function View(k: Key): Scene
      reads subscriptions, csvs, manifests
    {
      Scene(Lookup(subscriptions.objects, k), csvs.objects, manifests.objects)
    }

    method CreateOperator(op: Operator, write: Fault) returns (err: Option<Error>)
      modifies subscriptions
      ensures var k := op.KeyOf();
              var w := CreateCell(Lookup(old(subscriptions.objects), k), MakeSubscription(k, op.parameters), write);
              subscriptions.objects == Store(old(subscriptions.objects), k, w.cell) && err == w.err
    {
      err := subscriptions.Create(op.KeyOf(), MakeSubscription(op.KeyOf(), op.parameters), write);
    }

    method GetPackageManifest(op: Operator, get: Fault) returns (r: Result<PackageManifest, Error>)
      ensures r == LookUpManifest(op.parameters, View(op.KeyOf()), get)
    {
      r := manifests.Get(ManifestKey(op.parameters), get);
    }

    /** The loop over the channels, which returns at the first match. */
    method ParsePackageManifest(op: Operator, manifest: PackageManifest) returns (csv: Option<string>)
      ensures csv == FirstMatch(manifest.channels, op.parameters.channel)
    {
      var channels := manifest.channels;
      for i := 0 to |channels|
        invariant forall j :: 0 <= j < i ==> channels[j].name != op.parameters.channel
      {
        if channels[i].name == op.parameters.channel {
          FirstMatchIsFirst(channels, op.parameters.channel, i);
          return Some(channels[i].currentCSV);
        }
      }
      FirstMatchNoneIff(channels, op.parameters.channel);
      csv := None;
    }

    method CheckCSV(csv: string, op: Operator, get: Fault) returns (present: bool, updated: bool)
      ensures (present, updated) == CheckCsv(Key(op.namespace, csv), View(op.KeyOf()), get)
    {
      var got := csvs.Get(Key(op.namespace, csv), get);
      if got.Err? { return false, false; }
      return true, got.value.phase == "Succeeded";
    }

    /** `DeleteCSV` and `DeleteSubscription`: get, then delete, and any failure is an error. */
    method DeleteObject<T>(c: Collection<T>, k: Key, calls: Calls) returns (err: Option<Error>)
      modifies c
      ensures var w := Remove(Lookup(old(c.objects), k), calls);
              c.objects == Store(old(c.objects), k, w.cell) && err == w.err
    {
      StoreLaws(c.objects, k, None, None);
      var got := c.Get(k, calls.get);
      if got.Err? { return Some(got.error); }
      err := c.Delete(k, calls.write);
    }
  }

  /** The external client of pkg/controller/olm/operator. */
  class External {
    const client: OlmClient

    constructor (client: OlmClient)
      ensures this.client == client
    {
      this.client := client;
    }

    method Observe(op: Operator, getManifest: Fault, getCsv: Fault) returns (o: Observation)
      modifies op
      ensures op.namespace == DefaultNamespace(old(op.namespace))
      ensures op.name == old(op.name) && op.parameters == old(op.parameters)
      ensures o == OperatorLifecycle.Observe(op.KeyOf(), op.parameters, client.View(op.KeyOf()), getManifest, getCsv)
      ensures op.ready == (old(op.ready) || (o.Observed? && o.upToDate))
    {
      var updated := InitializeDefaults(op);
      var manifest := client.GetPackageManifest(op, getManifest);
      if manifest.Err? { return Failed; }
      var csv := client.ParsePackageManifest(op, manifest.value);
      if csv.None? { return Observed(false, false); }
      var present, upToDate := client.CheckCSV(csv.value, op, getCsv);
      if !upToDate { return Observed(present, false); }
      op.ready := true;
      o := Observed(present, upToDate);
    }

    method Create(op: Operator, write: Fault) returns (err: Option<Error>)
      modifies client.subscriptions
      ensures var k := op.KeyOf();
              var w := OperatorLifecycle.Create(k, op.parameters, old(client.View(k)), write);
              && client.subscriptions.objects == Store(old(client.subscriptions.objects), k, w.scene.subscription)
              && err == w.err
    {
      err := client.CreateOperator(op, write);
      if err == Some(AlreadyExists) { err := None; }
    }

    /** Nothing is ever updated. */
    method Update(op: Operator) {
    }

    method Delete(op: Operator, d: DeleteInput) returns (err: Option<Error>)
      modifies client.subscriptions, client.csvs
      ensures var k := op.KeyOf();
              var w := OperatorLifecycle.Delete(k, op.parameters, old(client.View(k)), d);
              && client.subscriptions.objects == Store(old(client.subscriptions.objects), k, w.scene.subscription)
              && client.csvs.objects == w.scene.csvs
              && err == w.err
    {
      StoreSame(client.subscriptions.objects, op.KeyOf());
      var manifest := client.GetPackageManifest(op, d.getManifest);
      if manifest.Ok? {
        var csv := client.ParsePackageManifest(op, manifest.value);
        if csv.Some? {
          err := client.DeleteObject(client.csvs, Key(op.namespace, csv.value), d.csv);
          if err.Some? { return; }
        }
      }
      err := client.DeleteObject(client.subscriptions, op.KeyOf(), d.subscription);
    }
  }

  /** The reconciler of crossplane-runtime v0.10.0 around the external client. */
  class Reconciler {
    const external: External

    constructor (external: External)
      ensures this.external == external
    {
      this.external := external;
    }

    method Release(r: Resource, ghost scene: Scene, fault: Fault) returns (t: Resource)
      ensures Join(scene, t) == RemoveFinalizer(Join(scene, r), fault)
    {
      t := if fault.Lands() then r.(finalizer := false, gone := true) else r;
    }

    /** The rest of a round after Observe, for a resource that is being deleted. */
    method DeleteOrRelease(op: Operator, r: Resource, present: bool, input: Input) returns (t: Resource)
      requires op.parameters == r.spec
      modifies external.client.subscriptions, external.client.csvs
      ensures var k := op.KeyOf();
              var after := DeletingRound(k, Join(old(external.client.View(k)), r), present, input);
              && t == Split(after)
              && external.client.csvs.objects == after.scene.csvs
              && external.client.subscriptions.objects
                 == Store(old(external.client.subscriptions.objects), k, after.scene.subscription)
    {
      StoreSame(external.client.subscriptions.objects, op.KeyOf());
      if present {
        var err := external.Delete(op, input.delete);
        t := r;
      } else {
        t := Release(r, external.client.View(op.KeyOf()), input.removeFinalizer);
      }
    }

    /** The rest of a round after Observe, for a resource that is being kept. */
    method GuardAndCreate(op: Operator, r: Resource, o: Observation, input: Input) returns (t: Resource)
      requires o.Observed? && op.parameters == r.spec
      modifies external.client.subscriptions
      ensures var k := op.KeyOf();
              var after := KeepingRound(k, Join(old(external.client.View(k)), r), o.present, input);
              && t == Split(after)
              && external.client.subscriptions.objects
                 == Store(old(external.client.subscriptions.objects), k, after.scene.subscription)
    {
      StoreSame(external.client.subscriptions.objects, op.KeyOf());
      t := r;
      if !input.publishObserved.Works? { return; }
      if input.addFinalizer.Lands() { t := t.(finalizer := true); }
      if !r.finalizer && !input.addFinalizer.Works? { return; }
      if !o.present {
        var err := external.Create(op, input.create);
      } else if !o.upToDate {
        external.Update(op);
      }
    }

    method Act(op: Operator, r: Resource, o: Observation, input: Input) returns (t: Resource)
      requires o.Observed? && op.parameters == r.spec
      modifies external.client.subscriptions, external.client.csvs
      ensures var k := op.KeyOf();
              var after := OperatorLifecycle.Act(k, Join(old(external.client.View(k)), r), o, input);
              && t == Split(after)
              && external.client.csvs.objects == after.scene.csvs
              && external.client.subscriptions.objects
                 == Store(old(external.client.subscriptions.objects), k, after.scene.subscription)
    {
      if r.deleting {
        t := DeleteOrRelease(op, r, o.present, input);
      } else {
        t := GuardAndCreate(op, r, o, input);
      }
    }

    /** One round for one resource: it does to the cluster and to the resource what the state machine says, and
        nothing to any other Subscription. */
    method Reconcile(name: string, namespace: string, r: Resource, input: Input) returns (t: Resource)
      modifies external.client.subscriptions, external.client.csvs
      ensures var k := Key(DefaultNamespace(namespace), name);
              var after := OperatorLifecycle.Reconcile(k, Join(old(external.client.View(k)), r), input);
              && t == Split(after)
              && external.client.csvs.objects == after.scene.csvs
              && external.client.subscriptions.objects
                 == Store(old(external.client.subscriptions.objects), k, after.scene.subscription)
    {
      StoreSame(external.client.subscriptions.objects, Key(DefaultNamespace(namespace), name));
      if r.gone { return r; }
      if r.deleting && r.policy.PolicyOrphan? {
        t := Release(r, external.client.View(Key(DefaultNamespace(namespace), name)), input.removeFinalizer);
        return;
      }
      var op := new Operator(name, namespace, r.spec, r.ready);
      var o := external.Observe(op, input.getManifest, input.getCsv);
      if o.Failed? { return r; }
      t := Act(op, r, o, input);
      t := t.(ready := if input.saveStatus.Lands() then op.ready else r.ready);
    }
  }
}
