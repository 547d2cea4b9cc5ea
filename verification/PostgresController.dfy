/**
  The Postgres client and controller as they run: methods that change the store of a cluster call by call.
  Each is proved to do to the objects of its resource what the state machine says, and nothing to any other.
 */
module PostgresController {
  import opened Wrappers
  import opened Kubernetes
  import opened Password
  import CreateOrUpdate
  import opened PostgresApi
  import opened PostgresDefaults
  import opened PostgresObjects
  import opened PostgresLifecycle
  import opened PostgresFleet

  /** The client of pkg/client/database/postgres. */
  class PostgresClient {
    const pvcs: Collection<Pvc>
    const deployments: Collection<Deployment>
    const services: Collection<Service>
    const secrets: Collection<map<string, string>>

    constructor ()
      ensures fresh(pvcs) && fresh(deployments) && fresh(services) && fresh(secrets)
      ensures View() == Cluster(map[], map[], map[]) && secrets.objects == map[]
    {
      pvcs := new Collection();
      deployments := new Collection();
      services := new Collection();
      secrets := new Collection();
    }

    ghost function View(): Cluster
      reads pvcs, deployments, services
    {
      Cluster(pvcs.objects, deployments.objects, services.objects)
    }

    method Ensure<T(==)>(kind: CreateOrUpdate.Kind<T>, c: Collection<T>, obj: T, calls: Calls)
      returns (op: CreateOrUpdate.Operation, err: Option<Error>)
      modifies c
      ensures var k := kind.keyOf(obj);
              var e := CreateOrUpdate.Ensure(kind, Lookup(old(c.objects), k), obj, calls);
              c.objects == Store(old(c.objects), k, e.cell) && op == e.op && err == e.err
    {
      op, err := CreateOrUpdate.Perform(kind, c, obj, CreateOrUpdate.NoMutation, calls);
    }

    method ReadInputSecret(p: Parameters, get: Fault) returns (r: Result<string, Error>)
      ensures r == ParseInputSecret(p, secrets.objects, get)
    {
      if p.passwordRef.None? { return Err(Invalid); }
      var ref := p.passwordRef.value;
      var got := secrets.Get(Key(ref.namespace, ref.name), get);
      match got
      case Err(e) => r := Err(e);
      case Ok(data) => r := Ok(if ref.key in data then data[ref.key] else "");
    }

    /** The three delete helpers, one for each kind: they differ in nothing else. */
    method DeleteObject<T>(c: Collection<T>, k: Key, calls: Calls) returns (err: Option<Error>)
      modifies c
      ensures var w := Remove(Lookup(old(c.objects), k), calls);
              c.objects == Store(old(c.objects), k, w.cell) && err == w.err
    {
      StoreLaws(c.objects, k, None, None);
      var got := c.Get(k, calls.get);
      if got.Err? { return None; }
      err := c.Delete(k, calls.write);
    }
  }

  /** The loop of Observe over the conditions of a Deployment. */
  method IsAvailable(conditions: seq<Condition>) returns (available: bool)
    ensures available <==> exists i :: 0 <= i < |conditions| && conditions[i] == Condition("Available", "True")
    ensures available <==> Available(conditions)
  {
    available := false;
    for i := 0 to |conditions|
      invariant !available && forall j :: 0 <= j < i ==> conditions[j] != Condition("Available", "True")
    {
      if conditions[i].kind == "Available" && conditions[i].status == "True" {
        available := true;
        assert conditions[i] == Condition("Available", "True");
        break;
      }
    }
  }

  /** The external client of pkg/controller/database/postgres. */
  class External {
    const client: PostgresClient

    constructor (client: PostgresClient)
      ensures this.client == client
    {
      this.client := client;
    }

    method Observe(ps: Postgres, getDeployment: Fault, getService: Fault) returns (o: Observation)
      modifies ps, ps.forProvider
      ensures o == ObserveSlot(SlotAt(client.View(), KeyOf(Id(old(ps.namespace), ps.name))), getDeployment, getService)
      ensures ps.View() == DefaultedView(old(ps.View())).(ready := old(ps.ready) || (o.Observed? && o.upToDate))
    {
      var updated := InitializeDefaults(ps);
      ghost var defaulted := ps.View();
      o := ObserveObjects(Key(ps.namespace, ps.name), getDeployment, getService);
      if o.Observed? && o.upToDate { ps.ready := true; }
      assert ps.View() == defaulted.(ready := ps.ready);
    }

    method ObserveObjects(k: Key, getDeployment: Fault, getService: Fault) returns (o: Observation)
      ensures o == ObserveSlot(SlotAt(client.View(), k), getDeployment, getService)
    {
      var deployment := client.deployments.Get(k, getDeployment);
      if deployment.Err? {
        return if deployment.error.NotFound? then Observed(false, false, map[]) else Failed;
      }
      var available := IsAvailable(deployment.value.conditions);
      if !available { return Observed(true, false, map[]); }
      var service := client.services.Get(k, getService);
      if service.Err? { return Failed; }
      o := Observed(true, true, map[Endpoint := service.value.clusterIP]);
    }

    /** The password of the input secret, or a generated one. */
    method ReadOrGeneratePassword(p: Parameters, c: CreateInput) returns (r: Result<string, Error>)
      requires c.secrets == client.secrets.objects
      ensures r == ChoosePassword(p, c)
    {
      r := client.ReadInputSecret(p, c.getSecret);
      if r.Err? || r.value == "" {
        r := GeneratePassword(c.random);
      }
    }

    method Create(ps: Postgres, c: CreateInput) returns (r: Result<Details, Error>)
      requires c.secrets == client.secrets.objects
      modifies client.pvcs, client.deployments, client.services
      ensures var k := Key(ps.namespace, ps.name);
              var created := CreateSlot(k, ps.forProvider.View(), SlotAt(old(client.View()), k), c);
              client.View() == WithSlot(old(client.View()), k, created.slot) && r == created.result
    {
      r := CreateObjects(Key(ps.namespace, ps.name), ps.forProvider.View(), c);
    }

    method CreateObjects(k: Key, p: Parameters, c: CreateInput) returns (r: Result<Details, Error>)
      requires c.secrets == client.secrets.objects
      modifies client.pvcs, client.deployments, client.services
      ensures var created := CreateSlot(k, p, SlotAt(old(client.View()), k), c);
              client.View() == WithSlot(old(client.View()), k, created.slot) && r == created.result
    {
      StoreSame(client.pvcs.objects, k);
      StoreSame(client.deployments.objects, k);
      StoreSame(client.services.objects, k);
      var pvc := MakePvc(k, p, c.sizeParses);
      if pvc.Err? { return Err(pvc.error); }
      var op, err := client.Ensure(PVCS, client.pvcs, pvc.value, c.pvc);
      if err.Some? { return Err(err.value); }
      var password := ReadOrGeneratePassword(p, c);
      if password.Err? { return Err(password.error); }
      op, err := client.Ensure(DEPLOYMENTS, client.deployments, MakeDeployment(k, p, password.value), c.deployment);
      if err.Some? { return Err(err.value); }
      op, err := client.Ensure(Services(c.clusterIP), client.services, MakeService(k, p), c.service);
      if err.Some? { return Err(err.value); }
      r := Ok(Credentials(p, password.value));
    }

    /** Nothing is ever updated. */
    method Update(ps: Postgres) returns (details: Details)
      ensures details == map[]
    {
      details := map[];
    }

    method Delete(ps: Postgres, d: DeleteInput) returns (err: Option<Error>)
      modifies client.pvcs, client.deployments, client.services
      ensures var k := Key(ps.namespace, ps.name);
              var deleted := DeleteSlot(SlotAt(old(client.View()), k), d);
              client.View() == WithSlot(old(client.View()), k, deleted.slot) && err == deleted.err
    {
      var k := Key(ps.namespace, ps.name);
      SlotLaws(client.View(), k, EMPTY);
      err := client.DeleteObject(client.services, k, d.service);
      if err.Some? { return; }
      err := client.DeleteObject(client.deployments, k, d.deployment);
      if err.Some? { return; }
      err := client.DeleteObject(client.pvcs, k, d.pvc);
    }
  }

  /** The reconciler of crossplane-runtime v0.10.0 around the external client, and the resources it serves. */
  class Reconciler {
    const external: External
    var resources: map<Id, Resource>

    constructor (external: External)
      ensures this.external == external && resources == map[]
    {
      this.external := external;
      resources := map[];
    }

    ghost function World(): World
      reads this, external.client.pvcs, external.client.deployments, external.client.services
    {
      PostgresFleet.World(external.client.View(), resources)
    }

    method Release(r: Resource, ghost slot: Slot, fault: Fault) returns (t: Resource)
      ensures Join(slot, t) == RemoveFinalizer(Join(slot, r), fault)
    {
      t := if fault.Lands() then r.(finalizer := false, gone := true) else r;
    }

    method PublishDetails(r: Resource, details: Details, fault: Fault) returns (t: Resource)
      ensures forall slot :: Join(slot, t) == Publish(Join(slot, r), details, fault)
    {
      t := if fault.Lands() then r.(secret := r.secret + details) else r;
    }

    /** The rest of a round after Observe, for a resource that is being deleted. */
    method DeleteOrRelease(ps: Postgres, ghost k: Key, r: Resource, present: bool, input: Input) returns (t: Resource)
      requires k == Key(ps.namespace, ps.name)
      modifies external.client.pvcs, external.client.deployments, external.client.services
      ensures var slot := SlotAt(old(external.client.View()), k);
              var after := DeletingRound(Join(slot, r), present, input, DeleteSlot(slot, input.delete));
              t == Split(after) && external.client.View() == WithSlot(old(external.client.View()), k, after.slot)
    {
      SameSlot(external.client.View(), k);
      if present {
        t := DeleteObjects(ps, k, r, input);
      } else {
        t := Release(r, SlotAt(external.client.View(), k), input.removeFinalizer);
      }
    }

    /** Calls Delete, and records how it ended. */
    method DeleteObjects(ps: Postgres, ghost k: Key, r: Resource, input: Input) returns (t: Resource)
      requires k == Key(ps.namespace, ps.name)
      modifies external.client.pvcs, external.client.deployments, external.client.services
      ensures var slot := SlotAt(old(external.client.View()), k);
              var d := DeleteSlot(slot, input.delete);
              && Join(d.slot, t) == DeletingRound(Join(slot, r), true, input, d)
              && external.client.View() == WithSlot(old(external.client.View()), k, d.slot)
    {
      var err := external.Delete(ps, input.delete);
      t := r.(lastCall := if err.None? then Succeeded else Erred);
    }

    /** The rest of a round after Observe, for a resource that is being kept. */
    method PublishAndCreate(ps: Postgres, ghost k: Key, ghost p: Parameters, r: Resource, o: Observation, input: Input)
      returns (t: Resource)
      requires k == Key(ps.namespace, ps.name) && p == ps.forProvider.View()
      requires o.Observed? && input.create.secrets == external.client.secrets.objects
      modifies external.client.pvcs, external.client.deployments, external.client.services
      ensures var slot := SlotAt(old(external.client.View()), k);
              var after := KeepingRound(Join(slot, r), o, input, CreateSlot(k, p, slot, input.create));
              t == Split(after) && external.client.View() == WithSlot(old(external.client.View()), k, after.slot)
    {
      SameSlot(external.client.View(), k);
      var proceeds;
      t, proceeds := PublishAndGuard(r, o, input);
      if proceeds && !o.present {
        t := CreateAndPublish(ps, k, p, t, input);
      } else if proceeds && !o.upToDate {
        var details := external.Update(ps);
        assert t.secret + details == t.secret;
        t := t.(secret := t.secret + details);
      }
    }

    method PublishAndGuard(r: Resource, o: Observation, input: Input) returns (t: Resource, proceeds: bool)
      requires o.Observed?
      ensures forall slot :: Join(slot, t) == Prepare(Join(slot, r), o, input)
      ensures forall slot :: proceeds == Proceeds(Join(slot, r), input)
    {
      t := PublishDetails(r, o.details, input.publishObserved);
      if !input.publishObserved.Works? { return t, false; }
      if input.addFinalizer.Lands() { t := t.(finalizer := true); }
      proceeds := r.finalizer || input.addFinalizer.Works?;
    }

    method CreateAndPublish(ps: Postgres, ghost k: Key, ghost p: Parameters, r: Resource, input: Input)
      returns (t: Resource)
      requires k == Key(ps.namespace, ps.name) && p == ps.forProvider.View()
      requires input.create.secrets == external.client.secrets.objects
      modifies external.client.pvcs, external.client.deployments, external.client.services
      ensures var slot := SlotAt(old(external.client.View()), k);
              var after := CreatingRound(Join(slot, r), input, CreateSlot(k, p, slot, input.create));
              t == Split(after) && external.client.View() == WithSlot(old(external.client.View()), k, after.slot)
    {
      ghost var slot := SlotAt(external.client.View(), k);
      var created := external.Create(ps, input.create);
      t := Conclude(r, created, input, slot, CreateSlot(k, p, slot, input.create));
    }

    /** Records how Create ended, and publishes its details. */
    method Conclude(r: Resource, created: Result<Details, Error>, input: Input, ghost slot: Slot, ghost c: Creation)
      returns (t: Resource)
      requires created == c.result
      ensures var after := CreatingRound(Join(slot, r), input, c); t == Split(after) && after.slot == c.slot
    {
      t := r.(lastCall := if created.Ok? then Succeeded else Erred);
      if created.Ok? {
        var recorded := t;
        t := PublishDetails(recorded, created.value, input.publishCreated);
        assert Join(c.slot, t) == Publish(Join(c.slot, recorded), created.value, input.publishCreated);
      }
    }

    /** A round that starts with Observe, and what it makes of the stored resource. */
    method ObserveAndAct(id: Id, r: Resource, input: Input) returns (t: Resource)
      requires !r.gone && !(r.deleting && r.policy.PolicyOrphan?)
      requires input.create.secrets == external.client.secrets.objects
      modifies external.client.pvcs, external.client.deployments, external.client.services
      ensures var k := KeyOf(id);
              var after := PostgresLifecycle.Reconcile(k, Join(SlotAt(old(external.client.View()), k), r), input);
              t == Split(after) && external.client.View() == WithSlot(old(external.client.View()), k, after.slot)
    {
      SameSlot(external.client.View(), KeyOf(id));
      var ps, o := ReadAndObserve(id, r, input);
      if o.Failed? { return r; }
      t := Act(ps, KeyOf(id), Defaulted(r.spec), r, o, input);
      t := t.(ready := if input.saveStatus.Lands() then ps.ready else r.ready);
    }

    method Act(ps: Postgres, ghost k: Key, ghost p: Parameters, r: Resource, o: Observation, input: Input)
      returns (t: Resource)
      requires k == Key(ps.namespace, ps.name) && p == ps.forProvider.View()
      requires o.Observed? && input.create.secrets == external.client.secrets.objects
      modifies external.client.pvcs, external.client.deployments, external.client.services
      ensures var slot := SlotAt(old(external.client.View()), k);
              var after := PostgresLifecycle.Act(Join(slot, r), o, input,
                                                 CreateSlot(k, p, slot, input.create),
                                                 DeleteSlot(slot, input.delete));
              t == Split(after) && external.client.View() == WithSlot(old(external.client.View()), k, after.slot)
    {
      if r.deleting {
        t := DeleteOrRelease(ps, k, r, o.present, input);
      } else {
        t := PublishAndCreate(ps, k, p, r, o, input);
      }
    }

    /** Decodes the stored resource into a new object and observes it. */
    method ReadAndObserve(id: Id, r: Resource, input: Input) returns (ps: Postgres, o: Observation)
      ensures o == ObserveSlot(SlotAt(external.client.View(), KeyOf(id)), input.getDeployment, input.getService)
      ensures Key(ps.namespace, ps.name) == KeyOf(id) && ps.forProvider.View() == Defaulted(r.spec)
      ensures ps.ready == (r.ready || (o.Observed? && o.upToDate))
    {
      var v := PostgresView(id.name, id.namespace, r.policy, r.spec, r.ready, "");
      ps := new Postgres.Decode(v);
      o := external.Observe(ps, input.getDeployment, input.getService);
      assert ps.View() == DefaultedView(v).(ready := ps.ready);
    }

    /** One round for one resource. Everything it does to the cluster and to all resources is the event of the
        state machine. */
    method Reconcile(id: Id, input: Input)
      requires input.create.secrets == external.client.secrets.objects
      modifies this, external.client.pvcs, external.client.deployments, external.client.services
      ensures World() == Happen(old(World()), Event(id, Round(input)))
    {
      if id !in resources { return; }
      SameSlot(external.client.View(), KeyOf(id));
      var r := resources[id];
      assert resources[id := r] == resources;
      if r.gone { return; }
      if r.deleting && r.policy.PolicyOrphan? {
        r := Release(r, SlotAt(external.client.View(), KeyOf(id)), input.removeFinalizer);
      } else {
        r := ObserveAndAct(id, r, input);
      }
      resources := resources[id := r];
    }
  }
}
