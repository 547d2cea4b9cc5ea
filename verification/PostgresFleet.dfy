/**
  Any number of Postgres resources over one keyed store. Resources whose keys differ do not disturb each
  other: seen from one of them, a run of all is a run of the single-resource machine.
 */
module PostgresFleet {
  import opened Wrappers
  import opened Kubernetes
  import opened Managed
  import opened PostgresApi
  import opened PostgresObjects
  import opened PostgresLifecycle
  import opened PostgresLadder
  import opened PostgresCredentials
  import opened PostgresContents

  /** The metadata of a resource as its user wrote it. */
  datatype Id = Id(namespace: string, name: string)

  /** The key of its objects. */
  function KeyOf(id: Id): Key { Key(DefaultNamespace(id.namespace), id.name) }

  /** A resource without its objects. */
  datatype Resource = Resource(
    secret: Details, spec: Parameters, policy: DeletionPolicy,
    deleting: bool, finalizer: bool, ready: bool, gone: bool, lastCall: LastCall)

  datatype Cluster = Cluster(
    pvcs: map<Key, Pvc>, deployments: map<Key, Deployment>, services: map<Key, Service>)

  datatype World = World(cluster: Cluster, resources: map<Id, Resource>)

  function SlotAt(c: Cluster, k: Key): Slot {
    Slot(Lookup(c.pvcs, k), Lookup(c.deployments, k), Lookup(c.services, k))
  }

  function WithSlot(c: Cluster, k: Key, slot: Slot): Cluster {
    Cluster(Store(c.pvcs, k, slot.pvc), Store(c.deployments, k, slot.deployment), Store(c.services, k, slot.service))
  }

  function Join(slot: Slot, r: Resource): State {
    State(slot, r.secret, r.spec, r.policy, r.deleting, r.finalizer, r.ready, r.gone, r.lastCall)
  }

  function Split(s: State): Resource {
    Resource(s.secret, s.spec, s.policy, s.deleting, s.finalizer, s.ready, s.gone, s.lastCall)
  }

  /** The world as one resource sees it. */
  function View(w: World, id: Id): State
    requires id in w.resources
  {
    Join(SlotAt(w.cluster, KeyOf(id)), w.resources[id])
  }

  function WithView(w: World, id: Id, s: State): World {
    World(WithSlot(w.cluster, KeyOf(id), s.slot), w.resources[id := Split(s)])
  }

  datatype Event = Event(id: Id, step: Step)

  function Happen(w: World, e: Event): World {
    if e.id !in w.resources then w
    else WithView(w, e.id, Next(KeyOf(e.id), View(w, e.id), e.step))
  }

  function History(w: World, events: seq<Event>): World {
    if events == [] then w else Happen(History(w, events[..|events| - 1]), events[|events| - 1])
  }

  predicate KeysDiffer(w: World) {
    forall i, j :: i in w.resources && j in w.resources && i != j ==> KeyOf(i) != KeyOf(j)
  }

  lemma SlotLaws(c: Cluster, k: Key, slot: Slot)
    ensures SlotAt(WithSlot(c, k, slot), k) == slot
    ensures forall j :: j != k ==> SlotAt(WithSlot(c, k, slot), j) == SlotAt(c, j)
    ensures WithSlot(c, k, SlotAt(c, k)) == c
  {
  }

  lemma SameSlot(c: Cluster, k: Key)
    ensures WithSlot(c, k, SlotAt(c, k)) == c
  {
  }

  /** Events of resources with different keys commute. */
  lemma EventsCommute(w: World, a: Event, b: Event)
    requires a.id != b.id && KeyOf(a.id) != KeyOf(b.id)
    ensures Happen(Happen(w, a), b) == Happen(Happen(w, b), a)
  {
    if a.id in w.resources && b.id in w.resources {
      var i, j := KeyOf(a.id), KeyOf(b.id);
      var s := Next(i, View(w, a.id), a.step);
      var t := Next(j, View(w, b.id), b.step);
      SlotLaws(w.cluster, i, s.slot);
      SlotLaws(w.cluster, j, t.slot);
      StoreCommutes(w.cluster.pvcs, i, s.slot.pvc, j, t.slot.pvc);
      StoreCommutes(w.cluster.deployments, i, s.slot.deployment, j, t.slot.deployment);
      StoreCommutes(w.cluster.services, i, s.slot.service, j, t.slot.service);
      assert w.resources[a.id := Split(s)][b.id := Split(t)] == w.resources[b.id := Split(t)][a.id := Split(s)];
    }
  }

  /** The steps of a history that concern one resource. */
  function StepsOf(events: seq<Event>, id: Id): seq<Step> {
    if events == [] then []
    else
      var earlier := StepsOf(events[..|events| - 1], id);
      var e := events[|events| - 1];
      if e.id == id then earlier + [e.step] else earlier
  }

  lemma HappenProjects(w: World, e: Event, id: Id)
    requires KeysDiffer(w) && id in w.resources
    ensures Happen(w, e).resources.Keys == w.resources.Keys
    ensures View(Happen(w, e), id) == if e.id == id then Next(KeyOf(id), View(w, id), e.step) else View(w, id)
  {
    if e.id in w.resources {
      SlotLaws(w.cluster, KeyOf(e.id), Next(KeyOf(e.id), View(w, e.id), e.step).slot);
    }
  }

  /** Isolation: what a history of many resources does to one of them is the run of its own steps. */
  lemma {:induction false} HistoryProjects(w: World, events: seq<Event>, id: Id)
    requires KeysDiffer(w) && id in w.resources
    ensures History(w, events).resources.Keys == w.resources.Keys
    ensures View(History(w, events), id) == Run(KeyOf(id), View(w, id), StepsOf(events, id))
  {
    if events != [] {
      var n := |events| - 1;
      HistoryProjects(w, events[..n], id);
      HappenProjects(History(w, events[..n]), events[n], id);
      if events[n].id == id {
        var earlier := StepsOf(events[..n], id);
        assert (earlier + [events[n].step])[..|earlier|] == earlier;
      }
    }
  }

  /** The resource type has scope Cluster, so no stored resource has a namespace in its metadata. */
  predicate ClusterScoped(w: World) {
    forall id :: id in w.resources ==> id.namespace == ""
  }

  /** Real resources never share a key: their objects have their own names, in the namespace "default". */
  lemma ClusterScopedKeysDiffer(w: World)
    requires ClusterScoped(w)
    ensures KeysDiffer(w)
    ensures forall id :: id in w.resources ==> KeyOf(id) == Key("default", id.name)
  {
  }

  /** So they do not disturb each other, whatever they are: any history is for each of them the run of its own
      steps, and events of any two of them commute. */
  lemma ClusterScopedIsolation(w: World, events: seq<Event>, id: Id, a: Event, b: Event)
    requires ClusterScoped(w) && id in w.resources && a.id != b.id
    ensures History(w, events).resources.Keys == w.resources.Keys
    ensures View(History(w, events), id) == Run(KeyOf(id), View(w, id), StepsOf(events, id))
    ensures var v := History(w, events); Happen(Happen(v, a), b) == Happen(Happen(v, b), a)
  {
    ClusterScopedKeysDiffer(w);
    HistoryProjects(w, events, id);
    if a.id in w.resources && b.id in w.resources { EventsCommute(History(w, events), a, b); }
  }

  // ---- Referential integrity ----

  /** The volumes of the pods are claimed from stored PVCs of the namespace, every mount names a volume, and some
      container keeps its data on the PVC of the Deployment's own key. */
  predicate WellReferenced(c: Cluster, d: Deployment) {
    var t := d.spec.template;
    && (forall v :: v in t.volumes ==> Key(d.key.namespace, v.claim) in c.pvcs)
    && (forall box, m :: box in t.containers && m in box.mounts ==> exists v :: v in t.volumes && v.name == m.name)
    && KeepsData(d)
  }

  /** Whether a Service sends traffic to the pods of a Deployment. */
  predicate Selects(s: Service, d: Deployment) {
    s.key.namespace == d.key.namespace && Matches(s.selector, d.spec.template.labels)
  }

  lemma MadeObjectsRefer(k: Key, slot: Slot, c: Cluster)
    requires Made(k, slot) && Ladder(slot) && slot == SlotAt(c, k)
    ensures slot.deployment.Some? ==> slot.deployment.value.key == k && WellReferenced(c, slot.deployment.value)
  {
    if slot.deployment.Some? { ClaimIsThePvc(k, slot.deployment.value, c); }
  }

  /** The one thing outside a Deployment that it refers to is the PVC of its own key. */
  lemma ClaimIsThePvc(k: Key, d: Deployment, c: Cluster)
    requires MadeDeployment(k, d)
    ensures WellReferenced(c, d) <==> k in c.pvcs
  {
    var p: Parameters, password: string :| password != "" && d.spec == MakeDeploymentSpec(k.name, p, password);
    MadeDeploymentKeepsData(k, d, p, password);
    var v := Volume(k.name, k.name);
    assert v in d.spec.template.volumes;
    assert k == Key(d.key.namespace, v.claim);
  }

  /** The selector of a Deployment selects its own pods and no other Deployment's. */
  lemma ManagementIsExact(j: Key, d: Deployment, k: Key, e: Deployment)
    requires MadeDeployment(j, d) && MadeDeployment(k, e)
    ensures d.spec.selector != map[] && IsSingle(d) && KeepsData(d)
    ensures Manages(d, e) <==> j == k
  {
    var p: Parameters, password: string :| password != "" && d.spec == MakeDeploymentSpec(j.name, p, password);
    MadeDeploymentKeepsData(j, d, p, password);
    assert "deployment" in d.spec.selector && d.spec.selector["deployment"] == j.name;
    assert "deployment" in e.spec.template.labels && e.spec.template.labels["deployment"] == k.name;
  }

  lemma SelectionIsExact(j: Key, s: Service, k: Key, d: Deployment)
    requires MadeService(j, s) && MadeDeployment(k, d)
    ensures Selects(s, d) <==> j == k
    ensures Listens(d, s.targetPort)
  {
    assert d.spec.template.containers[0].port == s.targetPort;
    assert "deployment" in s.selector && s.selector["deployment"] == j.name;
    assert "deployment" in d.spec.template.labels && d.spec.template.labels["deployment"] == k.name;
  }

  ghost predicate Owned(w: World, k: Key) { exists id :: id in w.resources && KeyOf(id) == k }

  lemma {:induction false} ObjectsAreOwned(w: World, events: seq<Event>, k: Key)
    requires SlotAt(w.cluster, k) == EMPTY || Owned(w, k)
    ensures History(w, events).resources.Keys == w.resources.Keys
    ensures SlotAt(History(w, events).cluster, k) == EMPTY || Owned(w, k)
  {
    if events != [] {
      var n := |events| - 1;
      ObjectsAreOwned(w, events[..n], k);
      var v, e := History(w, events[..n]), events[n];
      if e.id in v.resources {
        SlotLaws(v.cluster, KeyOf(e.id), Next(KeyOf(e.id), View(v, e.id), e.step).slot);
      }
    }
  }

  predicate FreshWorld(w: World) {
    && w.cluster == Cluster(map[], map[], map[])
    && forall id :: id in w.resources ==> IsFresh(w.resources[id])
  }

  predicate IsFresh(r: Resource) { Join(EMPTY, r) == Fresh(r.spec, r.policy) }

  predicate ReliableEvents(events: seq<Event>) {
    forall i :: 0 <= i < |events| ==> ReliableStep(events[i].step)
  }

  lemma {:induction false} StepsOfReliableEvents(events: seq<Event>, id: Id)
    requires ReliableEvents(events)
    ensures Every(StepsOf(events, id), ReliableStep)
  {
    if events != [] { StepsOfReliableEvents(events[..|events| - 1], id); }
  }

  /** What stands at one key in a history of a fresh world: objects built for that key and, if the reads of the
      delete helpers work, on the ladder. */
  lemma SlotOfHistory(w: World, events: seq<Event>, k: Key)
    requires FreshWorld(w) && KeysDiffer(w)
    ensures var slot := SlotAt(History(w, events).cluster, k);
            Made(k, slot) && (ReliableEvents(events) ==> Ladder(slot))
  {
    ObjectsAreOwned(w, events, k);
    if SlotAt(History(w, events).cluster, k) != EMPTY {
      var id :| id in w.resources && KeyOf(id) == k;
      HistoryProjects(w, events, id);
      var r := w.resources[id];
      assert View(w, id) == Fresh(r.spec, r.policy);
      RunKeepsMade(k, View(w, id), StepsOf(events, id));
      if ReliableEvents(events) {
        StepsOfReliableEvents(events, id);
        RunKeepsInvariant(k, View(w, id), StepsOf(events, id));
      }
    }
  }

  /** Each stored Deployment refers only to what exists. */
  predicate ReferencesResolve(c: Cluster) {
    forall k :: k in c.deployments ==> c.deployments[k].key == k && WellReferenced(c, c.deployments[k])
  }

  /** Each stored Service selects the pods of the Deployment of its own key and of no other, at a port they
      listen on. */
  predicate ServicesSelect(c: Cluster) {
    forall j, k :: j in c.services && k in c.deployments ==>
      (Selects(c.services[j], c.deployments[k]) <==> j == k)
      && Listens(c.deployments[k], c.services[j].targetPort)
  }

  /** Each stored Deployment runs one pod that keeps its data on the PVC of its key, and its selector, which is
      not empty, selects the pods of no other Deployment. */
  predicate DeploymentsStandAlone(c: Cluster) {
    && (forall k :: k in c.deployments ==>
          IsSingle(c.deployments[k]) && KeepsData(c.deployments[k]) && c.deployments[k].spec.selector != map[])
    && (forall j, k :: j in c.deployments && k in c.deployments ==>
          (Manages(c.deployments[j], c.deployments[k]) <==> j == k))
  }

  /** In every history of any set of resources with different keys, the Services and Deployments select exactly
      their own pods, the pods keep their data on their own PVC, and if the reads of the delete helpers work,
      every reference resolves. */
  lemma ReferencesHold(w: World, events: seq<Event>)
    requires FreshWorld(w) && KeysDiffer(w)
    ensures var c := History(w, events).cluster;
            ServicesSelect(c) && DeploymentsStandAlone(c) && (ReliableEvents(events) ==> ReferencesResolve(c))
  {
    var c := History(w, events).cluster;
    if ReliableEvents(events) {
      forall k | k in c.deployments ensures c.deployments[k].key == k && WellReferenced(c, c.deployments[k]) {
        SlotOfHistory(w, events, k);
        MadeObjectsRefer(k, SlotAt(c, k), c);
      }
    }
    forall j, k | j in c.deployments && k in c.deployments
      ensures c.deployments[j].spec.selector != map[] && IsSingle(c.deployments[j]) && KeepsData(c.deployments[j])
      ensures Manages(c.deployments[j], c.deployments[k]) <==> j == k
    {
      SlotOfHistory(w, events, j);
      SlotOfHistory(w, events, k);
      ManagementIsExact(j, c.deployments[j], k, c.deployments[k]);
    }
    forall j, k | j in c.services && k in c.deployments
      ensures Selects(c.services[j], c.deployments[k]) <==> j == k
      ensures Listens(c.deployments[k], c.services[j].targetPort)
    {
      SlotOfHistory(w, events, j);
      SlotOfHistory(w, events, k);
      SelectionIsExact(j, c.services[j], k, c.deployments[k]);
    }
  }

  /** With any failures: a stored Deployment refers only to what exists exactly if no round of its resource has
      removed the PVC past it. */
  lemma ReferencesHoldIff(w: World, events: seq<Event>, id: Id)
    requires FreshWorld(w) && KeysDiffer(w) && id in w.resources
    requires KeyOf(id) in History(w, events).cluster.deployments
    ensures var c := History(w, events).cluster;
            WellReferenced(c, c.deployments[KeyOf(id)])
            <==> !Sometime(KeyOf(id), View(w, id), StepsOf(events, id), StrandsDeployment)
  {
    var k, c := KeyOf(id), History(w, events).cluster;
    SlotOfHistory(w, events, k);
    HistoryProjects(w, events, id);
    assert View(w, id) == Fresh(w.resources[id].spec, w.resources[id].policy);
    RunStrandsDeployment(k, View(w, id), StepsOf(events, id));
    ClaimIsThePvc(k, c.deployments[k], c);
  }

  /** In particular in every history of real resources. */
  lemma ClusterScopedReferencesHold(w: World, events: seq<Event>)
    requires FreshWorld(w) && ClusterScoped(w)
    ensures var c := History(w, events).cluster;
            ServicesSelect(c) && DeploymentsStandAlone(c) && (ReliableEvents(events) ==> ReferencesResolve(c))
  {
    ClusterScopedKeysDiffer(w);
    ReferencesHold(w, events);
  }
}
