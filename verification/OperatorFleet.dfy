/**
  Several Operator resources over one cluster. Each has its own Subscription, but they share the CSVs of their
  namespace and the catalog, so their rounds can interfere: exactly when is proved here.
 */
module OperatorFleet {
  import opened Wrappers
  import opened Kubernetes
  import opened Managed
  import opened OperatorLifecycle
  import opened OperatorProperties

  /** The stored part of an Operator resource. */
  datatype Resource = Resource(
    spec: OperatorParameters, policy: DeletionPolicy, deleting: bool, finalizer: bool, ready: bool, gone: bool)

  function Join(scene: Scene, r: Resource): State {
    State(scene, r.spec, r.policy, r.deleting, r.finalizer, r.ready, r.gone)
  }

  function Split(s: State): Resource {
    Resource(s.spec, s.policy, s.deleting, s.finalizer, s.ready, s.gone)
  }

  datatype World = World(
    subscriptions: map<Key, Subscription>, csvs: map<Key, Csv>, manifests: map<Key, PackageManifest>,
    resources: map<Key, Resource>)

  /** The world as the resource with this key sees it. */
  function View(w: World, k: Key): State
    requires k in w.resources
  {
    Join(Scene(Lookup(w.subscriptions, k), w.csvs, w.manifests), w.resources[k])
  }

  function Happen(w: World, k: Key, input: Input): World
    requires k in w.resources
  {
    var s := Reconcile(k, View(w, k), input);
    World(Store(w.subscriptions, k, s.scene.subscription), s.scene.csvs, s.scene.manifests,
          w.resources[k := Split(s)])
  }

  /** The same state with other CSVs installed. */
  function WithCsvs(s: State, csvs: map<Key, Csv>): State {
    s.(scene := s.scene.(csvs := csvs))
  }

  /** Deletion may remove the head CSV. */
  predicate Removes(s: State) { s.deleting && !s.gone && s.policy.PolicyDelete? }

  /** A round does something different when the head CSV is gone: release instead of Delete, Create where no
      Subscription is, or no Ready. */
  predicate Depends(k: Key, s: State) {
    && !s.gone && !(s.deleting && s.policy.PolicyOrphan?)
    && (s.deleting || s.scene.subscription.None? || (Succeeds(k, s.spec, s.scene) && !s.ready))
  }

  /** The heads of both channels are one installed CSV, which one resource may remove while the other depends
      on it. */
  predicate Interfere(w: World, i: Key, j: Key)
    requires i in w.resources && j in w.resources
  {
    var s, t := View(w, i), View(w, j);
    && Installed(i, s.spec, s.scene) && Head(i, s.spec, s.scene) == Head(j, t.spec, t.scene)
    && ((Removes(s) && Depends(j, t)) || (Removes(t) && Depends(i, s)))
  }

  /** The CSV that a round removes, if it removes one. */
  function Lost(k: Key, s: State, input: Input): set<Key> {
    var head := Head(k, s.spec, s.scene);
    if head.Some? && Reconcile(k, s, input).scene.csvs != s.scene.csvs then {head.value} else {}
  }

  lemma RoundRemovesHead(k: Key, s: State, input: Input)
    ensures var t := Reconcile(k, s, input);
            && t.scene.manifests == s.scene.manifests && t.scene.csvs == s.scene.csvs - Lost(k, s, input)
            && (Lost(k, s, input) != {} ==> Removes(s) && Installed(k, s.spec, s.scene))
  {
  }

  lemma DeleteSeesHead(k: Key, p: OperatorParameters, scene: Scene, csvs: map<Key, Csv>, d: DeleteInput)
    requires Installed(k, p, scene)
    requires Lookup(csvs, Head(k, p, scene).value) == Lookup(scene.csvs, Head(k, p, scene).value)
    ensures var after := Delete(k, p, scene, d).scene;
            Delete(k, p, scene.(csvs := csvs), d).scene
            == after.(csvs := if after.csvs == scene.csvs then csvs else csvs - {Head(k, p, scene).value})
  {
    StoreSame(csvs, Head(k, p, scene).value);
    StoreSame(scene.csvs, Head(k, p, scene).value);
  }

  lemma ObserveSeesHead(k: Key, s: State, csvs: map<Key, Csv>, input: Input)
    requires var head := Head(k, s.spec, s.scene);
             head.Some? ==> Lookup(csvs, head.value) == Lookup(s.scene.csvs, head.value)
    ensures var o := Observe(k, s.spec, s.scene, input.getManifest, input.getCsv);
            && Observe(k, s.spec, s.scene.(csvs := csvs), input.getManifest, input.getCsv) == o
            && (o.Observed? && o.present ==> Installed(k, s.spec, s.scene))
  {
  }

  lemma ActSeesHead(k: Key, s: State, o: Observation, csvs: map<Key, Csv>, input: Input)
    requires o.Observed? && (o.present ==> Installed(k, s.spec, s.scene))
    requires o.present ==>
               Lookup(csvs, Head(k, s.spec, s.scene).value) == Lookup(s.scene.csvs, Head(k, s.spec, s.scene).value)
    ensures var t := Act(k, s, o, input);
            && (t.scene.csvs == s.scene.csvs || o.present)
            && Act(k, WithCsvs(s, csvs), o, input)
               == WithCsvs(t, if t.scene.csvs == s.scene.csvs then csvs
                              else csvs - {Head(k, s.spec, s.scene).value})
  {
    if o.present { DeleteSeesHead(k, s.spec, s.scene, csvs, input.delete); }
  }

  /** A round looks at no CSV but the head of its channel. */
  lemma RoundSeesHead(k: Key, s: State, csvs: map<Key, Csv>, input: Input)
    requires var head := Head(k, s.spec, s.scene);
             head.Some? ==> Lookup(csvs, head.value) == Lookup(s.scene.csvs, head.value)
    ensures Reconcile(k, WithCsvs(s, csvs), input) == WithCsvs(Reconcile(k, s, input), csvs - Lost(k, s, input))
  {
    var o := Observe(k, s.spec, s.scene, input.getManifest, input.getCsv);
    ObserveSeesHead(k, s, csvs, input);
    if s.gone || (s.deleting && s.policy.PolicyOrphan?) || o.Failed? {
      assert csvs - {} == csvs;
    } else {
      ActSeesHead(k, s, o, csvs, input);
      var t := Act(k, s, o, input);
      assert Reconcile(k, s, input) == t.(ready := Reconcile(k, s, input).ready);
      assert t.scene.csvs == s.scene.csvs ==> csvs - Lost(k, s, input) == csvs;
    }
  }

  /** A round that does not depend on the head CSV is the same without it. */
  lemma IndependentRound(k: Key, s: State, input: Input)
    requires !Depends(k, s) && Installed(k, s.spec, s.scene)
    ensures var t, without := Reconcile(k, s, input), s.scene.csvs - {Head(k, s.spec, s.scene).value};
            t.scene.csvs == s.scene.csvs && Reconcile(k, WithCsvs(s, without), input) == WithCsvs(t, without)
  {
  }

  const CLEAN: Input :=
    Input(Works, Works, Works, Works, Works, DeleteInput(Works, Calls(Works, Works), Calls(Works, Works)), Works, Works)

  lemma DependentRound(k: Key, s: State)
    requires Depends(k, s) && Installed(k, s.spec, s.scene)
    ensures var t := Reconcile(k, s, CLEAN);
            var u := Reconcile(k, WithCsvs(s, s.scene.csvs - {Head(k, s.spec, s.scene).value}), CLEAN);
            Split(t) != Split(u) || t.scene.subscription != u.scene.subscription
  {
  }

  // ---- Two resources ----

  /** What the round of j sees after one of i, and leaves. */
  lemma SecondRound(w: World, i: Key, j: Key, a: Input, b: Input)
    requires i in w.resources && j in w.resources && i != j
    ensures var s, v := Reconcile(i, View(w, i), a), Happen(w, i, a);
            && View(v, j) == WithCsvs(View(w, j), s.scene.csvs)
            && Happen(v, j, b).resources == w.resources[i := Split(s)][j := Split(Reconcile(j, View(v, j), b))]
  {
    RoundRemovesHead(i, View(w, i), a);
    StoreLaws(w.subscriptions, i, Reconcile(i, View(w, i), a).scene.subscription, None);
  }

  /** The round of j does after one of i what it does without it. */
  lemma Undisturbed(w: World, i: Key, j: Key, a: Input, b: Input)
    requires i in w.resources && j in w.resources && i != j && !Interfere(w, i, j)
    ensures var s, t := View(w, i), View(w, j);
            Reconcile(j, WithCsvs(t, Reconcile(i, s, a).scene.csvs), b)
            == WithCsvs(Reconcile(j, t, b), w.csvs - Lost(i, s, a) - Lost(j, t, b))
  {
    var s, t := View(w, i), View(w, j);
    RoundRemovesHead(i, s, a);
    if Head(i, s.spec, s.scene) != Head(j, t.spec, t.scene) || Lost(i, s, a) == {} {
      RoundSeesHead(j, t, Reconcile(i, s, a).scene.csvs, b);
    } else {
      IndependentRound(j, t, b);
    }
  }

  lemma TwoRounds(w: World, i: Key, j: Key, a: Input, b: Input)
    requires i in w.resources && j in w.resources && i != j && !Interfere(w, i, j)
    ensures var s, t := Reconcile(i, View(w, i), a), Reconcile(j, View(w, j), b);
            Happen(Happen(w, i, a), j, b)
            == Effects(w, i, j, s, t, Lost(i, View(w, i), a), Lost(j, View(w, j), b))
  {
    SecondRound(w, i, j, a, b);
    Undisturbed(w, i, j, a, b);
    RoundRemovesHead(i, View(w, i), a);
    RoundRemovesHead(j, View(w, j), b);
  }

  /** The rounds of two resources that do not interfere commute. */
  lemma RoundsCommute(w: World, i: Key, j: Key, a: Input, b: Input)
    requires i in w.resources && j in w.resources && i != j && !Interfere(w, i, j)
    ensures Happen(Happen(w, i, a), j, b) == Happen(Happen(w, j, b), i, a)
  {
    TwoRounds(w, i, j, a, b);
    TwoRounds(w, j, i, b, a);
    EffectsCommute(w, i, j, Reconcile(i, View(w, i), a), Reconcile(j, View(w, j), b),
                   Lost(i, View(w, i), a), Lost(j, View(w, j), b));
  }

  /** What two rounds leave of the world, one after the other. */
  function Effects(w: World, i: Key, j: Key, s: State, t: State, x: set<Key>, y: set<Key>): World {
    World(Store(Store(w.subscriptions, i, s.scene.subscription), j, t.scene.subscription),
          w.csvs - x - y, w.manifests, w.resources[i := Split(s)][j := Split(t)])
  }

  lemma EffectsCommute(w: World, i: Key, j: Key, s: State, t: State, x: set<Key>, y: set<Key>)
    requires i != j
    ensures Effects(w, i, j, s, t, x, y) == Effects(w, j, i, t, s, y, x)
  {
    StoreCommutes(w.subscriptions, i, s.scene.subscription, j, t.scene.subscription);
    assert w.resources[i := Split(s)][j := Split(t)] == w.resources[j := Split(t)][i := Split(s)];
    assert w.csvs - x - y == w.csvs - y - x;
  }

  /** Of two resources that interfere, the rounds do not commute even if nothing fails. */
  lemma RoundsInterfere(w: World, i: Key, j: Key)
    requires i in w.resources && j in w.resources && i != j && Interfere(w, i, j)
    requires Removes(View(w, i)) && Depends(j, View(w, j))
    ensures Happen(Happen(w, i, CLEAN), j, CLEAN) != Happen(Happen(w, j, CLEAN), i, CLEAN)
  {
    SecondRound(w, i, j, CLEAN, CLEAN);
    SecondRound(w, j, i, CLEAN, CLEAN);
    CleanRoundRemovesHead(i, View(w, i));
    DependentRound(j, View(w, j));
    var first, second := Happen(Happen(w, i, CLEAN), j, CLEAN), Happen(Happen(w, j, CLEAN), i, CLEAN);
    assert View(first, j) != View(second, j);
  }

  lemma CleanRoundRemovesHead(k: Key, s: State)
    requires Removes(s) && Installed(k, s.spec, s.scene)
    ensures Reconcile(k, s, CLEAN).scene.csvs == s.scene.csvs - {Head(k, s.spec, s.scene).value}
  {
  }

  /** Exactly when the rounds of two resources commute, whatever fails in them. */
  lemma RoundsCommuteIff(w: World, i: Key, j: Key)
    requires i in w.resources && j in w.resources && i != j
    ensures (forall a, b :: Happen(Happen(w, i, a), j, b) == Happen(Happen(w, j, b), i, a)) <==> !Interfere(w, i, j)
  {
    if !Interfere(w, i, j) {
      forall a, b ensures Happen(Happen(w, i, a), j, b) == Happen(Happen(w, j, b), i, a) {
        RoundsCommute(w, i, j, a, b);
      }
    } else if Removes(View(w, i)) && Depends(j, View(w, j)) {
      RoundsInterfere(w, i, j);
    } else {
      RoundsInterfere(w, j, i);
    }
  }
}
