/** What holds of an Operator resource over whole runs, and what its deletion does and does not remove. */
module OperatorProperties {
  import opened Wrappers
  import opened Kubernetes
  import opened OperatorLifecycle

  /** The CSV at the head of the resource's channel, when the catalog knows the package. */
  function Head(key: Key, p: OperatorParameters, scene: Scene): Option<Key> {
    if ManifestKey(p) !in scene.manifests then None
    else match FirstMatch(scene.manifests[ManifestKey(p)].channels, p.channel)
      case None => None
      case Some(csv) => Some(Key(key.namespace, csv))
  }

  predicate Installed(key: Key, p: OperatorParameters, scene: Scene) {
    var head := Head(key, p, scene);
    head.Some? && head.value in scene.csvs
  }

  // ---- One call of Create ----

  /** A retry of Create that gets through succeeds and changes nothing, whatever the spec has become. */
  lemma RetriedCreateSucceeds(key: Key, p: OperatorParameters, scene: Scene, write: Fault, q: OperatorParameters)
    requires Create(key, p, scene, write).err.None? || write.FailsAfter?
    ensures var after := Create(key, p, scene, write).scene;
            after.subscription.Some? && Create(key, q, after, Works) == Outcome(after, None)
  {
  }

  /** Where OLM looks for what a Subscription asks for. */
  function SubscribedHead(s: Subscription, scene: Scene): Option<Key> {
    var k := Key(s.catalogSourceNamespace, s.package);
    if k !in scene.manifests then None
    else match FirstMatch(scene.manifests[k].channels, s.channel)
      case None => None
      case Some(csv) => Some(Key(s.key.namespace, csv))
  }

  /** The Subscription that is created asks for the CSV by which Observe judges, from the catalog of the spec. */
  lemma SubscriptionAsksForHead(key: Key, p: OperatorParameters, scene: Scene)
    requires scene.subscription.None?
    ensures var s := Create(key, p, scene, Works).scene.subscription;
            && s.Some? && s.value.key == key && s.value.catalogSource == p.catalogSource
            && SubscribedHead(s.value, scene) == Head(key, p, scene)
  {
  }

  // ---- One call of Delete ----

  /** The lookup of the manifest gives Delete a CSV to remove. */
  predicate Targets(key: Key, p: OperatorParameters, scene: Scene, d: DeleteInput) {
    d.getManifest.Works? && Head(key, p, scene).Some?
  }

  /** The Subscription goes only after the head CSV has gone, unless the manifest could not be read or the
      channel has no entry. A nil result means that both are gone. No other CSV is touched. */
  lemma DeletionIsOrdered(key: Key, p: OperatorParameters, scene: Scene, d: DeleteInput)
    ensures var after := Delete(key, p, scene, d).scene;
            && after.manifests == scene.manifests
            && (after.subscription != scene.subscription ==>
                  after.subscription.None?
                  && (Targets(key, p, scene, d) ==> Head(key, p, scene).value !in after.csvs))
            && (Delete(key, p, scene, d).err.None? ==>
                  after.subscription.None?
                  && (Targets(key, p, scene, d) ==> Head(key, p, scene).value !in after.csvs))
            && (forall k :: Some(k) != Head(key, p, scene) ==> Lookup(after.csvs, k) == Lookup(scene.csvs, k))
  {
  }

  /** Exactly when Delete succeeds: unlike the Postgres helpers, a missing CSV or Subscription is an error. */
  lemma DeletionSucceedsIff(key: Key, p: OperatorParameters, scene: Scene, d: DeleteInput)
    ensures Delete(key, p, scene, d).err.None? <==>
            && (Targets(key, p, scene, d) ==> Installed(key, p, scene) && d.csv == Calls(Works, Works))
            && scene.subscription.Some? && d.subscription == Calls(Works, Works)
  {
  }

  // ---- One round ----

  /** A round of a kept resource changes at most an absent Subscription, into the one of the current spec. A
      round of a deletion never adds anything. */
  lemma RoundMoves(key: Key, s: State, input: Input)
    ensures var t := Reconcile(key, s, input);
            && t.deleting == s.deleting && t.spec == s.spec
            && (!s.deleting ==>
                  t.scene == s.scene
                  || (s.scene.subscription.None?
                      && t.scene == s.scene.(subscription := Some(MakeSubscription(key, s.spec)))))
            && (s.deleting ==>
                  t.scene.subscription == s.scene.subscription || t.scene.subscription.None?)
  {
  }

  predicate RoundStep(step: Step) { step.Round? }

  /** Once the Subscription exists, rounds that repeat Create, with any failures, leave the cluster as it is. */
  lemma {:induction false} RepeatedRoundsAreQuiet(key: Key, s: State, steps: seq<Step>)
    requires !s.deleting && s.scene.subscription.Some? && Every(steps, RoundStep)
    ensures Run(key, s, steps).scene == s.scene && !Run(key, s, steps).deleting
  {
    if steps != [] {
      var n := |steps| - 1;
      RepeatedRoundsAreQuiet(key, s, steps[..n]);
      RoundMoves(key, Run(key, s, steps[..n]), steps[n].input);
    }
  }

  // ---- The Subscription over whole runs ----

  predicate Continues(s: State, t: State) {
    && Agree(s.scene.subscription, t.scene.subscription)
    && (!t.deleting ==> Stays(s.scene.subscription, t.scene.subscription))
    && (s.deleting ==> t.deleting && Shrinks(s.scene.subscription, t.scene.subscription))
  }

  lemma StepContinues(key: Key, s: State, step: Step)
    ensures Continues(s, Next(key, s, step))
  {
  }

  /** Under any retries, edits, channel changes and installations the Subscription stays the one first created
      until it is deleted, and does not come back after that. */
  lemma {:induction false} RunContinues(key: Key, s: State, steps: seq<Step>)
    ensures Continues(s, Run(key, s, steps))
  {
    if steps != [] {
      var n := |steps| - 1;
      RunContinues(key, s, steps[..n]);
      StepContinues(key, Run(key, s, steps[..n]), steps[n]);
    }
  }

  /** The i-th step of a run stored this Subscription, for the spec of that moment. */
  predicate StoredAt(key: Key, s: State, steps: seq<Step>, i: nat, subscription: Subscription) {
    && i < |steps| && steps[i].Round?
    && Run(key, s, steps[..i]).scene.subscription.None?
    && subscription == MakeSubscription(key, Run(key, s, steps[..i]).spec)
  }

  /** A Subscription that was not there at the start comes from a round, and carries the spec of that round. */
  lemma {:induction false} SubscriptionHasAnOrigin(key: Key, s: State, steps: seq<Step>)
    requires s.scene.subscription.None?
    ensures var t := Run(key, s, steps);
            t.scene.subscription.Some? ==>
              exists i: nat :: StoredAt(key, s, steps, i, t.scene.subscription.value)
  {
    if steps != [] {
      var n := |steps| - 1;
      SubscriptionHasAnOrigin(key, s, steps[..n]);
      var t := Run(key, s, steps[..n]);
      var u := Next(key, t, steps[n]);
      if steps[n].Round? { RoundMoves(key, t, steps[n].input); }
      if u.scene.subscription.Some? {
        if t.scene.subscription.Some? {
          var i: nat :| StoredAt(key, s, steps[..n], i, t.scene.subscription.value);
          assert steps[..n][..i] == steps[..i];
          assert StoredAt(key, s, steps, i, u.scene.subscription.value);
        } else {
          assert StoredAt(key, s, steps, n, u.scene.subscription.value);
        }
      }
    }
  }

  // ---- Ready ----

  /** A round that finds the CSV at the head of the channel in phase Succeeded, and saves that. */
  predicate Marks(key: Key, s: State, step: Step) {
    && step.Round? && step.input.getManifest.Works? && step.input.getCsv.Works? && step.input.saveStatus.Lands()
    && !s.gone && !(s.deleting && s.policy.PolicyOrphan?)
    && Succeeds(key, s.spec, s.scene)
  }

  lemma NextMarks(key: Key, s: State, step: Step)
    ensures Next(key, s, step).ready <==> s.ready || Marks(key, s, step)
  {
  }

  /** A resource is Ready exactly when it was so at the start or some round since then saw the CSV at the head
      of its channel succeeded; no later round takes that back. */
  lemma {:induction false} ReadyIffSeen(key: Key, s: State, steps: seq<Step>)
    ensures Run(key, s, steps).ready <==> s.ready || Sometime(key, s, steps, Marks)
  {
    if steps != [] {
      var n := |steps| - 1;
      ReadyIffSeen(key, s, steps[..n]);
      NextMarks(key, Run(key, s, steps[..n]), steps[n]);
    }
  }

  // ---- Deletion ----

  predicate Clean(input: Input) {
    && input.getManifest.Works? && input.getCsv.Works?
    && input.publishObserved.Works? && input.addFinalizer.Works? && input.create.Works?
    && input.delete == DeleteInput(Works, Calls(Works, Works), Calls(Works, Works))
    && input.removeFinalizer.Works? && input.saveStatus.Works?
  }

  predicate Deleting(s: State) { s.deleting && s.finalizer && !s.gone && s.policy.PolicyDelete? }

  predicate Resolves(s: State) { ManifestKey(s.spec) in s.scene.manifests }

  lemma CleanDeletingRound(key: Key, s: State, input: Input)
    requires Deleting(s) && Clean(input)
    ensures var t := Reconcile(key, s, input);
            if !Resolves(s) then t == s
            else if !Installed(key, s.spec, s.scene) then t == s.(finalizer := false, gone := true)
            else
              && Deleting(t) && t.spec == s.spec && t.scene.manifests == s.scene.manifests
              && t.scene.subscription.None? && !Installed(key, t.spec, t.scene)
  {
  }

  /** What two clean rounds of a deletion achieve. They remove the finalizer exactly when the catalog knows the
      package. The Subscription is gone after them exactly when it was not there, or the head CSV of the
      channel was: Observe judges by that CSV alone, so without it the finalizer goes and the Subscription
      stays. */
  lemma DeletionOutcome(key: Key, s: State, first: Input, second: Input)
    requires Deleting(s) && Clean(first) && Clean(second)
    ensures var t := Run(key, s, [Round(first), Round(second)]);
            && (t.gone <==> Resolves(s))
            && (t.scene.subscription.None? <==> s.scene.subscription.None? || Installed(key, s.spec, s.scene))
  {
    assert [Round(first), Round(second)][..1] == [Round(first)];
    assert [Round(first)][..0] == [];
    assert Run(key, s, [Round(first)]) == Next(key, s, Round(first));
    CleanDeletingRound(key, s, first);
    var t := Reconcile(key, s, first);
    if Deleting(t) { CleanDeletingRound(key, t, second); }
  }

  /** In the round that removes the finalizer nothing else happens. */
  lemma ReleaseTouchesNothing(key: Key, s: State, input: Input)
    requires !s.gone && Reconcile(key, s, input).gone
    ensures Reconcile(key, s, input).scene == s.scene
    ensures s.policy.PolicyDelete? && input.getCsv.Works? ==> !Installed(key, s.spec, s.scene)
  {
  }

  /** One lost write leaves a Subscription behind for good: after the CSV has been removed and the removal of
      the Subscription has failed, the next round releases the resource. */
  lemma FailedDeleteLeavesSubscription(key: Key, s: State, first: Input, second: Input)
    requires Deleting(s) && Resolves(s) && Installed(key, s.spec, s.scene) && s.scene.subscription.Some?
    requires Clean(second)
    requires first == second.(delete := second.delete.(subscription := Calls(Works, FailsBefore)))
    ensures var t := Reconcile(key, Reconcile(key, s, first), second);
            t.gone && t.scene.subscription == s.scene.subscription
  {
  }

  /** A round of a deletion that finds the head CSV and calls Delete, which gets as far as the Subscription:
      either its own look at the catalog fails, or it removes the CSV first. */
  predicate RemovesSubscription(key: Key, s: State, step: Step) {
    && step.Round? && !s.gone && s.policy.PolicyDelete?
    && step.input.getManifest.Works? && step.input.getCsv.Works? && Installed(key, s.spec, s.scene)
    && ReachesSubscription(step.input.delete)
  }

  predicate ReachesSubscription(d: DeleteInput) {
    (d.getManifest.Works? ==> d.csv == Calls(Works, Works)) && d.subscription.get.Works? && d.subscription.write.Lands()
  }

  lemma DeleteRemoves(key: Key, p: OperatorParameters, scene: Scene, d: DeleteInput)
    requires Installed(key, p, scene)
    ensures Delete(key, p, scene, d).scene.subscription
            == if ReachesSubscription(d) then None else scene.subscription
  {
  }

  lemma StepRemoves(key: Key, s: State, step: Step)
    requires s.deleting
    ensures var t := Next(key, s, step);
            && t.deleting
            && (t.scene.subscription.None? <==> s.scene.subscription.None? || RemovesSubscription(key, s, step))
  {
    if step.Round? && Installed(key, s.spec, s.scene) { DeleteRemoves(key, s.spec, s.scene, step.input.delete); }
  }

  /** Over any run of a deletion, with any failures and changes of the cluster, the Subscription is gone at the
      end exactly if it was not there or some round removed it. That holds of a released resource, too. */
  lemma {:induction false} SubscriptionIsRemovedIff(key: Key, s: State, steps: seq<Step>)
    requires s.deleting
    ensures var t := Run(key, s, steps);
            && t.deleting
            && (t.scene.subscription.None? <==>
                  s.scene.subscription.None? || Sometime(key, s, steps, RemovesSubscription))
  {
    if steps != [] {
      var n := |steps| - 1;
      SubscriptionIsRemovedIff(key, s, steps[..n]);
      StepRemoves(key, Run(key, s, steps[..n]), steps[n]);
    }
  }

  predicate KeepsUnresolved(step: Step) {
    step.Round? || step.Install?
  }

  /** While the catalog does not know the package, no round of a deletion changes anything. */
  lemma {:induction false} UnresolvedForever(key: Key, s: State, steps: seq<Step>)
    requires Deleting(s) && !Resolves(s) && Every(steps, KeepsUnresolved)
    ensures var t := Run(key, s, steps);
            && Deleting(t) && !Resolves(t)
            && t.scene.subscription == s.scene.subscription && t.scene.manifests == s.scene.manifests
            && t.spec == s.spec && t.ready == s.ready
            && (Every(steps, RoundStep) ==> t == s)
  {
    if steps != [] { UnresolvedForever(key, s, steps[..|steps| - 1]); }
  }

  // ---- Convergence ----

  /** A clean round of a kept resource, in a catalog that knows the package, leaves a Subscription unless the
      head CSV is installed already; when OLM then installs it, the next clean round makes the resource Ready. */
  lemma Converges(key: Key, s: State, first: Input, csvs: map<Key, Csv>, second: Input)
    requires !s.deleting && !s.gone && Resolves(s) && Clean(first) && Clean(second)
    ensures var t := Reconcile(key, s, first);
            var u := Next(key, Next(key, t, Install(csvs)), Round(second));
            && (!Installed(key, s.spec, s.scene) ==> t.scene.subscription.Some?)
            && (Succeeds(key, s.spec, s.scene.(csvs := csvs)) ==> u.ready)
  {
  }

  predicate Succeeds(key: Key, p: OperatorParameters, scene: Scene) {
    Installed(key, p, scene) && scene.csvs[Head(key, p, scene).value].phase == "Succeeded"
  }
}
