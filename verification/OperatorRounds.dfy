/**
  What a round of an Operator does, told from the failures it meets, and what follows over whole runs: when the
  finalizer is added, when the Subscription is stored, and when the resource is released.
 */
module OperatorRounds {
  import opened Wrappers
  import opened Kubernetes
  import opened Managed
  import opened OperatorLifecycle
  import opened OperatorProperties

  /** Observe returns without an error: it has read the manifest of the package. */
  predicate Observes(s: State, input: Input) {
    input.getManifest.Works? && ManifestKey(s.spec) in s.scene.manifests
  }

  /** Observe finds the head CSV. A failed Get counts as "not there". */
  predicate Finds(key: Key, s: State, input: Input) {
    Observes(s, input) && Installed(key, s.spec, s.scene) && input.getCsv.Works?
  }

  /** A round of a kept resource whose write of the finalizer lands. */
  predicate AddsFinalizer(key: Key, s: State, step: Step) {
    && step.Round? && !s.gone && !s.deleting && Observes(s, step.input)
    && step.input.publishObserved.Works? && step.input.addFinalizer.Lands()
  }

  /** A round of a kept resource that does not find the head CSV, has its finalizer, and creates the
      Subscription. */
  predicate StoresSubscription(key: Key, s: State, step: Step) {
    && step.Round? && !s.gone && !s.deleting && Observes(s, step.input) && !Finds(key, s, step.input)
    && step.input.publishObserved.Works? && (s.finalizer || step.input.addFinalizer.Works?)
    && s.scene.subscription.None? && step.input.create.Lands()
  }

  /** The step with which a resource leaves: the request for its deletion if it has no finalizer, or a round of
      its deletion that may remove the finalizer, at once under the Orphan policy, and otherwise when it has read
      the manifest and does not find the head CSV. */
  predicate Releases(key: Key, s: State, step: Step) {
    match step
    case RequestDeletion => !s.finalizer
    case Round(input) =>
      && !s.gone && s.deleting && input.removeFinalizer.Lands()
      && (s.policy.PolicyDelete? ==> Observes(s, input) && !Finds(key, s, input))
    case _ => false
  }

  /** A round of a deletion that calls Delete. */
  predicate CallsDelete(key: Key, s: State, input: Input) {
    !s.gone && s.deleting && s.policy.PolicyDelete? && Finds(key, s, input)
  }

  /** The CSV that a call of Delete looks for. */
  function Target(key: Key, p: OperatorParameters, scene: Scene, d: DeleteInput): Option<Key> {
    if d.getManifest.Works? then Head(key, p, scene) else None
  }

  /** A read and a write that work, on an object that is there. */
  predicate Removed<T>(cell: Option<T>, calls: Calls) {
    cell.Some? && calls.get.Works? && calls.write.Lands()
  }

  /** Exactly what one call of Delete leaves. */
  lemma DeleteLeavesIff(key: Key, p: OperatorParameters, scene: Scene, d: DeleteInput)
    ensures var after, target := Delete(key, p, scene, d).scene, Target(key, p, scene, d);
            && after.manifests == scene.manifests
            && after.csvs == (if target.Some? && Removed(Lookup(scene.csvs, target.value), d.csv)
                              then scene.csvs - {target.value} else scene.csvs)
            && after.subscription
               == (if (target.Some? ==> target.value in scene.csvs && d.csv == Calls(Works, Works))
                      && Removed(scene.subscription, d.subscription)
                   then None else scene.subscription)
  {
    StoreSame(scene.csvs, if Head(key, p, scene).Some? then Head(key, p, scene).value else key);
  }

  /** Everything a round does, told without Observe. */
  predicate Does(key: Key, s: State, input: Input, t: State) {
    && t.spec == s.spec && t.policy == s.policy && t.deleting == s.deleting
    && (t.gone <==> s.gone || Releases(key, s, Round(input)))
    && (t.finalizer <==>
          (s.finalizer && (s.gone || !Releases(key, s, Round(input)))) || AddsFinalizer(key, s, Round(input)))
    && t.scene == (if CallsDelete(key, s, input) then Delete(key, s.spec, s.scene, input.delete).scene
                   else if StoresSubscription(key, s, Round(input)) then
                     s.scene.(subscription := Some(MakeSubscription(key, s.spec)))
                   else s.scene)
  }

  lemma ObserveIff(key: Key, s: State, input: Input)
    ensures var o := Observe(key, s.spec, s.scene, input.getManifest, input.getCsv);
            && (o.Observed? <==> Observes(s, input))
            && (o.Observed? ==> (o.present <==> Finds(key, s, input)))
  {
  }

  lemma ActDoes(key: Key, s: State, o: Observation, input: Input)
    requires !s.gone && (s.deleting ==> s.policy.PolicyDelete?)
    requires Observes(s, input) && o.Observed? && (o.present <==> Finds(key, s, input))
    ensures Does(key, s, input, Act(key, s, o, input))
  {
  }

  lemma RoundDoes(key: Key, s: State, input: Input)
    ensures Does(key, s, input, Reconcile(key, s, input))
  {
    ObserveIff(key, s, input);
    var o := Observe(key, s.spec, s.scene, input.getManifest, input.getCsv);
    if !s.gone && !(s.deleting && s.policy.PolicyOrphan?) && o.Observed? {
      ActDoes(key, s, o, input);
      assert Reconcile(key, s, input) == Act(key, s, o, input).(ready := Reconcile(key, s, input).ready);
    }
  }

  // ---- Over whole runs ----

  /** Over any run, a resource is gone exactly if it was or some step released it. */
  lemma {:induction false} IsReleasedIff(key: Key, s: State, steps: seq<Step>)
    ensures Run(key, s, steps).gone <==> s.gone || Sometime(key, s, steps, Releases)
  {
    if steps != [] {
      var n := |steps| - 1;
      IsReleasedIff(key, s, steps[..n]);
      if steps[n].Round? { RoundDoes(key, Run(key, s, steps[..n]), steps[n].input); }
    }
  }

  /** While a resource is kept, it has its finalizer exactly if some round has added it, and its Subscription
      exactly if some round has stored it. */
  lemma {:induction false} KeptIff(key: Key, s: State, steps: seq<Step>)
    ensures var t := Run(key, s, steps);
            !t.deleting ==>
              && !s.deleting && t.gone == s.gone
              && (t.finalizer <==> s.finalizer || Sometime(key, s, steps, AddsFinalizer))
              && (t.scene.subscription.Some? <==>
                    s.scene.subscription.Some? || Sometime(key, s, steps, StoresSubscription))
  {
    if steps != [] {
      var n := |steps| - 1;
      KeptIff(key, s, steps[..n]);
      if steps[n].Round? { RoundDoes(key, Run(key, s, steps[..n]), steps[n].input); }
    }
  }

  predicate Protected(s: State) { !s.finalizer && !s.gone ==> s.scene.subscription.None? }

  lemma {:induction false} RunKeepsProtected(key: Key, s: State, steps: seq<Step>)
    requires Protected(s)
    ensures Protected(Run(key, s, steps))
  {
    if steps != [] {
      var n := |steps| - 1;
      RunKeepsProtected(key, s, steps[..n]);
      if steps[n].Round? { RoundDoes(key, Run(key, s, steps[..n]), steps[n].input); }
    }
  }

  /** With any failures, no Subscription of a fresh Operator exists before its finalizer does, so a request for
      deletion cannot pass over it. */
  lemma SubscriptionIsProtected(key: Key, spec: OperatorParameters, policy: DeletionPolicy, csvs: map<Key, Csv>,
                                manifests: map<Key, PackageManifest>, steps: seq<Step>)
    ensures var t := Run(key, Fresh(spec, policy, csvs, manifests), steps);
            !t.finalizer && !t.gone ==> t.scene.subscription.None?
  {
    RunKeepsProtected(key, Fresh(spec, policy, csvs, manifests), steps);
  }

  /** A single failed read of the head CSV releases an Operator with its CSV and its Subscription still there. */
  lemma FailedReadReleases(key: Key, s: State, input: Input)
    requires Deleting(s) && Installed(key, s.spec, s.scene)
    requires input.getManifest.Works? && !input.getCsv.Works? && input.removeFinalizer.Lands()
    ensures Reconcile(key, s, input) == s.(finalizer := false, gone := true)
  {
    RoundDoes(key, s, input);
  }
}
