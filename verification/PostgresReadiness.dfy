/** What it takes for a Postgres resource to be Ready: a statement about the whole run before. */
module PostgresReadiness {
  import opened Kubernetes
  import opened PostgresObjects
  import opened PostgresLifecycle
  import opened PostgresConvergence

  /** A round that reads the resource's Deployment, finds it available, reads the Service, and saves that. */
  predicate Marks(s: State, step: Step) {
    && step.Round? && Sees(step.input)
    && !s.gone && !(s.deleting && s.policy.PolicyOrphan?)
    && s.slot.deployment.Some? && Available(s.slot.deployment.value.conditions)
    && s.slot.service.Some?
  }

  lemma NextMarks(key: Key, s: State, step: Step)
    ensures Next(key, s, step).ready <==> s.ready || Marks(s, step)
  {
  }

  /** A resource is Ready exactly when it was so at the start or some round since then saw its Service and an
      available Deployment; no later round takes that back. */
  lemma {:induction false} ReadyIffSeen(key: Key, s: State, steps: seq<Step>)
    ensures Run(key, s, steps).ready <==> s.ready || Sometime(key, s, steps, Marks)
  {
    if steps != [] {
      var n := |steps| - 1;
      ReadyIffSeen(key, s, steps[..n]);
      NextMarks(key, Run(key, s, steps[..n]), steps[n]);
    }
  }
}
