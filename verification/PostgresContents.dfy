/**
  What the stored objects and the connection secret say, told from the spec the user wrote: the sizes, names and
  ports, the defaults for what is not set, and the volume on which the database keeps its data.
 */
module PostgresContents {
  import opened Wrappers
  import opened Kubernetes
  import opened Text
  import opened PostgresApi
  import opened PostgresDefaults
  import opened PostgresObjects
  import opened PostgresLifecycle
  import opened PostgresLadder
  import opened PostgresCredentials
  import opened PostgresSecret

  function UserFor(spec: Parameters): string {
    if spec.masterUsername.Some? then spec.masterUsername.value else "postgres"
  }

  function DatabaseFor(spec: Parameters): string {
    if spec.database.Some? then spec.database.value else UserFor(spec)
  }

  function ClassFor(spec: Parameters): string {
    if spec.storageClass.Some? then spec.storageClass.value else "Standard"
  }

  function PortFor(spec: Parameters): int {
    if spec.port.Some? then spec.port.value else 5432
  }

  // ---- The objects ----

  /** A claim for what the user asked for. */
  predicate IsPvcFor(key: Key, spec: Parameters, pvc: Pvc) {
    && pvc.key == key && pvc.request == spec.databaseSize && pvc.storageClass == Some(ClassFor(spec))
    && pvc.accessModes == ["ReadWriteOnce"] && pvc.volumeMode == "Filesystem"
  }

  /** Some container keeps its data on the PVC of the Deployment's own key. */
  predicate KeepsData(d: Deployment) {
    exists box, m, v :: box in d.spec.template.containers && m in box.mounts && v in d.spec.template.volumes
                        && m.path == "/var/lib/pgsql/data" && m.name == v.name && v.claim == d.key.name
  }

  predicate Matches(selector: map<string, string>, labels: map<string, string>) {
    forall l :: l in selector ==> l in labels && labels[l] == selector[l]
  }

  /** The Deployment manages these pods. */
  predicate Manages(d: Deployment, other: Deployment) {
    d.key.namespace == other.key.namespace && Matches(d.spec.selector, other.spec.template.labels)
  }

  /** Some container of the pods has this port open. */
  predicate Listens(d: Deployment, port: int) {
    exists i :: 0 <= i < |d.spec.template.containers| && d.spec.template.containers[i].port == port
  }

  /** One pod with one container, which is stopped before it is replaced, as it owns its volume. */
  predicate IsSingle(d: Deployment) {
    && d.spec.replicas == 1 && d.spec.strategy == "Recreate"
    && |d.spec.template.containers| == 1 && d.spec.template.containers[0].image == "postgres:13.0"
  }

  predicate IsDeploymentFor(key: Key, spec: Parameters, d: Deployment) {
    && d.key == key && IsSingle(d) && KeepsData(d) && Listens(d, 5432)
    && d.spec.selector != map[] && Manages(d, d)
    && Env(d, "POSTGRES_USER") == Some(UserFor(spec)) && Env(d, "POSTGRES_DB") == Some(DatabaseFor(spec))
    && Env(d, "POSTGRES_PASSWORD").Some? && Env(d, "POSTGRES_PASSWORD").value != ""
  }

  /** The wanted port, as far as it fits into 32 bits, at which the Service reaches port 5432 of the pods. */
  predicate IsServiceFor(key: Key, spec: Parameters, svc: Service) {
    && svc.key == key && svc.selector != map[] && svc.targetPort == 5432
    && -0x8000_0000 <= svc.port < 0x8000_0000 && (PortFor(spec) - svc.port) % 0x1_0000_0000 == 0
    && (spec.port.None? ==> svc.port == svc.targetPort)
  }

  lemma MadePvcIsForSpec(key: Key, spec: Parameters)
    ensures IsPvcFor(key, spec, MakePvc(key, Defaulted(spec), true).value)
  {
  }

  lemma MadeDeploymentIsForSpec(key: Key, spec: Parameters, password: string)
    requires password != ""
    ensures IsDeploymentFor(key, spec, MakeDeployment(key, Defaulted(spec), password))
  {
    var d := MakeDeployment(key, Defaulted(spec), password);
    MadeDeploymentKeepsData(key, d, Defaulted(spec), password);
    EnvOfMadeDeployment(key.name, Defaulted(spec), password);
  }

  lemma MadeDeploymentKeepsData(key: Key, d: Deployment, p: Parameters, password: string)
    requires d.key == key && d.spec == MakeDeploymentSpec(key.name, p, password)
    ensures IsSingle(d) && KeepsData(d) && Listens(d, 5432) && d.spec.selector != map[] && Manages(d, d)
  {
    var t := d.spec.template;
    var box, v := t.containers[0], t.volumes[0];
    var m := box.mounts[0];
    assert box in t.containers && m in box.mounts && v in t.volumes;
    assert "deployment" in d.spec.selector;
  }

  lemma MadeServiceIsForSpec(key: Key, spec: Parameters, ip: string)
    ensures IsServiceFor(key, spec, MakeService(key, Defaulted(spec)).(clusterIP := ip))
  {
    var svc := MakeService(key, Defaulted(spec));
    Int32IsCongruent(PortFor(spec));
    assert "deployment" in svc.selector;
  }

  /** The Service has the address that the API server assigned. */
  lemma CreateAdmits(key: Key, p: Parameters, slot: Slot, c: CreateInput)
    ensures var after := CreateSlot(key, p, slot, c).slot;
            slot.service.None? && after.service.Some? ==> after.service.value.clusterIP == c.clusterIP
  {
  }

  /** Each object that a round adds is the one for the spec of that moment. */
  lemma RoundStores(key: Key, s: State, input: Input)
    ensures var t := Reconcile(key, s, input);
            && (s.slot.pvc.None? && t.slot.pvc.Some? ==> IsPvcFor(key, s.spec, t.slot.pvc.value))
            && (s.slot.deployment.None? && t.slot.deployment.Some? ==>
                  IsDeploymentFor(key, s.spec, t.slot.deployment.value))
            && (s.slot.service.None? && t.slot.service.Some? ==>
                  IsServiceFor(key, s.spec, t.slot.service.value)
                  && t.slot.service.value.clusterIP == input.create.clusterIP)
  {
    RoundMoves(key, s, input);
    if !s.deleting {
      var c, d := CreateIn(key, s, input), DeleteIn(s, input);
      KeepingDriveMoves(s, input, c, d);
      var password := CreateBuilds(key, Defaulted(s.spec), s.slot, input.create);
      CreateAdmits(key, Defaulted(s.spec), s.slot, input.create);
      MadePvcIsForSpec(key, s.spec);
      if password != "" { MadeDeploymentIsForSpec(key, s.spec, password); }
      MadeServiceIsForSpec(key, s.spec, input.create.clusterIP);
    }
  }

  // ---- The connection secret ----

  /** The four credentials for a spec, with the password of the Deployment's pods. */
  predicate AreCredentialsFor(spec: Parameters, d: Deployment, secret: Details) {
    && HasCredentials(secret)
    && secret[Username] == UserFor(spec) && secret[Database] == DatabaseFor(spec)
    && Env(d, "POSTGRES_PASSWORD") == Some(secret[Password])
    && IsPortText(spec, secret[Port])
  }

  predicate IsPortText(spec: Parameters, text: string) {
    && Canonical(text) && ParseDecimal(text) == Some(PortFor(spec))
    && (spec.port.None? ==> text == "5432")
  }

  lemma ItoaIsPortText(spec: Parameters)
    ensures IsPortText(spec, Itoa(PortFor(spec)))
  {
    ItoaIsCanonical(PortFor(spec), Itoa(PortFor(spec)));
    DefaultPortText();
  }

  lemma DefaultPortText()
    ensures Itoa(5432) == "5432"
  {
    assert Digits(5) == "5";
    assert Digits(54) == "54";
    assert Digits(543) == "543";
  }

  lemma CredentialsAreForSpec(key: Key, spec: Parameters, password: string)
    ensures AreCredentialsFor(spec, MakeDeployment(key, Defaulted(spec), password),
                              Credentials(Defaulted(spec), password))
  {
    EnvOfMadeDeployment(key.name, Defaulted(spec), password);
    ItoaIsPortText(spec);
  }

  /** What Create stores as the Deployment and returns as details goes together. */
  lemma CreateReturns(key: Key, spec: Parameters, slot: Slot, c: CreateInput)
    requires slot.deployment.None?
    ensures var r := CreateSlot(key, Defaulted(spec), slot, c);
            r.result.Ok? ==>
              && r.slot.deployment.Some? && AreCredentialsFor(spec, r.slot.deployment.value, r.result.value)
              && Endpoint !in r.result.value
  {
    var password := CreateBuilds(key, Defaulted(spec), slot, c);
    CreateIsOrdered(key, Defaulted(spec), slot, c);
    var r := CreateSlot(key, Defaulted(spec), slot, c);
    if r.result.Ok? { BuiltReturns(key, spec, password, slot, r); }
  }

  lemma BuiltReturns(key: Key, spec: Parameters, password: string, slot: Slot, c: Creation)
    requires slot.deployment.None? && Builds(key, Defaulted(spec), password, slot, c)
    requires c.result.Ok? && c.slot.deployment.Some?
    ensures AreCredentialsFor(spec, c.slot.deployment.value, c.result.value) && Endpoint !in c.result.value
  {
    CredentialsAreForSpec(key, spec, password);
  }

  lemma KeepingRoundMerges(s: State, o: Observation, input: Input, c: Creation)
    requires !s.deleting && !s.gone && o == ObserveSlot(s.slot, input.getDeployment, input.getService) && o.Observed?
    requires c.result.Ok? <==> Completes(Defaulted(s.spec), s.slot, input.create)
    ensures var t := KeepingRound(s, o, input, c);
            if PublishesCredentials(s, Round(input)) then t.secret == s.secret + c.result.value && t.slot == c.slot
            else if PublishesEndpoint(s, Round(input)) then
              t.secret == s.secret[Endpoint := s.slot.service.value.clusterIP]
            else t.secret == s.secret
  {
    var t := Prepare(s, o, input);
    PreparationMerges(s, o, input);
    if !o.present && Proceeds(s, input) && c.result.Ok? {
      assert CreatingRound(t, input, c).secret
             == if input.publishCreated.Lands() then t.secret + c.result.value else t.secret;
    }
  }

  lemma PreparationMerges(s: State, o: Observation, input: Input)
    requires !s.deleting && !s.gone && o == ObserveSlot(s.slot, input.getDeployment, input.getService) && o.Observed?
    ensures var t := Prepare(s, o, input);
            && t.slot == s.slot
            && t.secret == if PublishesEndpoint(s, Round(input)) then
                             s.secret[Endpoint := s.slot.service.value.clusterIP]
                           else s.secret
  {
    assert s.secret + map[] == s.secret;
  }

  /** Exactly what a round does to the secret. */
  lemma RoundPublishes(key: Key, s: State, input: Input)
    ensures var t := Reconcile(key, s, input);
            if PublishesCredentials(s, Round(input)) then
              && t.slot.deployment.Some? && AreCredentialsFor(s.spec, t.slot.deployment.value, t.secret)
              && (Endpoint in t.secret <==> Endpoint in s.secret)
              && (Endpoint in s.secret ==> t.secret[Endpoint] == s.secret[Endpoint])
            else if PublishesEndpoint(s, Round(input)) then
              t.secret == s.secret[Endpoint := s.slot.service.value.clusterIP]
            else t.secret == s.secret
  {
    var c, d := CreateIn(key, s, input), DeleteIn(s, input);
    var o := ObserveSlot(s.slot, input.getDeployment, input.getService);
    if s.deleting {
      DeletingDriveOnlyRemoves(s, input, c, d);
    } else if !s.gone && o.Observed? {
      CreateSucceedsIff(key, Defaulted(s.spec), s.slot, input.create);
      KeepingRoundMerges(s, o, input, c);
      if s.slot.deployment.None? { CreateReturns(key, s.spec, s.slot, input.create); }
    }
  }

  // ---- Over whole runs ----

  /** The i-th step of a run is a round that stored this object, for the spec of that moment. */
  ghost predicate PvcFrom(key: Key, s: State, steps: seq<Step>, i: nat, pvc: Pvc) {
    && i < |steps| && steps[i].Round?
    && var t := Run(key, s, steps[..i]); t.slot.pvc.None? && IsPvcFor(key, t.spec, pvc)
  }

  ghost predicate DeploymentFrom(key: Key, s: State, steps: seq<Step>, i: nat, d: Deployment) {
    && i < |steps| && steps[i].Round?
    && var t := Run(key, s, steps[..i]); t.slot.deployment.None? && IsDeploymentFor(key, t.spec, d)
  }

  ghost predicate ServiceFrom(key: Key, s: State, steps: seq<Step>, i: nat, svc: Service) {
    && i < |steps| && steps[i].Round? && svc.clusterIP == steps[i].input.create.clusterIP
    && var t := Run(key, s, steps[..i]); t.slot.service.None? && IsServiceFor(key, t.spec, svc)
  }

  /** The i-th step published these credentials. */
  ghost predicate CredentialsFrom(key: Key, s: State, steps: seq<Step>, i: nat, secret: Details) {
    && i < |steps| && PublishesCredentials(Run(key, s, steps[..i]), steps[i])
    && var t := Run(key, s, steps[..i + 1]);
       t.slot.deployment.Some? && AreCredentialsFor(Run(key, s, steps[..i]).spec, t.slot.deployment.value, secret)
  }

  ghost predicate ObjectsHaveOrigins(key: Key, s: State, steps: seq<Step>) {
    var slot := Run(key, s, steps).slot;
    && (slot.pvc.Some? ==> exists i: nat :: PvcFrom(key, s, steps, i, slot.pvc.value))
    && (slot.deployment.Some? ==> exists i: nat :: DeploymentFrom(key, s, steps, i, slot.deployment.value))
    && (slot.service.Some? ==> exists i: nat :: ServiceFrom(key, s, steps, i, slot.service.value))
  }

  lemma Earlier(key: Key, s: State, steps: seq<Step>, i: nat)
    requires 0 < |steps| && i < |steps| - 1
    ensures var earlier := steps[..|steps| - 1];
            earlier[i] == steps[i] && earlier[..i] == steps[..i] && earlier[..i + 1] == steps[..i + 1]
  {
  }

  /** Every object of every run was stored by some round of it, and is the one for the spec of that moment. */
  lemma {:induction false} StoredObjectsFitTheSpec(key: Key, s: State, steps: seq<Step>)
    requires s.slot == EMPTY
    ensures ObjectsHaveOrigins(key, s, steps)
  {
    if steps != [] {
      var n := |steps| - 1;
      StoredObjectsFitTheSpec(key, s, steps[..n]);
      PvcHasAnOrigin(key, s, steps);
      DeploymentHasAnOrigin(key, s, steps);
      ServiceHasAnOrigin(key, s, steps);
    }
  }

  lemma PvcHasAnOrigin(key: Key, s: State, steps: seq<Step>)
    requires steps != [] && ObjectsHaveOrigins(key, s, steps[..|steps| - 1])
    ensures var slot := Run(key, s, steps).slot;
            slot.pvc.Some? ==> exists i: nat :: PvcFrom(key, s, steps, i, slot.pvc.value)
  {
    var n := |steps| - 1;
    var t, u := Run(key, s, steps[..n]), Run(key, s, steps);
    StepContinues(key, t, steps[n]);
    if u.slot.pvc.Some? {
      if t.slot.pvc.Some? {
        var i: nat :| PvcFrom(key, s, steps[..n], i, t.slot.pvc.value);
        Earlier(key, s, steps, i);
        assert PvcFrom(key, s, steps, i, u.slot.pvc.value);
      } else {
        RoundStores(key, t, steps[n].input);
        assert PvcFrom(key, s, steps, n, u.slot.pvc.value);
      }
    }
  }

  lemma DeploymentHasAnOrigin(key: Key, s: State, steps: seq<Step>)
    requires steps != [] && ObjectsHaveOrigins(key, s, steps[..|steps| - 1])
    ensures var slot := Run(key, s, steps).slot;
            slot.deployment.Some? ==> exists i: nat :: DeploymentFrom(key, s, steps, i, slot.deployment.value)
  {
    var n := |steps| - 1;
    var t, u := Run(key, s, steps[..n]), Run(key, s, steps);
    StepContinues(key, t, steps[n]);
    if u.slot.deployment.Some? {
      if t.slot.deployment.Some? {
        var i: nat :| DeploymentFrom(key, s, steps[..n], i, t.slot.deployment.value);
        Earlier(key, s, steps, i);
        SameButForStatus(key, Run(key, s, steps[..i]).spec, t.slot.deployment.value, u.slot.deployment.value);
        assert DeploymentFrom(key, s, steps, i, u.slot.deployment.value);
      } else {
        RoundStores(key, t, steps[n].input);
        assert DeploymentFrom(key, s, steps, n, u.slot.deployment.value);
      }
    }
  }

  lemma SameButForStatus(key: Key, spec: Parameters, d: Deployment, e: Deployment)
    requires IsDeploymentFor(key, spec, d) && e == d.(conditions := e.conditions)
    ensures IsDeploymentFor(key, spec, e)
  {
    var box, m, v :| box in d.spec.template.containers && m in box.mounts && v in d.spec.template.volumes
                     && m.path == "/var/lib/pgsql/data" && m.name == v.name && v.claim == d.key.name;
    assert box in e.spec.template.containers && m in box.mounts && v in e.spec.template.volumes;
  }

  lemma ServiceHasAnOrigin(key: Key, s: State, steps: seq<Step>)
    requires steps != [] && ObjectsHaveOrigins(key, s, steps[..|steps| - 1])
    ensures var slot := Run(key, s, steps).slot;
            slot.service.Some? ==> exists i: nat :: ServiceFrom(key, s, steps, i, slot.service.value)
  {
    var n := |steps| - 1;
    var t, u := Run(key, s, steps[..n]), Run(key, s, steps);
    StepContinues(key, t, steps[n]);
    if u.slot.service.Some? {
      if t.slot.service.Some? {
        var i: nat :| ServiceFrom(key, s, steps[..n], i, t.slot.service.value);
        Earlier(key, s, steps, i);
        assert ServiceFrom(key, s, steps, i, u.slot.service.value);
      } else {
        RoundStores(key, t, steps[n].input);
        assert ServiceFrom(key, s, steps, n, u.slot.service.value);
      }
    }
  }

  /** The credentials in the secret of any run were published by some round of it, for the spec of that moment
      and with the password of the Deployment that the round stored. */
  lemma {:induction false} CredentialsFitTheSpec(key: Key, s: State, steps: seq<Step>)
    requires !HasCredentials(s.secret)
    ensures var secret := Run(key, s, steps).secret;
            HasCredentials(secret) ==> exists i: nat :: CredentialsFrom(key, s, steps, i, secret)
  {
    if steps != [] {
      var n := |steps| - 1;
      CredentialsFitTheSpec(key, s, steps[..n]);
      var t, u := Run(key, s, steps[..n]), Run(key, s, steps);
      if steps[n].Round? { RoundPublishes(key, t, steps[n].input); }
      if HasCredentials(u.secret) {
        if PublishesCredentials(t, steps[n]) {
          assert steps[..n + 1] == steps;
          assert CredentialsFrom(key, s, steps, n, u.secret);
        } else {
          var i: nat :| CredentialsFrom(key, s, steps[..n], i, t.secret);
          Earlier(key, s, steps, i);
          assert CredentialsFrom(key, s, steps, i, u.secret);
        }
      }
    }
  }
}
