/**
  What the objects of a resource are made of, and how its connection secret agrees with them, in every run:
  any failures, any edits of the spec, any input secrets and any random source.
 */
module PostgresCredentials {
  import opened Wrappers
  import opened Kubernetes
  import opened Text
  import opened Password
  import opened Managed
  import opened PostgresApi
  import opened PostgresDefaults
  import opened PostgresObjects
  import opened PostgresLifecycle
  import opened PostgresLadder

  // ---- What one call of Create builds ----

  /** Whichever branch supplies the password, it is not empty. */
  lemma ChosenPasswordIsNotEmpty(p: Parameters, c: CreateInput)
    ensures ChoosePassword(p, c).Ok? ==> ChoosePassword(p, c).value != ""
  {
  }

  /** The objects that Create adds for the given parameters, and the details it returns. */
  predicate Builds(key: Key, p: Parameters, password: string, before: Slot, c: Creation) {
    && (before.pvc.None? && c.slot.pvc.Some? ==> Ok(c.slot.pvc.value) == MakePvc(key, p, true))
    && (before.deployment.None? && c.slot.deployment.Some? ==>
          password != "" && c.slot.deployment == Some(MakeDeployment(key, p, password)))
    && (before.service.None? && c.slot.service.Some? ==>
          c.slot.service.value == MakeService(key, p).(clusterIP := c.slot.service.value.clusterIP))
    && (c.result.Ok? ==> c.result.value == Credentials(p, password))
  }

  lemma CreateBuilds(key: Key, p: Parameters, slot: Slot, c: CreateInput) returns (password: string)
    ensures Builds(key, p, password, slot, CreateSlot(key, p, slot, c))
  {
    ChosenPasswordIsNotEmpty(p, c);
    var chosen := ChoosePassword(p, c);
    password := if chosen.Ok? then chosen.value else "";
  }

  /** Where the password of a new Deployment comes from: the input secret if the parameters name one that can be
      read and is not empty there, and otherwise the UUID of this call, from whose digits it is read back. */
  lemma PasswordSource(key: Key, p: Parameters, slot: Slot, c: CreateInput)
    requires slot.deployment.None? && CreateSlot(key, p, slot, c).slot.deployment.Some?
    ensures var password := Env(CreateSlot(key, p, slot, c).slot.deployment.value, "POSTGRES_PASSWORD");
            && password.Some?
            && (if GivesPassword(p, c)
                then var ref := p.passwordRef.value;
                     password.value == c.secrets[Key(ref.namespace, ref.name)][ref.key]
                else
                  && c.random.Some? && FromHex(password.value).Some? && |FromHex(password.value).value| == 16
                  && CarriesRandom(FromHex(password.value).value, c.random.value))
  {
    var password := ChoosePassword(p, c).value;
    EnvOfMadeDeployment(key.name, p, password);
    assert CreateSlot(key, p, slot, c).slot.deployment == Some(MakeDeployment(key, p, password));
    if c.random.Some? { PasswordIsTheUuid(c.random.value); }
  }

  predicate GivesPassword(p: Parameters, c: CreateInput) {
    && p.passwordRef.Some? && c.getSecret.Works?
    && var ref := p.passwordRef.value;
       var k := Key(ref.namespace, ref.name);
       k in c.secrets && ref.key in c.secrets[k] && c.secrets[k][ref.key] != ""
  }

  /** The parameters that Create sees are complete, so what it writes and publishes are the user's or the
      default values and never the fallbacks for nil pointers. */
  lemma NoFallbackIsUsed(key: Key, given: Parameters, password: string)
    ensures var p := Defaulted(given);
            && Complete(p)
            && Credentials(p, password)[Username] == p.masterUsername.value
            && Credentials(p, password)[Database] == p.database.value
            && ParseDecimal(Credentials(p, password)[Port]) == Some(p.port.value)
            && MakeService(key, p).port == Int32(p.port.value)
            && Env(MakeDeployment(key, p, password), "POSTGRES_USER") == p.masterUsername
            && Env(MakeDeployment(key, p, password), "POSTGRES_DB") == p.database
            && MakePvc(key, p, true).value.storageClass == p.storageClass
            && (given.masterUsername.None? ==> p.masterUsername == Some("postgres"))
            && (given.database.None? ==> p.database == p.masterUsername)
            && (given.storageClass.None? ==> p.storageClass == Some("Standard"))
            && (given.port.None? ==> p.port == Some(5432))
            && Stays(given.masterUsername, p.masterUsername) && Stays(given.database, p.database)
            && Stays(given.storageClass, p.storageClass) && Stays(given.port, p.port)
  {
    DefaultingLaws(given);
    EnvOfMadeDeployment(key.name, Defaulted(given), password);
    ParseInvertsItoa(Defaulted(given).port.value);
  }

  // ---- Agreement ----

  predicate Says(secret: Details, field: Field, value: Option<string>) {
    field in secret ==> value == Some(secret[field])
  }

  /** The credentials in the secret are those of the Deployment's pods. */
  predicate AgreesWithDeployment(secret: Details, d: Deployment) {
    && Says(secret, Username, Env(d, "POSTGRES_USER"))
    && Says(secret, Password, Env(d, "POSTGRES_PASSWORD"))
    && Says(secret, Database, Env(d, "POSTGRES_DB"))
  }

  /** The address in the secret is the Service's, and the port in it is read back as a number that the
      Service's port equals modulo 2^32. */
  predicate AgreesWithService(secret: Details, s: Service) {
    && Says(secret, Endpoint, Some(s.clusterIP))
    && (Port in secret ==> ParseDecimal(secret[Port]).Some? && s.port == Int32(ParseDecimal(secret[Port]).value))
  }

  ghost predicate MadePvc(key: Key, c: Pvc) {
    exists p: Parameters :: MakePvc(key, p, true) == Ok(c)
  }

  ghost predicate MadeDeployment(key: Key, d: Deployment) {
    d.key == key
    && exists p: Parameters, password: string ::
         password != "" && d.spec == MakeDeploymentSpec(key.name, p, password)
  }

  ghost predicate MadeService(key: Key, s: Service) {
    exists p: Parameters :: s == MakeService(key, p).(clusterIP := s.clusterIP)
  }

  ghost predicate Made(key: Key, slot: Slot) {
    && (slot.pvc.Some? ==> MadePvc(key, slot.pvc.value))
    && (slot.deployment.Some? ==> MadeDeployment(key, slot.deployment.value))
    && (slot.service.Some? ==> MadeService(key, slot.service.value))
  }

  predicate Agreement(s: State) {
    && (s.slot.deployment.Some? ==> AgreesWithDeployment(s.secret, s.slot.deployment.value))
    && (s.slot.service.Some? ==> AgreesWithService(s.secret, s.slot.service.value))
  }

  /** While the resource is kept, the ladder holds, and the secret says nothing about an object that is not
      there yet. */
  predicate Silence(s: State) {
    !s.deleting ==>
      && Ladder(s.slot)
      && (s.slot.deployment.None? ==> s.secret == map[])
      && (s.slot.service.None? ==> Port !in s.secret && Endpoint !in s.secret)
  }

  lemma CredentialsAgree(key: Key, p: Parameters, password: string, ip: string)
    ensures AgreesWithDeployment(Credentials(p, password), MakeDeployment(key, p, password))
    ensures AgreesWithService(Credentials(p, password), MakeService(key, p).(clusterIP := ip))
  {
    EnvOfMadeDeployment(key.name, p, password);
    ParseInvertsItoa(IntValue(p.port));
  }

  lemma CreateKeepsAgreement(key: Key, s: State, input: Input, c: Creation, p: Parameters, password: string)
    requires Agreement(s) && Silence(s) && !s.deleting && s.slot.deployment.None?
    requires Builds(key, p, password, s.slot, c)
    requires Grows(s.slot, c.slot) && Ladder(c.slot) && (c.result.Ok? ==> Level(c.slot) == 3)
    ensures Agreement(CreatingRound(s, input, c)) && Silence(CreatingRound(s, input, c))
  {
    CredentialsAgree(key, p, password, if c.slot.service.Some? then c.slot.service.value.clusterIP else "");
    var t := CreatingRound(s, input, c);
    assert t.secret == map[] || t.secret == Credentials(p, password);
  }

  lemma PublishKeepsAgreement(s: State, input: Input)
    requires Agreement(s) && Silence(s) && !s.deleting
    requires ObserveSlot(s.slot, input.getDeployment, input.getService).Observed?
    ensures var o := ObserveSlot(s.slot, input.getDeployment, input.getService);
            var t := Publish(s, o.details, input.publishObserved);
            Agreement(t) && Silence(t)
  {
  }

  lemma KeepingRoundKeepsAgreement(key: Key, s: State, o: Observation, input: Input, c: Creation,
                                   p: Parameters, password: string)
    requires Agreement(s) && Silence(s) && !s.deleting
    requires o == ObserveSlot(s.slot, input.getDeployment, input.getService) && o.Observed?
    requires s.slot.deployment.None? ==> Builds(key, p, password, s.slot, c)
    requires Grows(s.slot, c.slot) && Ladder(c.slot) && (c.result.Ok? ==> Level(c.slot) == 3)
    ensures Agreement(KeepingRound(s, o, input, c)) && Silence(KeepingRound(s, o, input, c))
  {
    PublishKeepsAgreement(s, input);
    if !o.present {
      CreateKeepsAgreement(key, Prepare(s, o, input), input, c, p, password);
    }
  }

  lemma RoundKeepsAgreement(key: Key, s: State, input: Input)
    requires Agreement(s) && Silence(s)
    ensures Agreement(Reconcile(key, s, input)) && Silence(Reconcile(key, s, input))
  {
    var c, d := CreateIn(key, s, input), DeleteIn(s, input);
    if s.deleting {
      DeleteDescends(s.slot, input.delete);
      DeletingDriveOnlyRemoves(s, input, c, d);
    } else {
      CreateClimbs(key, Defaulted(s.spec), s.slot, input.create);
      var password := CreateBuilds(key, Defaulted(s.spec), s.slot, input.create);
      KeepingDriveKeepsAgreement(key, s, input, c, d, Defaulted(s.spec), password);
    }
  }

  lemma KeepingDriveKeepsAgreement(key: Key, s: State, input: Input, c: Creation, d: Deletion,
                                   p: Parameters, password: string)
    requires Agreement(s) && Silence(s) && !s.deleting
    requires s.slot.deployment.None? ==> Builds(key, p, password, s.slot, c)
    requires Grows(s.slot, c.slot) && Ladder(c.slot) && (c.result.Ok? ==> Level(c.slot) == 3)
    ensures Agreement(Drive(s, input, c, d)) && Silence(Drive(s, input, c, d))
  {
    var o := ObserveSlot(s.slot, input.getDeployment, input.getService);
    if o.Observed? {
      KeepingRoundKeepsAgreement(key, s, o, input, c, p, password);
    }
  }

  lemma DeletingDriveOnlyRemoves(s: State, input: Input, c: Creation, d: Deletion)
    requires s.deleting
    ensures var t := Drive(s, input, c, d); t.secret == s.secret && t.deleting && (t.slot == s.slot || t.slot == d.slot)
  {
  }

  lemma StepKeepsAgreement(key: Key, s: State, step: Step)
    requires Agreement(s) && Silence(s)
    ensures Agreement(Next(key, s, step)) && Silence(Next(key, s, step))
  {
    if step.Round? { RoundKeepsAgreement(key, s, step.input); }
  }

  lemma {:induction false} RunKeepsAgreement(key: Key, s: State, steps: seq<Step>)
    requires Agreement(s) && Silence(s)
    ensures Agreement(Run(key, s, steps)) && Silence(Run(key, s, steps))
  {
    if steps != [] {
      var n := |steps| - 1;
      RunKeepsAgreement(key, s, steps[..n]);
      StepKeepsAgreement(key, Run(key, s, steps[..n]), steps[n]);
    }
  }

  /** Whatever the connection secret holds agrees with the stored Deployment and Service while they exist. */
  lemma CredentialsAlwaysAgree(key: Key, spec: Parameters, policy: DeletionPolicy, steps: seq<Step>)
    ensures Agreement(Run(key, Fresh(spec, policy), steps))
  {
    RunKeepsAgreement(key, Fresh(spec, policy), steps);
  }

  /** At most one password reaches a stored Deployment in the life of a resource. */
  lemma OnePassword(key: Key, spec: Parameters, policy: DeletionPolicy, before: seq<Step>, after: seq<Step>)
    ensures var s := Run(key, Fresh(spec, policy), before);
            var t := Run(key, Fresh(spec, policy), before + after);
            s.slot.deployment.Some? && t.slot.deployment.Some? ==>
              Env(s.slot.deployment.value, "POSTGRES_PASSWORD") == Env(t.slot.deployment.value, "POSTGRES_PASSWORD")
  {
    RunConcat(key, Fresh(spec, policy), before, after);
    RunContinues(key, Run(key, Fresh(spec, policy), before), after);
  }

  // ---- Provenance ----

  lemma RoundKeepsMade(key: Key, s: State, input: Input)
    requires Made(key, s.slot)
    ensures Made(key, Reconcile(key, s, input).slot)
  {
    RoundMoves(key, s, input);
    var c, d := CreateIn(key, s, input), DeleteIn(s, input);
    if !s.deleting {
      KeepingDriveMoves(s, input, c, d);
      var password := CreateBuilds(key, Defaulted(s.spec), s.slot, input.create);
      CreateClimbs(key, Defaulted(s.spec), s.slot, input.create);
    }
  }

  lemma {:induction false} RunKeepsMade(key: Key, s: State, steps: seq<Step>)
    requires Made(key, s.slot)
    ensures Made(key, Run(key, s, steps).slot)
  {
    if steps != [] {
      var n := |steps| - 1;
      RunKeepsMade(key, s, steps[..n]);
      if steps[n].Round? { RoundKeepsMade(key, Run(key, s, steps[..n]), steps[n].input); }
    }
  }

  /** Every Deployment a resource ever has carries a password that is not empty. */
  lemma PasswordIsNeverEmpty(key: Key, spec: Parameters, policy: DeletionPolicy, steps: seq<Step>)
    ensures var s := Run(key, Fresh(spec, policy), steps);
            s.slot.deployment.Some? ==>
              var password := Env(s.slot.deployment.value, "POSTGRES_PASSWORD");
              password.Some? && password.value != ""
  {
    RunKeepsMade(key, Fresh(spec, policy), steps);
    var s := Run(key, Fresh(spec, policy), steps);
    if s.slot.deployment.Some? {
      var d := s.slot.deployment.value;
      var p: Parameters, password: string :|
        password != "" && d.spec == MakeDeploymentSpec(key.name, p, password);
      EnvOfMadeDeployment(key.name, p, password);
    }
  }

  // ---- Ports ----

  /** The published port is read back as the spec's port; the Service's port equals it modulo 2^32, and equals
      it exactly when it fits into 32 bits. */
  lemma PortsAgree(key: Key, p: Parameters, password: string)
    requires p.port.Some?
    ensures var published := ParseDecimal(Credentials(p, password)[Port]);
            var served := MakeService(key, p).port;
            && published == Some(p.port.value)
            && (p.port.value - served) % 0x1_0000_0000 == 0
            && (served == p.port.value <==> -0x8000_0000 <= p.port.value < 0x8000_0000)
  {
    ParseInvertsItoa(p.port.value);
    Int32IsCongruent(p.port.value);
  }
}
