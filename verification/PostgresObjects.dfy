/** The three Kubernetes objects of a Postgres resource and the functions that build them. */
module PostgresObjects {
  import opened Wrappers
  import opened Kubernetes
  import opened Text
  import opened PostgresApi
  import opened CreateOrUpdate

  const IMAGE := "postgres:13.0"
  const CONTAINER_PORT := 5432

  datatype Pvc = Pvc(key: Key, accessModes: seq<string>, volumeMode: string, storageClass: Option<string>,
                     request: string)

  datatype EnvVar = EnvVar(name: string, value: string)
  datatype VolumeMount = VolumeMount(name: string, path: string)
  datatype Container = Container(name: string, image: string, port: int, env: seq<EnvVar>, mounts: seq<VolumeMount>)
  datatype Volume = Volume(name: string, claim: string)
  datatype PodTemplate = PodTemplate(labels: map<string, string>, volumes: seq<Volume>, containers: seq<Container>)
  datatype DeploymentSpec = DeploymentSpec(replicas: int, strategy: string, selector: map<string, string>,
                                           template: PodTemplate)
  datatype Condition = Condition(kind: string, status: string)
  datatype Deployment = Deployment(key: Key, spec: DeploymentSpec, conditions: seq<Condition>)

  datatype Service = Service(key: Key, port: int, targetPort: int, selector: map<string, string>, clusterIP: string)

  function StringValue(s: Option<string>): string { if s.None? then "" else s.value }

  function IntValue(i: Option<MachineInt>): int { if i.None? then 0 else i.value }

  /** `sizeParses` says whether `resource.ParseQuantity` accepts the size. */
  function MakePvc(key: Key, p: Parameters, sizeParses: bool): Result<Pvc, Error> {
    if !sizeParses then Err(Invalid)
    else Ok(Pvc(key, ["ReadWriteOnce"], "Filesystem", p.storageClass, p.databaseSize))
  }

  function MakeContainers(name: string, p: Parameters, password: string): seq<Container> {
    [Container(name, IMAGE, CONTAINER_PORT,
               [EnvVar("POSTGRES_USER", StringValue(p.masterUsername)),
                EnvVar("POSTGRES_PASSWORD", password),
                EnvVar("POSTGRES_DB", StringValue(p.database))],
               [VolumeMount(name, "/var/lib/pgsql/data")])]
  }

  function MakeDeploymentSpec(name: string, p: Parameters, password: string): DeploymentSpec {
    DeploymentSpec(1, "Recreate", map["deployment" := name],
                   PodTemplate(map["deployment" := name], [Volume(name, name)], MakeContainers(name, p, password)))
  }

  function MakeDeployment(key: Key, p: Parameters, password: string): Deployment {
    Deployment(key, MakeDeploymentSpec(key.name, p, password), [])
  }

  /** The cluster address is left to the API server. */
  function MakeService(key: Key, p: Parameters): Service {
    Service(key, Int32(IntValue(p.port)), CONTAINER_PORT, map["deployment" := key.name], "")
  }

  const PVCS: Kind<Pvc> := Kind((x: Pvc) => x.key, (x: Pvc) => x)
  const DEPLOYMENTS: Kind<Deployment> := Kind((x: Deployment) => x.key, (x: Deployment) => x)

  /** The API server assigns a stored Service its address. */
  function Services(clusterIP: string): Kind<Service> {
    Kind((x: Service) => x.key, (x: Service) => x.(clusterIP := clusterIP))
  }

  /** The value a variable has in the first container that sets it. */
  function EnvValue(containers: seq<Container>, name: string): Option<string> {
    if containers == [] then None
    else
      var found := EnvLookup(containers[0].env, name);
      if found.Some? then found else EnvValue(containers[1..], name)
  }

  function EnvLookup(env: seq<EnvVar>, name: string): Option<string> {
    if env == [] then None
    else if env[0].name == name then Some(env[0].value)
    else EnvLookup(env[1..], name)
  }

  /** A variable of the pods of a Deployment. */
  function Env(d: Deployment, name: string): Option<string> {
    EnvValue(d.spec.template.containers, name)
  }

  lemma EnvOfMadeDeployment(name: string, p: Parameters, password: string)
    ensures var c := MakeDeploymentSpec(name, p, password).template.containers;
            && EnvValue(c, "POSTGRES_USER") == Some(StringValue(p.masterUsername))
            && EnvValue(c, "POSTGRES_PASSWORD") == Some(password)
            && EnvValue(c, "POSTGRES_DB") == Some(StringValue(p.database))
  {
    var c := MakeDeploymentSpec(name, p, password).template.containers;
    var env := c[0].env;
    assert "POSTGRES_USER"[9] == 'U' && "POSTGRES_PASSWORD"[9] == 'P' && "POSTGRES_DB"[9] == 'D';
    assert env[1..] == [env[1], env[2]];
    assert env[1..][1..] == [env[2]];
    assert EnvLookup(env[1..], "POSTGRES_PASSWORD") == Some(password);
    assert EnvLookup(env, "POSTGRES_PASSWORD") == Some(password);
    assert EnvLookup(env[1..][1..], "POSTGRES_DB") == Some(env[2].value);
    assert EnvLookup(env[1..], "POSTGRES_DB") == Some(env[2].value);
  }

  /** Some condition of type Available has status True. */
  predicate Available(conditions: seq<Condition>) {
    exists i :: 0 <= i < |conditions| && conditions[i] == Condition("Available", "True")
  }
}
