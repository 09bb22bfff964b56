/**
 * What an auth handler decides once, when it is built: which configuration
 * backend to talk to, which container runtime to ask for running auth-server
 * instances, and the rotation settings it was given.
 */
module Handler {
  import opened Wrappers

  /** The two configuration backends: a directory server, or a document store. */
  datatype Backend = Ldap | Couchbase

  /** The two container runtimes the handler can discover instances in. */
  datatype MetaClient = DockerMeta | KubernetesMeta

  /** Settings of one handler; none of them changes after construction. */
  datatype Settings = Settings(
    backend: Backend,
    meta: MetaClient,
    rotationInterval: int,  // hours between rotations
    pushKeys: bool,         // copy new key files into running instances
    dryRun: bool)           // stop after the merge

  const DEFAULT_ROTATION_INTERVAL: int := 48

  /** The value of an environment variable, or `default` when it is unset. */
  function EnvGet(env: map<string, string>, name: string, default: string): string {
    if name in env then env[name] else default
  }

  /**
   * The backend for a persistence type: "ldap" and "couchbase" name their
   * backend; any other type is the hybrid setup, which uses LDAP exactly when
   * the LDAP mapping is "default".
   */
  function SelectBackend(persistenceType: string, ldapMapping: string): (b: Backend)
    ensures persistenceType == "ldap" ==> b == Ldap
    ensures persistenceType == "couchbase" ==> b == Couchbase
    ensures persistenceType != "ldap" && persistenceType != "couchbase" ==> (b == Ldap <==> ldapMapping == "default")
  {
    if persistenceType == "ldap" then Ldap
    else if persistenceType == "couchbase" then Couchbase
    else if ldapMapping == "default" then Ldap
    else Couchbase
  }

  /** Kubernetes only when asked for by name; every other value falls back to Docker. */
  function SelectMeta(metadata: string): (m: MetaClient)
    ensures m == KubernetesMeta <==> metadata == "kubernetes"
  {
    if metadata == "kubernetes" then KubernetesMeta else DockerMeta
  }

  /**
   * A handler built from the process environment and the rotation options
   * `interval` and `push-to-container`. An unset variable or option takes its
   * default: persistence "ldap", LDAP mapping "default", runtime "docker",
   * interval 48 hours, pushing on.
   */
  function NewSettings(env: map<string, string>, interval: Option<int>, pushToContainer: Option<bool>, dryRun: bool): (s: Settings)
    ensures s.dryRun == dryRun
    ensures interval.None? ==> s.rotationInterval == DEFAULT_ROTATION_INTERVAL
    ensures interval.Some? ==> s.rotationInterval == interval.value
    ensures s.pushKeys <==> pushToContainer != Some(false)
    ensures s.meta == KubernetesMeta <==> "CN_CONTAINER_METADATA" in env && env["CN_CONTAINER_METADATA"] == "kubernetes"
    ensures "CN_PERSISTENCE_TYPE" !in env ==> s.backend == Ldap
    ensures "CN_PERSISTENCE_TYPE" in env && env["CN_PERSISTENCE_TYPE"] == "ldap" ==> s.backend == Ldap
    ensures "CN_PERSISTENCE_TYPE" in env && env["CN_PERSISTENCE_TYPE"] == "couchbase" ==> s.backend == Couchbase
  {
    var persistenceType := EnvGet(env, "CN_PERSISTENCE_TYPE", "ldap");
    var ldapMapping := EnvGet(env, "CN_PERSISTENCE_LDAP_MAPPING", "default");
    Settings(
      SelectBackend(persistenceType, ldapMapping),
      SelectMeta(EnvGet(env, "CN_CONTAINER_METADATA", "docker")),
      if interval.Some? then interval.value else DEFAULT_ROTATION_INTERVAL,
      if pushToContainer.Some? then pushToContainer.value else true,
      dryRun)
  }

  /**
   * With nothing set in the environment and no options, a handler talks to
   * LDAP, discovers instances through Docker, rotates every 48 hours and
   * pushes the new files into running instances.
   */
  lemma DefaultSettings(dryRun: bool)
    ensures var s := NewSettings(map[], None, None, dryRun);
            s.backend == Ldap && s.meta == DockerMeta && s.rotationInterval == 48 && s.pushKeys
  {
  }

  /**
   * In a hybrid setup the backend follows the LDAP mapping and nothing else:
   * LDAP exactly when the mapping is unset or "default", whatever the options.
   */
  lemma HybridFollowsMapping(env: map<string, string>, interval: Option<int>, pushToContainer: Option<bool>, dryRun: bool)
    requires "CN_PERSISTENCE_TYPE" in env
    requires env["CN_PERSISTENCE_TYPE"] != "ldap" && env["CN_PERSISTENCE_TYPE"] != "couchbase"
    ensures NewSettings(env, interval, pushToContainer, dryRun).backend == Ldap
            <==> ("CN_PERSISTENCE_LDAP_MAPPING" !in env || env["CN_PERSISTENCE_LDAP_MAPPING"] == "default")
  {
  }
}
