/**
 * One rotation run of the auth-server keys (`AuthHandler.patch`): read the
 * server configuration, refuse to run beside the server's own key
 * regeneration, generate new keys, merge the still-valid old ones, copy the
 * new key files into every running instance, commit the configuration with
 * the next revision, and then either store the new secrets or ask every
 * instance to restore its backups.
 *
 * The collaborators (configuration backend, key generator, container runtime,
 * secret and config stores) are not modelled; what they answer is an input
 * (`World`), and what the run asks of them is an output trace of `Effect`s.
 */
module Rotation {
  import opened Wrappers
  import opened Keys
  import opened Handler

  /** A decoded JSON value of the server's dynamic configuration. */
  datatype Json =
    | JNull
    | JBool(b: bool)
    | JInt(i: int)
    | JStr(s: string)
    | JList(items: seq<Json>)
    | JObject(fields: map<string, Json>)

  /** Whether a JSON value counts as true in a condition. */
  predicate Truthy(v: Json) {
    match v
    case JNull => false
    case JBool(b) => b
    case JInt(i) => i != 0
    case JStr(s) => s != []
    case JList(items) => items != []
    case JObject(fields) => fields != map[]
  }

  /** Exactly six values count as false in a condition: null, false, 0, "", [] and {}. */
  lemma FalsyValues(v: Json)
    ensures !Truthy(v) <==> v in [JNull, JBool(false), JInt(0), JStr(""), JList([]), JObject(map[])]
  {
  }

  /** The server's dynamic configuration: field name to value. */
  type ConfDynamic = map<string, Json>

  /** Set when the auth server rotates its own keys; this rotation must then stay away. */
  const GUARD_FIELD := "keyRegenerationEnabled"
  const INTERVAL_FIELD := "keyRegenerationInterval"
  const STORAGE_FIELD := "webKeysStorage"
  const SECRET_FIELD := "keyStoreSecret"
  const LIFETIME_FIELD := "idTokenLifetime"

  /**
   * The persisted auth-server configuration record. `revision` is the stored
   * revision converted to an integer, or None when that conversion raises
   * (a value that is not a number or numeric text).
   */
  datatype AuthConfig = AuthConfig(id: string, revision: Option<int>, dynamic: ConfDynamic)

  /**
   * The dynamic configuration a rotation commits: server-side regeneration
   * off, the rotation interval recorded, keys served from the keystore, and
   * the keystore password recorded. Nothing else changes.
   */
  function UpdatedConf(conf: ConfDynamic, interval: int, jksPass: string): (r: ConfDynamic)
    ensures r.Keys == conf.Keys + {GUARD_FIELD, INTERVAL_FIELD, STORAGE_FIELD, SECRET_FIELD}
    ensures r[GUARD_FIELD] == JBool(false)
    ensures r[INTERVAL_FIELD] == JInt(interval)
    ensures r[STORAGE_FIELD] == JStr("keystore")
    ensures r[SECRET_FIELD] == JStr(jksPass)
    ensures forall f :: f in conf && f !in {GUARD_FIELD, INTERVAL_FIELD, STORAGE_FIELD, SECRET_FIELD} ==> r[f] == conf[f]
  {
    conf[GUARD_FIELD := JBool(false)]
        [INTERVAL_FIELD := JInt(interval)]
        [STORAGE_FIELD := JStr("keystore")]
        [SECRET_FIELD := JStr(jksPass)]
  }

  /** Integer conversion of a quotient: rounds toward zero, also for a negative `n`. */
  function TruncDiv(n: int, d: int): int
    requires d > 0
  {
    if n >= 0 then n / d else -((-n) / d)
  }

  /**
   * How long new keys must stay valid, in hours: one rotation interval plus
   * the ID-token lifetime in whole hours.
   */
  function ExpirationHours(interval: int, lifetimeSeconds: int): (hours: int)
    ensures lifetimeSeconds >= 0 ==>
              (hours - interval) * 3600 <= lifetimeSeconds < (hours - interval + 1) * 3600
    ensures lifetimeSeconds < 0 ==>
              (hours - interval - 1) * 3600 < lifetimeSeconds <= (hours - interval) * 3600
  {
    interval + TruncDiv(lifetimeSeconds, 3600)
  }

  /**
   * The ID-token lifetime in seconds, or None when the field is missing or is
   * not a number (the run then raises). A boolean counts as 0 or 1.
   */
  function LifetimeSeconds(conf: ConfDynamic): (r: Option<int>)
    ensures r.Some? <==> LIFETIME_FIELD in conf && (conf[LIFETIME_FIELD].JInt? || conf[LIFETIME_FIELD].JBool?)
    ensures r.Some? && conf[LIFETIME_FIELD].JInt? ==> r.value == conf[LIFETIME_FIELD].i
    ensures r.Some? && conf[LIFETIME_FIELD].JBool? ==> r.value == if conf[LIFETIME_FIELD].b then 1 else 0
  {
    if LIFETIME_FIELD !in conf then None
    else
      match conf[LIFETIME_FIELD]
      case JInt(i) => Some(i)
      case JBool(b) => Some(if b then 1 else 0)
      case _ => None
  }

  /** A running auth-server instance, as the container runtime names it. */
  type Container = string

  /** The two key files a rotation writes and copies into every instance. */
  datatype KeyFile = Keystore | JwksFile

  /** A value written to the secret or config store. */
  datatype Stored = EncodedKeystore | EncodedJwks(keys: seq<Jwk>) | Text(s: string) | Number(n: int)

  /** A request a run makes of a collaborator. */
  datatype Effect =
    | GenerateKeys(expHours: int)
    | ImportKey(alias: string)
    | Backup(container: Container, file: KeyFile)
    | Push(container: Container, file: KeyFile)
    | Restore(container: Container, file: KeyFile)
    | ConfigModify(id: string, revision: int, dynamic: ConfDynamic, webKeys: seq<Jwk>)
    | SecretSet(name: string, value: Stored)
    | ConfigSet(name: string, value: Stored)

  /** The effect acts on a running instance. */
  predicate TouchesContainer(e: Effect) {
    e.Backup? || e.Push? || e.Restore?
  }

  /** The effect writes the configuration backend or the secret/config store. */
  predicate WritesStore(e: Effect) {
    e.ConfigModify? || e.SecretSet? || e.ConfigSet?
  }

  /** The effect changes something outside the run's own working files. */
  predicate Mutates(e: Effect) {
    TouchesContainer(e) || WritesStore(e)
  }

  /** None of `effects` changes anything outside the run's own working files. */
  predicate ChangesNothing(effects: seq<Effect>) {
    forall e :: e in effects ==> !Mutates(e)
  }

  /** How a run ends. */
  datatype Outcome =
    | ConfigNotFound    // no configuration record
    | MalformedConfig   // guard flag missing, or token lifetime missing or not a number: the run raises
    | GuardEnabled      // the server rotates its own keys
    | GenerationFailed  // the key generator failed: the run raises
    | DryRun            // stopped after the merge
    | NoContainers      // pushing enabled, but no running instance found
    | BadRevision       // files copied, then the stored revision failed to convert: the run logs and ends
    | CommitRejected    // the configuration backend refused the update
    | EncodeFailed      // committed, then encoding the keystore failed: nothing is stored
    | Rotated           // committed and stored
  {
    predicate CommitAttempted() {
      this == CommitRejected || this == EncodeFailed || this == Rotated
    }
  }

  /** What the collaborators answer during one run. */
  datatype World = World(
    config: Option<AuthConfig>,   // the configuration record, if any
    jksPass: string,              // stored keystore password
    oldKeys: seq<Jwk>,            // previously published key set
    generated: Option<seq<Jwk>>,  // new keys, or None when the generator fails
    containers: seq<Container>,   // running instances found by label
    modifyAccepted: bool,         // the backend's answer to the configuration update
    keystoreEncodes: bool,        // encoding the new keystore for the secret store succeeds
    nowSec: int)                  // the clock, in whole seconds

  datatype Run = Run(outcome: Outcome, effects: seq<Effect>)

  function ImportEffects(kids: seq<string>): (es: seq<Effect>)
    ensures |es| == |kids|
    ensures forall i :: 0 <= i < |kids| ==> es[i] == ImportKey(kids[i])
    ensures forall e :: e in es ==> e.ImportKey?
  {
    seq(|kids|, i requires 0 <= i < |kids| => ImportKey(kids[i]))
  }

  /** `step` applied to every container, in list order. */
  function FanOut(cs: seq<Container>, step: Container -> seq<Effect>): seq<Effect>
    decreases |cs|
  {
    if cs == [] then [] else FanOut(cs[..|cs| - 1], step) + step(cs[|cs| - 1])
  }

  /** Per instance: back up the keystore, copy the new one in, then the same for the JWKS file. */
  function PushEffects(c: Container): seq<Effect> {
    [Backup(c, Keystore), Push(c, Keystore), Backup(c, JwksFile), Push(c, JwksFile)]
  }

  /** Per instance on a refused commit: restore the keystore, then the JWKS file. */
  function RestoreEffects(c: Container): seq<Effect> {
    [Restore(c, Keystore), Restore(c, JwksFile)]
  }

  /** The four store writes after a successful commit, in order. */
  function FinalWrites(jksPass: string, nowSec: int, keys: seq<Jwk>): seq<Effect> {
    [ SecretSet("oxauth_jks_base64", EncodedKeystore),
      ConfigSet("oxauth_key_rotated_at", Number(nowSec)),
      SecretSet("oxauth_openid_jks_pass", Text(jksPass)),
      SecretSet("oxauth_openid_key_base64", EncodedJwks(keys)) ]
  }

  /** The instances a run copies files into: none when pushing is disabled. */
  function Targets(s: Settings, w: World): seq<Container> {
    if s.pushKeys then w.containers else []
  }

  /**
   * The run is specified by this function; `Patch` computes it step by step.
   * A run that stops before key generation asks nothing of anyone.
   */
  function RunPatch(s: Settings, w: World): (r: Run)
    ensures r.effects == [] <==> r.outcome in {ConfigNotFound, MalformedConfig, GuardEnabled}
  {
    if w.config.None? then Run(ConfigNotFound, [])
    else
      var cfg := w.config.value;
      if GUARD_FIELD !in cfg.dynamic then Run(MalformedConfig, [])
      else if Truthy(cfg.dynamic[GUARD_FIELD]) then Run(GuardEnabled, [])
      else
        var conf := UpdatedConf(cfg.dynamic, s.rotationInterval, w.jksPass);
        // read from the record as stored: the rewrite leaves it alone (`LifetimeUntouched`)
        var lifetime := LifetimeSeconds(cfg.dynamic);
        if lifetime.None? then Run(MalformedConfig, [])
        else GenerateAndMerge(s, w, cfg, conf, ExpirationHours(s.rotationInterval, lifetime.value))
  }

  /**
   * From key generation up to the point where the run either stops or
   * commits: the first request is always the generation for `expHours`, and
   * the configuration update, when there is one, carries the next revision,
   * `conf` and the merged keys.
   */
  function GenerateAndMerge(s: Settings, w: World, cfg: AuthConfig, conf: ConfDynamic, expHours: int): (r: Run)
    ensures |r.effects| >= 1 && r.effects[0] == GenerateKeys(expHours)
    ensures r.outcome !in {ConfigNotFound, MalformedConfig, GuardEnabled}
    ensures r.outcome == GenerationFailed <==> w.generated.None?
    ensures r.outcome.CommitAttempted() ==> cfg.revision.Some?
  {
    if w.generated.None? then Run(GenerationFailed, [GenerateKeys(expHours)])
    else
      var newKeys := w.generated.value;
      var merging := GenerateThenImport(expHours, ImportedKids(newKeys, w.oldKeys, w.nowSec));
      if s.dryRun then Run(DryRun, merging)
      else if s.pushKeys && w.containers == [] then Run(NoContainers, merging)
      else
        var commit := if cfg.revision.None? then None
                      else Some(ConfigModify(cfg.id, cfg.revision.value + 1, conf, MergeKeys(newKeys, w.oldKeys, w.nowSec)));
        PushAndCommit(w, Targets(s, w), merging, commit)
  }

  /**
   * Copy the files into `targets`; then, when the revision converted
   * (`commit` is present), commit and finalize or roll back: the run is
   * rotated only when the backend accepts the update and the keystore
   * encodes, and rolled back exactly when the backend refuses.
   */
  function PushAndCommit(w: World, targets: seq<Container>, merging: seq<Effect>, commit: Option<Effect>): (r: Run)
    requires commit.Some? ==> commit.value.ConfigModify?
    ensures r.outcome == BadRevision <==> commit.None?
    ensures r.outcome == CommitRejected <==> commit.Some? && !w.modifyAccepted
    ensures r.outcome == Rotated <==> commit.Some? && w.modifyAccepted && w.keystoreEncodes
  {
    var pushed := merging + FanOut(targets, PushEffects);
    if commit.None? then Run(BadRevision, pushed)
    else
      var committing := pushed + [commit.value];
      if !w.modifyAccepted then Run(CommitRejected, committing + FanOut(targets, RestoreEffects))
      else if !w.keystoreEncodes then Run(EncodeFailed, committing)
      else Run(Rotated, committing + FinalWrites(w.jksPass, w.nowSec, commit.value.webKeys))
  }

  /**
   * A rotation run. The effects are issued in order; a `return` ends the run
   * where the source returns or raises.
   */
  method Patch(s: Settings, w: World) returns (outcome: Outcome, effects: seq<Effect>)
    ensures Run(outcome, effects) == RunPatch(s, w)
  {
    effects := [];
    if w.config.None? {
      return ConfigNotFound, effects;
    }
    var cfg := w.config.value;
    var confDynamic := cfg.dynamic;
    if GUARD_FIELD !in confDynamic {
      return MalformedConfig, effects;
    }
    if Truthy(confDynamic[GUARD_FIELD]) {
      return GuardEnabled, effects;
    }
    confDynamic := confDynamic[GUARD_FIELD := JBool(false)];
    confDynamic := confDynamic[INTERVAL_FIELD := JInt(s.rotationInterval)];
    confDynamic := confDynamic[STORAGE_FIELD := JStr("keystore")];
    confDynamic := confDynamic[SECRET_FIELD := JStr(w.jksPass)];
    assert confDynamic == UpdatedConf(cfg.dynamic, s.rotationInterval, w.jksPass);
    LifetimeUntouched(cfg.dynamic, s.rotationInterval, w.jksPass);
    var lifetime := LifetimeSeconds(confDynamic);
    if lifetime.None? {
      return MalformedConfig, effects;
    }
    var expHours := ExpirationHours(s.rotationInterval, lifetime.value);
    outcome, effects := GenerateThenPush(s, w, cfg, confDynamic, expHours);
  }

  /** Generation, merge and the stops that follow it: the part of a run after the guard. */
  method GenerateThenPush(s: Settings, w: World, cfg: AuthConfig, confDynamic: ConfDynamic, expHours: int)
    returns (outcome: Outcome, effects: seq<Effect>)
    ensures Run(outcome, effects) == GenerateAndMerge(s, w, cfg, confDynamic, expHours)
  {
    effects := [GenerateKeys(expHours)];
    if w.generated.None? {
      return GenerationFailed, effects;
    }
    var merged, kids := Merge(w.generated.value, w.oldKeys, w.nowSec);
    assert kids == ImportedKids(w.generated.value, w.oldKeys, w.nowSec);
    effects := effects + ImportEffects(kids);
    GenerateThenImportSplits(expHours, kids);
    if s.dryRun {
      return DryRun, effects;
    }
    var containers: seq<Container> := [];
    if s.pushKeys {
      containers := w.containers;
      if containers == [] {
        return NoContainers, effects;
      }
    }
    assert containers == Targets(s, w);
    var commit: Option<Effect> := None;
    if cfg.revision.Some? {
      commit := Some(ConfigModify(cfg.id, cfg.revision.value + 1, confDynamic, merged));
    }
    assert merged == MergeKeys(w.generated.value, w.oldKeys, w.nowSec);
    outcome, effects := PushThenCommit(w, containers, effects, commit);
  }

  /** Copying into the instances, the commit, and what follows the backend's answer. */
  method PushThenCommit(w: World, containers: seq<Container>, merging: seq<Effect>, commit: Option<Effect>)
    returns (outcome: Outcome, effects: seq<Effect>)
    requires commit.Some? ==> commit.value.ConfigModify?
    ensures Run(outcome, effects) == PushAndCommit(w, containers, merging, commit)
  {
    var pushes := PushFiles(containers);
    effects := merging + pushes;
    if commit.None? {
      return BadRevision, effects;
    }
    effects := effects + [commit.value];
    if !w.modifyAccepted {
      var restores := RestoreBackups(containers);
      effects := effects + restores;
      return CommitRejected, effects;
    }
    if !w.keystoreEncodes {
      return EncodeFailed, effects;
    }
    ghost var committing := effects;
    effects := effects + [SecretSet("oxauth_jks_base64", EncodedKeystore)];
    effects := effects + [ConfigSet("oxauth_key_rotated_at", Number(w.nowSec))];
    effects := effects + [SecretSet("oxauth_openid_jks_pass", Text(w.jksPass))];
    effects := effects + [SecretSet("oxauth_openid_key_base64", EncodedJwks(commit.value.webKeys))];
    assert effects == committing + FinalWrites(w.jksPass, w.nowSec, commit.value.webKeys);
    outcome := Rotated;
  }

  /** The copy loop: every instance, in list order, gets its backups taken and the new files. */
  method PushFiles(containers: seq<Container>) returns (effects: seq<Effect>)
    ensures effects == FanOut(containers, PushEffects)
  {
    effects := [];
    for i := 0 to |containers|
      invariant effects == FanOut(containers[..i], PushEffects)
    {
      assert containers[..i + 1][..i] == containers[..i];
      var c := containers[i];
      effects := effects + [Backup(c, Keystore), Push(c, Keystore)];
      effects := effects + [Backup(c, JwksFile), Push(c, JwksFile)];
    }
    assert containers[..|containers|] == containers;
  }

  /** The rollback loop: every instance, in list order, is asked to restore both files. */
  method RestoreBackups(containers: seq<Container>) returns (effects: seq<Effect>)
    ensures effects == FanOut(containers, RestoreEffects)
  {
    effects := [];
    for i := 0 to |containers|
      invariant effects == FanOut(containers[..i], RestoreEffects)
    {
      assert containers[..i + 1][..i] == containers[..i];
      var c := containers[i];
      effects := effects + [Restore(c, Keystore), Restore(c, JwksFile)];
    }
    assert containers[..|containers|] == containers;
  }

  // Properties of fan-out over the instance list

  lemma {:induction false} FanOutAppend(a: seq<Container>, b: seq<Container>, step: Container -> seq<Effect>)
    ensures FanOut(a + b, step) == FanOut(a, step) + FanOut(b, step)
    decreases |b|
  {
    if b != [] {
      var b' := b[..|b| - 1];
      assert (a + b)[..|a + b| - 1] == a + b';
      FanOutAppend(a, b', step);
    } else {
      assert a + b == a;
    }
  }

  /** A fan-out of blocks of `n` effects is `n` effects per instance long. */
  lemma {:induction false} FanOutLength(cs: seq<Container>, step: Container -> seq<Effect>, n: nat)
    requires forall c :: |step(c)| == n
    ensures |FanOut(cs, step)| == n * |cs|
    decreases |cs|
  {
    if cs != [] {
      var prev := cs[..|cs| - 1];
      FanOutLength(prev, step, n);
      assert n * |cs| == n * |prev| + n;
    }
  }

  lemma MulStep(n: nat, i: nat, m: nat)
    requires i < m
    ensures n * i + n <= n * m
    decreases n
  {
    if n > 0 {
      MulStep(n - 1, i, m);
      assert n * i == (n - 1) * i + i;
      assert n * m == (n - 1) * m + m;
    }
  }

  /** A slice inside the front part of a concatenation is a slice of the front part. */
  lemma SliceOfFront<T>(front: seq<T>, back: seq<T>, lo: nat, hi: nat)
    requires lo <= hi <= |front|
    ensures (front + back)[lo..hi] == front[lo..hi]
  {
  }

  /** The slice just after the front part of a concatenation is the back part. */
  lemma SliceOfBack<T>(front: seq<T>, back: seq<T>)
    ensures (front + back)[|front|..|front| + |back|] == back
  {
  }

  /** Each instance gets its own block of `n` effects, in list order. */
  lemma {:induction false} FanOutBlock(cs: seq<Container>, step: Container -> seq<Effect>, n: nat, i: nat)
    requires forall c :: |step(c)| == n
    requires i < |cs|
    ensures |FanOut(cs, step)| == n * |cs|
    ensures n * i + n <= n * |cs|
    ensures FanOut(cs, step)[n * i .. n * i + n] == step(cs[i])
    decreases |cs|
  {
    FanOutLength(cs, step, n);
    MulStep(n, i, |cs|);
    var prev := cs[..|cs| - 1];
    var front := FanOut(prev, step);
    var last := step(cs[|cs| - 1]);
    assert FanOut(cs, step) == front + last;
    FanOutLength(prev, step, n);
    var lo := n * i;
    if i < |cs| - 1 {
      FanOutBlock(prev, step, n, i);
      MulStep(n, i, |prev|);
      SliceOfFront(front, last, lo, lo + n);
    } else {
      assert lo == |front|;
      SliceOfBack(front, last);
    }
  }

  /** Every effect of a fan-out is one of the effects of some instance's block. */
  lemma {:induction false} FanOutMembers(cs: seq<Container>, step: Container -> seq<Effect>, e: Effect)
    requires e in FanOut(cs, step)
    ensures exists i :: 0 <= i < |cs| && e in step(cs[i])
    decreases |cs|
  {
    var prev := cs[..|cs| - 1];
    if e in FanOut(prev, step) {
      FanOutMembers(prev, step, e);
      var i :| 0 <= i < |prev| && e in step(prev[i]);
      assert cs[i] == prev[i];
    } else {
      assert e in step(cs[|cs| - 1]);
    }
  }

  // Properties of a rotation run

  /** The run gets as far as copying files into instances: every stop before it is passed. */
  predicate ReachesPush(s: Settings, w: World) {
    && w.config.Some?
    && GUARD_FIELD in w.config.value.dynamic
    && !Truthy(w.config.value.dynamic[GUARD_FIELD])
    && LifetimeSeconds(w.config.value.dynamic).Some?
    && w.generated.Some?
    && !s.dryRun
    && !(s.pushKeys && w.containers == [])
  }

  /** The run gets as far as committing the configuration: the stored revision converts too. */
  predicate ReachesCommit(s: Settings, w: World) {
    ReachesPush(s, w) && w.config.value.revision.Some?
  }

  /** The configuration record a committing run sends to the backend. */
  function CommitFor(s: Settings, w: World): Effect
    requires w.config.Some? && w.config.value.revision.Some? && w.generated.Some?
  {
    var cfg := w.config.value;
    ConfigModify(cfg.id, cfg.revision.value + 1,
                 UpdatedConf(cfg.dynamic, s.rotationInterval, w.jksPass),
                 MergeKeys(w.generated.value, w.oldKeys, w.nowSec))
  }

  /** The imports a run that gets past generation issues. */
  function RunImports(w: World): seq<string>
    requires w.generated.Some?
  {
    ImportedKids(w.generated.value, w.oldKeys, w.nowSec)
  }

  /** Generation with `expHours`, then one import per key id of `kids`. */
  function GenerateThenImport(expHours: int, kids: seq<string>): (es: seq<Effect>)
    ensures |es| == 1 + |kids|
    ensures es[0] == GenerateKeys(expHours)
    ensures forall j :: 0 <= j < |kids| ==> es[1 + j] == ImportKey(kids[j])
    ensures forall e :: e in es ==> e.GenerateKeys? || e.ImportKey?
    ensures ChangesNothing(es)
  {
    seq(1 + |kids|, i requires 0 <= i <= |kids| => if i == 0 then GenerateKeys(expHours) else ImportKey(kids[i - 1]))
  }

  /** The merge phase is the generation followed by the imports. */
  lemma GenerateThenImportSplits(expHours: int, kids: seq<string>)
    ensures GenerateThenImport(expHours, kids) == [GenerateKeys(expHours)] + ImportEffects(kids)
  {
  }

  /** The effects of a run that gets past the merge: generation, then the imports. */
  function Merging(s: Settings, w: World): (es: seq<Effect>)
    requires w.config.Some? && LifetimeSeconds(w.config.value.dynamic).Some? && w.generated.Some?
    ensures |es| == 1 + |RunImports(w)|
    ensures es[0] == GenerateKeys(ExpirationHours(s.rotationInterval, LifetimeSeconds(w.config.value.dynamic).value))
    ensures forall j :: 0 <= j < |RunImports(w)| ==> es[1 + j] == ImportKey(RunImports(w)[j])
    ensures forall e :: e in es ==> e.GenerateKeys? || e.ImportKey?
    ensures ChangesNothing(es)
  {
    GenerateThenImport(ExpirationHours(s.rotationInterval, LifetimeSeconds(w.config.value.dynamic).value), RunImports(w))
  }

  /** The token lifetime is not one of the fields a rotation rewrites. */
  lemma LifetimeUntouched(conf: ConfDynamic, interval: int, jksPass: string)
    ensures LifetimeSeconds(UpdatedConf(conf, interval, jksPass)) == LifetimeSeconds(conf)
  {
    assert LIFETIME_FIELD !in {GUARD_FIELD, INTERVAL_FIELD, STORAGE_FIELD, SECRET_FIELD};
  }

  /** The shape of a run that reaches the copying, as the phases of `RunPatch` build it. */
  lemma PushRun(s: Settings, w: World)
    requires ReachesPush(s, w)
    ensures RunPatch(s, w)
            == PushAndCommit(w, Targets(s, w), Merging(s, w),
                             if w.config.value.revision.Some? then Some(CommitFor(s, w)) else None)
    ensures ChangesNothing(Merging(s, w))
    ensures Targets(s, w) != [] <==> s.pushKeys
  {
  }

  /** The shape of a run that reaches the commit. */
  lemma CommitRun(s: Settings, w: World)
    requires ReachesCommit(s, w)
    ensures RunPatch(s, w) == PushAndCommit(w, Targets(s, w), Merging(s, w), Some(CommitFor(s, w)))
  {
    PushRun(s, w);
  }

  /** After the merge, a run changes something exactly when it commits or copies into some instance. */
  lemma PushPhaseMutates(w: World, targets: seq<Container>, merging: seq<Effect>, commit: Option<Effect>, push: bool)
    requires commit.Some? ==> commit.value.ConfigModify?
    requires ChangesNothing(merging)
    requires targets != [] <==> push
    ensures var r := PushAndCommit(w, targets, merging, commit);
            ChangesNothing(r.effects)
            <==> !(r.outcome.CommitAttempted() || (r.outcome == BadRevision && push))
  {
    var r := PushAndCommit(w, targets, merging, commit);
    var pushes := FanOut(targets, PushEffects);
    if commit.Some? {
      assert Mutates(commit.value);
    } else if targets != [] {
      FanOutBlock(targets, PushEffects, 4, 0);
      assert r.effects == merging + pushes;
      assert pushes[0] == Backup(targets[0], Keystore);
      assert r.effects[|merging|] == pushes[0];
      assert Mutates(r.effects[|merging|]);
    } else {
      assert pushes == [];
      assert r.effects == merging;
    }
  }

  /** The stops after generation: the run has asked only for generation and imports. */
  lemma StopAfterGenerate(s: Settings, w: World, cfg: AuthConfig, conf: ConfDynamic, expHours: int)
    requires w.generated.None? || s.dryRun || (s.pushKeys && w.containers == [])
    ensures var r := GenerateAndMerge(s, w, cfg, conf, expHours);
            && r.outcome in {GenerationFailed, DryRun, NoContainers}
            && forall e :: e in r.effects ==> e.GenerateKeys? || e.ImportKey?
  {
  }

  /** A run that stops before the copies changes nothing and attempts no commit. */
  lemma StopBeforePush(s: Settings, w: World)
    requires !ReachesPush(s, w)
    ensures var r := RunPatch(s, w);
            && r.outcome !in {BadRevision, CommitRejected, EncodeFailed, Rotated}
            && ChangesNothing(r.effects)
  {
    if w.config.Some? && GUARD_FIELD in w.config.value.dynamic && !Truthy(w.config.value.dynamic[GUARD_FIELD]) {
      var cfg := w.config.value;
      var conf := UpdatedConf(cfg.dynamic, s.rotationInterval, w.jksPass);
      if LifetimeSeconds(cfg.dynamic).Some? {
        StopAfterGenerate(s, w, cfg, conf, ExpirationHours(s.rotationInterval, LifetimeSeconds(cfg.dynamic).value));
      }
    }
  }

  /**
   * A run changes something (an instance, the configuration backend, or the
   * secret and config stores) exactly when it attempts the commit, or when it
   * copied files into instances before the stored revision failed to convert.
   */
  lemma MutatesIffPushedOrCommitted(s: Settings, w: World)
    ensures var r := RunPatch(s, w);
            ChangesNothing(r.effects)
            <==> !(r.outcome.CommitAttempted() || (r.outcome == BadRevision && s.pushKeys))
  {
    if ReachesPush(s, w) {
      PushedRunMutates(s, w);
    } else {
      StopBeforePush(s, w);
    }
  }

  lemma PushedRunMutates(s: Settings, w: World)
    requires ReachesPush(s, w)
    ensures var r := RunPatch(s, w);
            ChangesNothing(r.effects)
            <==> !(r.outcome.CommitAttempted() || (r.outcome == BadRevision && s.pushKeys))
  {
    PushRun(s, w);
    PushPhaseMutates(w, Targets(s, w), Merging(s, w),
                     if w.config.value.revision.Some? then Some(CommitFor(s, w)) else None, s.pushKeys);
  }

  /**
   * No record, the guard flag set, a dry run, pushing enabled with no
   * instance found, or a failed generation: the run touches no instance and
   * writes neither the configuration backend nor the secret and config stores.
   */
  lemma AbortsChangeNothing(s: Settings, w: World)
    requires || w.config.None?
             || (w.config.Some? && GUARD_FIELD in w.config.value.dynamic && Truthy(w.config.value.dynamic[GUARD_FIELD]))
             || s.dryRun
             || (s.pushKeys && w.containers == [])
             || w.generated.None?
    ensures var r := RunPatch(s, w);
            !r.outcome.CommitAttempted() && ChangesNothing(r.effects)
  {
    MutatesIffPushedOrCommitted(s, w);
  }

  /** Without a configuration record the run ends at once, before anything else is asked of any collaborator. */
  lemma MissingRecordStopsFirst(s: Settings, w: World)
    requires w.config.None?
    ensures RunPatch(s, w) == Run(ConfigNotFound, [])
  {
  }

  /** A set guard flag ends the run before anything is asked of any collaborator. */
  lemma GuardStopsFirst(s: Settings, w: World)
    requires w.config.Some? && GUARD_FIELD in w.config.value.dynamic
    requires Truthy(w.config.value.dynamic[GUARD_FIELD])
    ensures RunPatch(s, w) == Run(GuardEnabled, [])
  {
  }

  /**
   * A stored revision that does not convert ends the run after the copies:
   * every instance keeps the new files, no update is sent, nothing is stored
   * and nothing is restored.
   */
  lemma BadRevisionKeepsCopies(s: Settings, w: World)
    requires ReachesPush(s, w) && w.config.value.revision.None?
    ensures var r := RunPatch(s, w);
            && r.outcome == BadRevision
            && r.effects == Merging(s, w) + FanOut(Targets(s, w), PushEffects)
            && (forall e :: e in r.effects ==> !WritesStore(e) && !e.Restore?)
  {
    PushRun(s, w);
    var r := RunPatch(s, w);
    var targets := Targets(s, w);
    forall e | e in r.effects
      ensures !WritesStore(e) && !e.Restore?
    {
      if e in FanOut(targets, PushEffects) {
        FanOutMembers(targets, PushEffects, e);
      }
    }
  }

  /**
   * An accepted update whose keystore then fails to encode ends the run with
   * the update as its last request: the configuration names the new keys, but
   * none of the four store writes happens, and nothing is restored.
   */
  lemma EncodeFailureSkipsWrites(s: Settings, w: World)
    requires ReachesCommit(s, w) && w.modifyAccepted && !w.keystoreEncodes
    ensures var r := RunPatch(s, w);
            && r.outcome == EncodeFailed
            && |r.effects| >= 1
            && r.effects[|r.effects| - 1] == CommitFor(s, w)
            && (forall e :: e in r.effects ==> !e.SecretSet? && !e.ConfigSet? && !e.Restore?)
  {
    CommitRun(s, w);
    var r := RunPatch(s, w);
    var targets := Targets(s, w);
    forall e | e in r.effects
      ensures !e.SecretSet? && !e.ConfigSet? && !e.Restore?
    {
      if e in FanOut(targets, PushEffects) {
        FanOutMembers(targets, PushEffects, e);
      }
    }
  }

  /** The length of the copies and the restores: four and two effects per instance. */
  lemma BlockLengths(targets: seq<Container>)
    ensures |FanOut(targets, PushEffects)| == 4 * |targets|
    ensures |FanOut(targets, RestoreEffects)| == 2 * |targets|
  {
    FanOutLength(targets, PushEffects, 4);
    FanOutLength(targets, RestoreEffects, 2);
  }

  /** The effects of the commit phase, laid out: what came before, the copies, the commit, and what follows. */
  lemma CommitPhaseLayout(w: World, targets: seq<Container>, merging: seq<Effect>, commit: Effect)
    requires commit.ConfigModify?
    ensures PushAndCommit(w, targets, merging, Some(commit)).effects
            == merging + FanOut(targets, PushEffects) + [commit]
               + (if !w.modifyAccepted then FanOut(targets, RestoreEffects)
                  else if w.keystoreEncodes then FinalWrites(w.jksPass, w.nowSec, commit.webKeys)
                  else [])
  {
  }

  /** In the commit phase the commit is the only configuration update, if the effects before it hold none. */
  lemma {:induction false} CommitUnique(w: World, targets: seq<Container>, merging: seq<Effect>, commit: Effect)
    requires commit.ConfigModify?
    requires forall e :: e in merging ==> !e.ConfigModify?
    ensures var r := PushAndCommit(w, targets, merging, Some(commit));
            forall j :: 0 <= j < |r.effects| && r.effects[j].ConfigModify? ==> j == |merging| + 4 * |targets|
  {
    var r := PushAndCommit(w, targets, merging, Some(commit));
    var pushes := FanOut(targets, PushEffects);
    var tail := if !w.modifyAccepted then FanOut(targets, RestoreEffects)
                else if w.keystoreEncodes then FinalWrites(w.jksPass, w.nowSec, commit.webKeys)
                else [];
    CommitPhaseLayout(w, targets, merging, commit);
    BlockLengths(targets);
    var at := |merging| + |pushes|;
    forall j | 0 <= j < |r.effects| && r.effects[j].ConfigModify?
      ensures j == at
    {
      if |merging| <= j < at {
        assert r.effects[j] == pushes[j - |merging|];
        FanOutMembers(targets, PushEffects, pushes[j - |merging|]);
      } else if j > at {
        assert r.effects[j] == tail[j - at - 1];
        if !w.modifyAccepted {
          FanOutMembers(targets, RestoreEffects, tail[j - at - 1]);
        }
      }
    }
  }

  /**
   * The commit phase: the effects so far, then each instance's block of four
   * in list order, then the commit as the only configuration update.
   */
  lemma {:induction false} CommitPhaseOrder(w: World, targets: seq<Container>, merging: seq<Effect>, commit: Effect)
    requires commit.ConfigModify?
    requires forall e :: e in merging ==> !e.ConfigModify?
    ensures var r := PushAndCommit(w, targets, merging, Some(commit));
            var at := |merging| + 4 * |targets|;
            && |r.effects| > at
            && r.effects[..|merging|] == merging
            && (forall i :: 0 <= i < |targets| ==>
                  r.effects[|merging| + 4 * i .. |merging| + 4 * i + 4] == PushEffects(targets[i]))
            && r.effects[at] == commit
            && (forall j :: 0 <= j < |r.effects| && r.effects[j].ConfigModify? ==> j == at)
  {
    var r := PushAndCommit(w, targets, merging, Some(commit));
    var pushes := FanOut(targets, PushEffects);
    CommitPhaseLayout(w, targets, merging, commit);
    BlockLengths(targets);
    CommitUnique(w, targets, merging, commit);
    assert r.effects[|merging| .. |merging| + |pushes|] == pushes;
    forall i | 0 <= i < |targets|
      ensures r.effects[|merging| + 4 * i .. |merging| + 4 * i + 4] == PushEffects(targets[i])
    {
      FanOutBlock(targets, PushEffects, 4, i);
    }
  }

  /**
   * A committing run generates keys for the expiration horizon, issues the
   * imports of the merge, gives every instance (in list order) its backup and
   * copy of the keystore and then of the JWKS file, and then sends exactly one
   * configuration update, with the next revision, the rewritten dynamic
   * configuration and the merged keys.
   */
  lemma CommitOrder(s: Settings, w: World)
    requires ReachesCommit(s, w)
    ensures var r := RunPatch(s, w);
            var cfg := w.config.value;
            var imports := RunImports(w);
            var targets := Targets(s, w);
            var at := 1 + |imports| + 4 * |targets|;
            && |r.effects| > at
            && r.effects[0] == GenerateKeys(ExpirationHours(s.rotationInterval, LifetimeSeconds(cfg.dynamic).value))
            && (forall j :: 0 <= j < |imports| ==> r.effects[1 + j] == ImportKey(imports[j]))
            && (forall i :: 0 <= i < |targets| ==>
                  r.effects[1 + |imports| + 4 * i .. 1 + |imports| + 4 * i + 4]
                  == [Backup(targets[i], Keystore), Push(targets[i], Keystore),
                      Backup(targets[i], JwksFile), Push(targets[i], JwksFile)])
            && r.effects[at] == ConfigModify(cfg.id, cfg.revision.value + 1,
                                             UpdatedConf(cfg.dynamic, s.rotationInterval, w.jksPass),
                                             MergeKeys(w.generated.value, w.oldKeys, w.nowSec))
            && (forall j :: 0 <= j < |r.effects| && r.effects[j].ConfigModify? ==> j == at)
  {
    CommitRun(s, w);
    var cfg := w.config.value;
    var imports := RunImports(w);
    var merging := Merging(s, w);
    assert |merging| == 1 + |imports|;
    CommitPhaseOrder(w, Targets(s, w), merging, CommitFor(s, w));
    assert forall c :: PushEffects(c) == [Backup(c, Keystore), Push(c, Keystore), Backup(c, JwksFile), Push(c, JwksFile)];
    var r := RunPatch(s, w);
    forall j | 0 <= j < |imports|
      ensures r.effects[1 + j] == ImportKey(imports[j])
    {
      assert r.effects[1 + j] == merging[1 + j];
    }
  }

  /**
   * The commit phase when the backend refuses: after the commit, each
   * instance in list order is asked to restore both files, and nothing is
   * stored.
   */
  lemma {:induction false} RejectedPhase(w: World, targets: seq<Container>, merging: seq<Effect>, commit: Effect)
    requires commit.ConfigModify? && !w.modifyAccepted
    requires forall e :: e in merging ==> !e.SecretSet? && !e.ConfigSet?
    ensures var r := PushAndCommit(w, targets, merging, Some(commit));
            var from := |merging| + 4 * |targets| + 1;
            && r.outcome == CommitRejected
            && |r.effects| == from + 2 * |targets|
            && r.effects[from - 1] == commit
            && (forall i :: 0 <= i < |targets| ==>
                  r.effects[from + 2 * i .. from + 2 * i + 2] == RestoreEffects(targets[i]))
            && (forall e :: e in r.effects ==> !e.SecretSet? && !e.ConfigSet?)
  {
    var r := PushAndCommit(w, targets, merging, Some(commit));
    var pushes := FanOut(targets, PushEffects);
    var restores := FanOut(targets, RestoreEffects);
    assert r.effects == merging + pushes + [commit] + restores;
    assert |pushes| == 4 * |targets| && |restores| == 2 * |targets| by {
      if targets == [] {
        assert pushes == [] && restores == [];
      } else {
        FanOutBlock(targets, PushEffects, 4, 0);
        FanOutBlock(targets, RestoreEffects, 2, 0);
      }
    }
    var from := |merging| + |pushes| + 1;
    assert r.effects[from..] == restores;
    forall i | 0 <= i < |targets|
      ensures r.effects[from + 2 * i .. from + 2 * i + 2] == RestoreEffects(targets[i])
    {
      FanOutBlock(targets, RestoreEffects, 2, i);
    }
    forall e | e in r.effects
      ensures !e.SecretSet? && !e.ConfigSet?
    {
      if e in restores {
        FanOutMembers(targets, RestoreEffects, e);
      } else if e in pushes {
        FanOutMembers(targets, PushEffects, e);
      }
    }
  }

  /**
   * A refused commit asks every instance, in list order, to restore its
   * keystore and then its JWKS file, after the commit, and none of the four
   * store writes happens.
   */
  lemma RejectedCommitRollsBack(s: Settings, w: World)
    requires ReachesCommit(s, w) && !w.modifyAccepted
    ensures var r := RunPatch(s, w);
            var targets := Targets(s, w);
            var from := 2 + |RunImports(w)| + 4 * |targets|;
            && r.outcome == CommitRejected
            && |r.effects| == from + 2 * |targets|
            && r.effects[from - 1] == CommitFor(s, w)
            && (forall i :: 0 <= i < |targets| ==>
                  r.effects[from + 2 * i .. from + 2 * i + 2]
                  == [Restore(targets[i], Keystore), Restore(targets[i], JwksFile)])
            && (forall e :: e in r.effects ==> !e.SecretSet? && !e.ConfigSet?)
  {
    CommitRun(s, w);
    var merging := Merging(s, w);
    assert |merging| == 1 + |RunImports(w)|;
    RejectedPhase(w, Targets(s, w), merging, CommitFor(s, w));
    assert forall c :: RestoreEffects(c) == [Restore(c, Keystore), Restore(c, JwksFile)];
  }

  /**
   * An accepted commit whose keystore encodes is followed by the four store writes, in this order
   * and last: the encoded keystore, the rotation time, the keystore password,
   * the encoded merged key set. No restore is issued.
   */
  lemma AcceptedCommitStores(s: Settings, w: World)
    requires ReachesCommit(s, w) && w.modifyAccepted && w.keystoreEncodes
    ensures var r := RunPatch(s, w);
            var merged := MergeKeys(w.generated.value, w.oldKeys, w.nowSec);
            && r.outcome == Rotated
            && |r.effects| >= 5
            && r.effects[|r.effects| - 5] == CommitFor(s, w)
            && r.effects[|r.effects| - 4..] ==
                 [ SecretSet("oxauth_jks_base64", EncodedKeystore),
                   ConfigSet("oxauth_key_rotated_at", Number(w.nowSec)),
                   SecretSet("oxauth_openid_jks_pass", Text(w.jksPass)),
                   SecretSet("oxauth_openid_key_base64", EncodedJwks(merged)) ]
            && (forall e :: e in r.effects ==> !e.Restore?)
  {
    CommitRun(s, w);
    var r := RunPatch(s, w);
    var targets := Targets(s, w);
    var pushes := FanOut(targets, PushEffects);
    forall e | e in r.effects
      ensures !e.Restore?
    {
      if e in pushes {
        FanOutMembers(targets, PushEffects, e);
      }
    }
  }

  /** With pushing disabled, no instance is touched and the commit still happens. */
  lemma PushDisabledStillCommits(s: Settings, w: World)
    requires ReachesCommit(s, w) && !s.pushKeys
    ensures var r := RunPatch(s, w);
            && r.outcome.CommitAttempted()
            && CommitFor(s, w) in r.effects
            && (forall e :: e in r.effects ==> !TouchesContainer(e))
  {
    CommitRun(s, w);
    var r := RunPatch(s, w);
    assert FanOut([], PushEffects) == [] && FanOut([], RestoreEffects) == [];
  }
}
