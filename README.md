# Auth-server key rotation, modelled in Dafny

This project models the key rotation of the auth server's certificate manager,
`AuthHandler` in `scripts/auth_handler.py`. A rotation run reads the auth-server
configuration record. It refuses to run while the server's own key regeneration
(`keyRegenerationEnabled`) is on. It then generates a new JSON Web Key set and
keystore, and merges in the previously published keys that are still valid. It
copies the new keystore and JWKS file into every running auth-server instance,
taking a backup first. Then it commits the configuration with the next revision.
If the backend accepts the update, the run stores the new secrets. If it refuses,
the run asks every instance to restore its backups.

Modules:

- `Keys` (`keys.dfy`): the key-set merge of `get_merged_keys`. `Merge` is the
  loop, with its invariants. `MergeKeys` is the function that specifies it.
  The lemmas prove what the merge promises: new keys first and unchanged,
  survivors in their old order, no expired survivor, the per-algorithm quota
  of two, and one import per kept key.
- `Handler` (`handler.dfy`): what `AuthHandler.__init__` decides. That is the
  configuration backend, the container runtime, the rotation interval (48 hours
  by default) and whether files are pushed into instances.
- `Rotation` (`rotation.dfy`): `AuthHandler.patch`. The collaborators' answers
  are inputs (`World`). The requests the run makes of them form an ordered trace
  of `Effect`s: key generation, keystore imports, backups, copies into
  instances, restores, the configuration update, and the secret and config
  writes. `Patch` (with `GenerateThenPush`, `PushThenCommit`, `PushFiles` and
  `RestoreBackups`) issues the effects step by step, and `RunPatch` specifies
  the whole run. The lemmas say which effects can and cannot occur on each
  path.
- `ContainerFiles` (`container_files.dfy`): what the backup, copy and restore
  requests do to the files inside one instance. It covers the `cp` commands
  both as written and as intended (see Findings).
- `Wrappers` (`wrappers.dfy`): `Option`.

The clock is a parameter, `nowSec`, for `int(time.time())`. The merge compares
key expiry with `nowSec * 1000`, so a key whose `exp` equals that instant
counts as expired.

The collaborators' answers include two that the source gets from conversions
which can raise: the stored revision is an `Option<int>` (None when
`int(config["oxRevision"])` at line 317 raises), and `keystoreEncodes` says
whether `encode_jks` at line 336 succeeds. Both failures are caught by the
handler at lines 344-345, which logs and ends the run.

Points where the code behaves differently from what a reader might expect:

- The comment at line 233 says an algorithm cannot have more than two keys.
  The check at lines 234-235 only stops adding old keys once two keys of that
  algorithm are present. If the generator emits more than two keys of one
  algorithm, all of them stay. `Keys.MergedAlgBound` proves the bound the code
  gives: at most max(2, the number of new keys of that algorithm).
- A dry run is not free of requests. `get_merged_keys` runs at line 281,
  before the dry-run check at line 283, so a dry run still generates keys and
  imports old keys into the local keystore. Its trace holds `GenerateKeys` and
  `ImportKey`. Both touch only local files; no instance or store is touched
  (`Rotation.AbortsChangeNothing`).
- A generation failure is not a clean stop. `get_merged_keys` returns `None`
  at lines 221-223, and unpacking that result at line 281 raises. The model ends
  the run there (`GenerationFailed`), after the generation request and before
  any other effect.
- A stored revision that does not convert is caught only after the copy loop
  (lines 299-317). Every instance keeps the new files, and no update and no
  restore follow (`Rotation.BadRevisionKeepsCopies`,
  `ContainerFiles.BadRevisionLeavesNewFiles`).
- A refused update does not put the old files back in the instances (see
  Findings).

## Model

| member | source | states |
|---|---|---|
| `Keys.KeyExpired` | scripts/auth_handler.py:34-36 | a key with expiry `exp` (ms) has expired exactly from the first whole second at or after `exp` on: nowSec >= ceil(exp / 1000) |
| `Keys.MergeKeys` | scripts/auth_handler.py:225-241 | the merged list starts with the new keys, unchanged and in order, and is at most as long as new plus old keys |
| `Keys.Merge` | scripts/auth_handler.py:228-241 | the merge loop computes `MergeKeys`; it issues exactly one import per appended old key, carrying that key's kid, in append order |
| `Keys.Unexpired` | scripts/auth_handler.py:34-36 | a key is kept exactly when it has not expired, that is when now (in ms) < exp |
| `Keys.CarriedFromUnexpired` | scripts/auth_handler.py:228-239 | the old keys that survive are a subsequence of the unexpired old keys, and so of the old keys, in their original order |
| `Keys.ExpiredOldKeysDropped` | scripts/auth_handler.py:229-231 | every surviving old key comes from the old list and has exp > now (in ms); no expired old key survives |
| `Keys.CarriedPerAlg` | scripts/auth_handler.py:233-239 | per algorithm, the number of surviving old keys is the smaller of the room the new keys leave under the quota of 2 and the number of unexpired old keys of that algorithm |
| `Keys.CarriedWhen` | scripts/auth_handler.py:228-239 | which old keys survive: old key i is appended exactly when it is unexpired and the new keys plus the unexpired old keys before it hold fewer than 2 of its algorithm; so the earliest live keys of an algorithm win |
| `Keys.MergedAlgBound` | scripts/auth_handler.py:233-236 | per algorithm the merged list holds at most max(2, new keys of it); an algorithm the new keys already fill gets no old key; one absent from the new keys keeps at most 2 old keys |
| `Keys.MergeWithoutOldKeys` | scripts/auth_handler.py:225-241 | with no old keys the merged list is the new keys and nothing is imported |
| `Keys.MergeExample` | scripts/auth_handler.py:228-241 | new [k4 RS256] with old [k1 RS256, k2 RS256, k3 ES256 expired] merges to [k4, k1] and imports only k1 |
| `Handler.SelectBackend` | scripts/auth_handler.py:169-176 | "ldap" and "couchbase" select their own backend; any other (hybrid) type selects LDAP exactly when the LDAP mapping is "default" |
| `Handler.SelectMeta` | scripts/auth_handler.py:197-201 | the Kubernetes client is chosen exactly when the metadata setting is "kubernetes", Docker otherwise |
| `Handler.NewSettings` | scripts/auth_handler.py:163-201 | in terms of the environment map and the options: the runtime is Kubernetes exactly when `CN_CONTAINER_METADATA` is set to "kubernetes"; an unset `CN_PERSISTENCE_TYPE`, "ldap" or "couchbase" gives that backend; an unset interval gives 48; pushing is on unless the option is explicitly false |
| `Handler.DefaultSettings` | scripts/auth_handler.py:166-201 | with an empty environment and no options: LDAP, Docker, 48 hours, pushing on |
| `Handler.HybridFollowsMapping` | scripts/auth_handler.py:166-176 | in a hybrid setup, whatever the options, the backend is LDAP exactly when the mapping variable is unset or "default" |
| `Rotation.FalsyValues` | scripts/auth_handler.py:264 | the guard check's truthiness: exactly null, false, 0, "", [] and {} count as false |
| `Rotation.UpdatedConf` | scripts/auth_handler.py:272-277 | the committed dynamic configuration sets exactly four fields (regeneration off, interval, storage "keystore", keystore secret) and keeps every other field unchanged |
| `Rotation.LifetimeSeconds` | scripts/auth_handler.py:279 | `idTokenLifetime` yields a number exactly when it is present and an integer or a boolean (its value, or 0/1); otherwise line 279 raises |
| `Rotation.ExpirationHours` | scripts/auth_handler.py:279 | the horizon is the interval plus the token lifetime in whole hours, rounded toward zero: for a non-negative lifetime, (hours - interval) * 3600 <= lifetime < (hours - interval + 1) * 3600 |
| `Rotation.LifetimeUntouched` | scripts/auth_handler.py:272-279 | the lifetime read for the horizon is not affected by the four rewritten fields |
| `Rotation.RunPatch` | scripts/auth_handler.py:251-345 | the specification of a whole run; its trace is empty exactly when the run stops at the missing record, a malformed record or the guard |
| `Rotation.GenerateAndMerge` | scripts/auth_handler.py:279-297 | after the guard the first request is generation for the horizon; generation fails exactly when the generator does; a commit is attempted only when the stored revision converts |
| `Rotation.GenerateThenImport` | scripts/auth_handler.py:219-241 | the merge phase's trace: the generation, then one import per kept key id in order, and nothing that touches an instance or a store |
| `Rotation.PushAndCommit` | scripts/auth_handler.py:299-345 | after the copies, the run ends with a bad revision exactly when the revision does not convert, is refused exactly when the backend refuses, and is rotated exactly when the backend accepts and the keystore encodes |
| `Rotation.Patch` | scripts/auth_handler.py:251-345 | the run, step by step, yields exactly the outcome and effect trace of `RunPatch` |
| `Rotation.GenerateThenPush` | scripts/auth_handler.py:279-297 | after the guard: generation, merge with its imports, and the dry-run and no-instance stops, as `RunPatch` specifies |
| `Rotation.PushThenCommit` | scripts/auth_handler.py:299-345 | copies, then the revision check, the commit, then the restores, the encode failure or the four store writes, as `RunPatch` specifies |
| `Rotation.PushFiles` | scripts/auth_handler.py:299-310 | the copy loop issues, for each instance in list order, backup and copy of the keystore, then backup and copy of the JWKS file |
| `Rotation.RestoreBackups` | scripts/auth_handler.py:328-333 | the rollback loop issues, for each instance in list order, a restore of the keystore, then of the JWKS file |
| `Rotation.MutatesIffPushedOrCommitted` | scripts/auth_handler.py:251-345 | a run touches an instance or writes the backend or a store exactly when it attempts the commit (refused, encode failure or rotated), or copied into instances before the revision failed to convert |
| `Rotation.AbortsChangeNothing` | scripts/auth_handler.py:254-297 | with no record, the guard set, a dry run, no instance found while pushing, or a failed generation, no commit is attempted, no instance is touched and nothing is written |
| `Rotation.MissingRecordStopsFirst` | scripts/auth_handler.py:252-257 | without a configuration record the run ends as not found with an empty trace: no generation, no import, nothing else asked |
| `Rotation.GuardStopsFirst` | scripts/auth_handler.py:264-268 | a set guard flag ends the run with an empty trace, before the configuration is rewritten or keys are generated |
| `Rotation.BadRevisionKeepsCopies` | scripts/auth_handler.py:312-317 | a revision that does not convert ends the run right after the copies: no update, no store write and no restore |
| `Rotation.EncodeFailureSkipsWrites` | scripts/auth_handler.py:336 | an accepted update followed by a keystore that fails to encode ends the run with the update as the last request: none of the four writes and no restore |
| `Rotation.CommitPhaseOrder` | scripts/auth_handler.py:299-323 | in the commit phase each instance's four-effect block appears in list order, followed by the single configuration update |
| `Rotation.CommitOrder` | scripts/auth_handler.py:279-323 | a committing run generates keys for the horizon, then issues the merge's imports, then each instance's backup/copy block in list order, then exactly one update, carrying revision + 1, the rewritten configuration and the merged keys |
| `Rotation.RejectedPhase` | scripts/auth_handler.py:325-334 | in the commit phase, a refused update is followed by restores only, one block per instance in list order, and by no store write |
| `Rotation.RejectedCommitRollsBack` | scripts/auth_handler.py:325-334 | on a refused update every instance, in list order, gets a keystore restore and then a JWKS restore after the update, the trace ends there, and no secret or config write happens |
| `Rotation.AcceptedCommitStores` | scripts/auth_handler.py:336-343 | on an accepted update with an encodable keystore the run ends with the four writes, in order: keystore secret, rotation time, keystore password, merged JWKS; no restore is issued |
| `Rotation.PushDisabledStillCommits` | scripts/auth_handler.py:286-323 | with pushing off, no instance is touched and the configuration update still happens |
| `ContainerFiles.RunCopy` | scripts/auth_handler.py:303-333 | `cp` overwrites the destination with the source's content, and changes nothing when the source is missing |
| `ContainerFiles.BackupCommand` | scripts/auth_handler.py:303-308 | the backup copies a path to that path plus ".backup"; the path is the real file exactly when the command is interpolated, which as written only the keystore's (line 303) is |
| `ContainerFiles.RestoreCommand` | scripts/auth_handler.py:331-333 | interpolated, the restore copies back from exactly where the backup saved to; as written, neither restore writes the real file |
| `ContainerFiles.RestoreUndoesPush` | scripts/auth_handler.py:303-333 | on one instance, backup, copy-in and restore of a file give back its old content with interpolated commands, and leave the new content as written, whatever else the instance holds |
| `ContainerFiles.RejectedRunSeenByInstance` | scripts/auth_handler.py:299-334 | on a refused update with distinct instances, each instance sees only its own backups and copies followed by its own restores |
| `ContainerFiles.BadRevisionLeavesNewFiles` | scripts/auth_handler.py:299-317 | when the revision fails to convert, every instance is left holding the new keystore and JWKS file |
| `ContainerFiles.RollbackRestoresFiles` | scripts/auth_handler.py:325-333 | with interpolated commands, a refused update leaves every instance's keystore and JWKS file as they were before the run |
| `ContainerFiles.RollbackAsWrittenKeepsNewFiles` | scripts/auth_handler.py:308-333 | with the commands as written, a refused update leaves the new keystore and JWKS file in every instance |

## Left out

- The clock: `key_expired` reads the clock once per old key, and line 337 reads it again. The model reads it once, as `nowSec`, for the whole run.
- The LDAP and Couchbase code (`LdapPersistence`, `CouchbasePersistence`, scripts/auth_handler.py:73-159) is network I/O through libraries outside this repository. The read is an `Option` of the decoded record, and the update is a boolean answer.
- `generate_openid_keys`, `keytool_import_key` and `exec_cmd` (scripts/auth_handler.py:39-62) run external processes. The generator's key list, or its failure, is an input. Generation and imports appear as `GenerateKeys` and `ImportKey` effects.
- `int(config["oxRevision"])` (line 317) and `encode_jks` (line 336): the conversion and the encoder are not modelled; their success or failure is an input (`AuthConfig.revision`, `World.keystoreEncodes`), and both failures end the run as the handler at lines 344-345 does. `encode_jks` is not part of this model.
- Encoding and file I/O are not modelled: base64, JSON encoding and decoding, reading the previous JWKS and keystore from the secret store, and writing and re-reading the JWKS file. The `json.loads` of the file read back at lines 313-314 is taken to succeed and to yield the merged keys, so that source of the `TypeError`/`ValueError` at lines 344-345 is not modelled. The `json.loads` of the dynamic configuration at lines 259-262 is also not modelled: the record arrives decoded.
- Key material: a JWK is its `kid`, `alg` and `exp`. The other fields are passed through and play no part. A JWK missing `exp` or `alg`, which raises `KeyError` in the source, cannot be expressed.
- Floating point: `idTokenLifetime / 3600` is Python true division followed by `int()`. The model computes it exactly on integers, rounding toward zero; booleans count as 0 or 1. JSON floats (including a guard value of 0.0) and integers beyond 2^53 are not modelled.
- Option parsing: `int(self.rotation_interval)` on a string and `as_boolean` on a string are not modelled. The interval is an integer and the push option a boolean.
- `DockerMeta`/`KubernetesMeta` calls, `get_container_name` and logging: instances are opaque names, and logging has no effect on the model.
- `scripts/base_handler.py` (`_patch_keystore`, `_patch_cert_key`) only wraps `generate_keystore`/`generate_ssl_certkey` from a `utils` module. That module is not part of this model, and those methods have no logic of their own.
- `ContainerFiles.RejectedRunSeenByInstance`: the rollback lemmas assume the runtime lists each instance once. With a repeated instance, its second backup would copy the new keystore over the first backup.
- Concurrency: the source handles instances one at a time, so there is nothing concurrent to model.

## Findings

| source | as written | input that shows it | evidently intended | confidence | as-written member | corrected member |
|---|---|---|---|---|---|---|
| scripts/auth_handler.py:308 | The JWKS backup (line 308) and both restore commands (lines 331, 333) lack the `f` prefix. `cp` is given the literal paths `{jwks_fn}`, `{jks_fn}.backup` and `{jwks_fn}.backup`, so it never writes the real key files: with those paths absent it changes nothing, and otherwise it writes only literal-brace paths. | Pushing on, at least one running instance, and a backend that refuses the configuration update. The instance keeps the new keystore and JWKS file although the commit failed. | Interpolated paths, as in the keystore backup on line 303, so a refused commit puts back each instance's previous keystore and JWKS file. | high, not executed | `ContainerFiles.RollbackAsWrittenKeepsNewFiles` | `ContainerFiles.RollbackRestoresFiles` |
