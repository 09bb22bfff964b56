/**
 * What a rotation's backup, copy and restore requests do to the key files
 * inside one running instance.
 *
 * Backups and restores are `cp` commands run inside the instance. The source
 * builds the keystore backup with string interpolation, but writes the JWKS
 * backup and both restores as plain strings, so those three commands name the
 * literal paths `{jwks_fn}`, `{jks_fn}.backup` and `{jwks_fn}.backup`. Those
 * commands never write the real key files, whether the literal paths exist or
 * not (`cp` with a missing source fails and changes nothing). So as written, a
 * refused commit leaves the new files in place. With the paths interpolated, the same
 * run restores both files.
 */
module ContainerFiles {
  import opened Wrappers
  import opened Rotation

  /** The files of one instance: path to content. */
  type Files = map<string, string>

  /** `cp src dst`, run inside an instance. */
  datatype Copy = Copy(src: string, dst: string)

  const JKS_PATH := "/etc/certs/oxauth-keys.jks"
  const JWKS_PATH := "/etc/certs/oxauth-keys.json"

  function PathOf(f: KeyFile): string {
    match f
    case Keystore => JKS_PATH
    case JwksFile => JWKS_PATH
  }

  /** The new files the run wrote locally and copies into every instance. */
  datatype LocalFiles = LocalFiles(keystore: string, jwks: string) {
    function Content(f: KeyFile): string {
      match f
      case Keystore => keystore
      case JwksFile => jwks
    }
  }

  /** `cp` overwrites the destination with the source, and fails, changing nothing, when the source is missing. */
  function RunCopy(fs: Files, c: Copy): (r: Files)
    ensures c.src in fs ==> r == fs[c.dst := fs[c.src]]
    ensures c.src !in fs ==> r == fs
  {
    if c.src in fs then fs[c.dst := fs[c.src]] else fs
  }

  /** The two ways of turning a backup or restore request into a command. */
  datatype Shell = AsWritten | Intended

  /**
   * The backup command for a key file: it copies a path to that path plus
   * ".backup", and the path is the real file exactly when the command is
   * interpolated, which as written only the keystore's is.
   */
  function BackupCommand(shell: Shell, f: KeyFile): (cmd: Copy)
    ensures cmd.dst == cmd.src + ".backup"
    ensures cmd.src == PathOf(f) <==> shell == Intended || f == Keystore
  {
    match (shell, f)
    case (AsWritten, JwksFile) => Copy("{jwks_fn}", "{jwks_fn}.backup")
    case _ => Copy(PathOf(f), PathOf(f) + ".backup")
  }

  /**
   * The restore command for a key file. Interpolated, it copies back from
   * exactly where the backup command saved the file; as written, neither
   * restore writes the real file.
   */
  function RestoreCommand(shell: Shell, f: KeyFile): (cmd: Copy)
    ensures shell == Intended ==> cmd.src == BackupCommand(shell, f).dst && cmd.dst == BackupCommand(shell, f).src
    ensures shell == AsWritten ==> cmd.dst != PathOf(f)
  {
    match (shell, f)
    case (AsWritten, Keystore) => Copy("{jks_fn}.backup", "{jks_fn}")
    case (AsWritten, JwksFile) => Copy("{jwks_fn}.backup", "{jwks_fn}")
    case _ => Copy(PathOf(f) + ".backup", PathOf(f))
  }

  /** The files of instance `c` after one effect of a run. */
  function Apply(fs: Files, e: Effect, c: Container, shell: Shell, local: LocalFiles): Files {
    match e
    case Backup(d, f) => if d == c then RunCopy(fs, BackupCommand(shell, f)) else fs
    case Push(d, f) => if d == c then fs[PathOf(f) := local.Content(f)] else fs
    case Restore(d, f) => if d == c then RunCopy(fs, RestoreCommand(shell, f)) else fs
    case _ => fs
  }

  /** The files of instance `c` after the effects of a run. */
  function Replay(fs: Files, effects: seq<Effect>, c: Container, shell: Shell, local: LocalFiles): Files
    decreases |effects|
  {
    if effects == [] then fs
    else Apply(Replay(fs, effects[..|effects| - 1], c, shell, local), effects[|effects| - 1], c, shell, local)
  }

  lemma ReplaySnoc(fs: Files, effects: seq<Effect>, e: Effect, c: Container, shell: Shell, local: LocalFiles)
    ensures Replay(fs, effects + [e], c, shell, local) == Apply(Replay(fs, effects, c, shell, local), e, c, shell, local)
  {
    assert (effects + [e])[..|effects|] == effects;
  }

  /**
   * On one instance, backing a file up, copying the new file in and restoring
   * it gives back the file's old content with the interpolated commands, and
   * leaves the new content with the commands as written.
   */
  lemma {:induction false} RestoreUndoesPush(fs: Files, c: Container, f: KeyFile, local: LocalFiles)
    requires PathOf(f) in fs
    ensures var after := Replay(fs, [Backup(c, f), Push(c, f), Restore(c, f)], c, Intended, local);
            PathOf(f) in after && after[PathOf(f)] == fs[PathOf(f)]
    ensures var after := Replay(fs, [Backup(c, f), Push(c, f), Restore(c, f)], c, AsWritten, local);
            PathOf(f) in after && after[PathOf(f)] == local.Content(f)
  {
    var es := [Backup(c, f), Push(c, f), Restore(c, f)];
    assert [es[0]] == es[..1] && es[..1] + [es[1]] == es[..2] && es[..2] + [es[2]] == es;
    forall shell: Shell
      ensures Replay(fs, es, c, shell, local)
              == Apply(Apply(Apply(fs, es[0], c, shell, local), es[1], c, shell, local), es[2], c, shell, local)
    {
      ReplaySnoc(fs, [], es[0], c, shell, local);
      ReplaySnoc(fs, es[..1], es[1], c, shell, local);
      ReplaySnoc(fs, es[..2], es[2], c, shell, local);
    }
    assert |PathOf(f) + ".backup"| != |PathOf(f)|;
    assert |"{jks_fn}.backup"| != |JKS_PATH| && |"{jwks_fn}.backup"| != |JWKS_PATH|;
  }

  /** Instance `c`'s files after its own backups and copies and then its own restores, step by step. */
  lemma ReplayOwnBlocks(fs: Files, c: Container, shell: Shell, local: LocalFiles)
    ensures var push := PushEffects(c);
            var restore := RestoreEffects(c);
            var fs1 := Apply(fs, push[0], c, shell, local);
            var fs2 := Apply(fs1, push[1], c, shell, local);
            var fs3 := Apply(fs2, push[2], c, shell, local);
            var fs4 := Apply(fs3, push[3], c, shell, local);
            var fs5 := Apply(fs4, restore[0], c, shell, local);
            Replay(fs, push + restore, c, shell, local) == Apply(fs5, restore[1], c, shell, local)
  {
    var es := PushEffects(c) + RestoreEffects(c);
    ReplaySnoc(fs, [], es[0], c, shell, local);
    ReplaySnoc(fs, es[..1], es[1], c, shell, local);
    ReplaySnoc(fs, es[..2], es[2], c, shell, local);
    ReplaySnoc(fs, es[..3], es[3], c, shell, local);
    ReplaySnoc(fs, es[..4], es[4], c, shell, local);
    ReplaySnoc(fs, es[..5], es[5], c, shell, local);
    assert [es[0]] == es[..1];
    assert es[..1] + [es[1]] == es[..2];
    assert es[..2] + [es[2]] == es[..3];
    assert es[..3] + [es[3]] == es[..4];
    assert es[..4] + [es[4]] == es[..5];
    assert es[..5] + [es[5]] == es;
  }

  lemma {:induction false} ReplayAppend(fs: Files, a: seq<Effect>, b: seq<Effect>, c: Container, shell: Shell, local: LocalFiles)
    ensures Replay(fs, a + b, c, shell, local) == Replay(Replay(fs, a, c, shell, local), b, c, shell, local)
    decreases |b|
  {
    if b == [] {
      assert a + b == a;
    } else {
      assert (a + b)[..|a + b| - 1] == a + b[..|b| - 1];
      ReplayAppend(fs, a, b[..|b| - 1], c, shell, local);
    }
  }

  /** Effects addressed to other instances, or to no instance, leave `c`'s files alone. */
  lemma {:induction false} ReplayElsewhere(fs: Files, effects: seq<Effect>, c: Container, shell: Shell, local: LocalFiles)
    requires forall e :: e in effects ==> !TouchesContainer(e) || e.container != c
    ensures Replay(fs, effects, c, shell, local) == fs
    decreases |effects|
  {
    if effects != [] {
      assert effects[|effects| - 1] in effects;
      ReplayElsewhere(fs, effects[..|effects| - 1], c, shell, local);
    }
  }

  /** Every effect of a push or restore block is addressed to that block's instance. */
  lemma FanOutAddressed(cs: seq<Container>, restore: bool, e: Effect)
    requires e in FanOut(cs, if restore then RestoreEffects else PushEffects)
    ensures TouchesContainer(e) && e.container in cs
  {
    FanOutMembers(cs, if restore then RestoreEffects else PushEffects, e);
  }

  /** With distinct instances, instance `cs[i]` sees only its own block of a fan-out. */
  lemma OwnBlockOnly(fs: Files, cs: seq<Container>, i: nat, restore: bool, shell: Shell, local: LocalFiles)
    requires i < |cs|
    requires forall j, k :: 0 <= j < k < |cs| ==> cs[j] != cs[k]
    ensures var step := if restore then RestoreEffects else PushEffects;
            Replay(fs, FanOut(cs, step), cs[i], shell, local) == Replay(fs, step(cs[i]), cs[i], shell, local)
  {
    var step := if restore then RestoreEffects else PushEffects;
    var c := cs[i];
    var before, after := cs[..i], cs[i + 1..];
    assert cs == before + [c] + after;
    FanOutAppend(before + [c], after, step);
    FanOutAppend(before, [c], step);
    assert FanOut([c], step) == step(c) by {
      assert [c][..0] == [];
    }
    forall e | e in FanOut(before, step)
      ensures !TouchesContainer(e) || e.container != c
    {
      FanOutAddressed(before, restore, e);
    }
    forall e | e in FanOut(after, step)
      ensures !TouchesContainer(e) || e.container != c
    {
      FanOutAddressed(after, restore, e);
    }
    ReplayAppend(fs, FanOut(before, step) + step(c), FanOut(after, step), c, shell, local);
    ReplayAppend(fs, FanOut(before, step), step(c), c, shell, local);
    ReplayElsewhere(fs, FanOut(before, step), c, shell, local);
    ReplayElsewhere(Replay(fs, step(c), c, shell, local), FanOut(after, step), c, shell, local);
  }

  /** The commit phase of a refused run, as one instance with distinct neighbours sees it. */
  lemma RejectedPhaseSeenByInstance(w: World, targets: seq<Container>, merging: seq<Effect>, commit: Effect,
                                    c: Container, fs: Files, shell: Shell, local: LocalFiles)
    requires commit.ConfigModify? && !w.modifyAccepted
    requires ChangesNothing(merging)
    requires forall j, k :: 0 <= j < k < |targets| ==> targets[j] != targets[k]
    requires c in targets
    ensures Replay(fs, PushAndCommit(w, targets, merging, Some(commit)).effects, c, shell, local)
            == Replay(fs, PushEffects(c) + RestoreEffects(c), c, shell, local)
  {
    var i :| 0 <= i < |targets| && targets[i] == c;
    var pushes := FanOut(targets, PushEffects);
    var restores := FanOut(targets, RestoreEffects);
    assert PushAndCommit(w, targets, merging, Some(commit)).effects == merging + pushes + [commit] + restores;
    ReplayAppend(fs, merging + pushes + [commit], restores, c, shell, local);
    ReplayAppend(fs, merging + pushes, [commit], c, shell, local);
    ReplayAppend(fs, merging, pushes, c, shell, local);
    ReplayElsewhere(fs, merging, c, shell, local);
    var afterPush := Replay(fs, pushes, c, shell, local);
    ReplayElsewhere(afterPush, [commit], c, shell, local);
    OwnBlockOnly(fs, targets, i, false, shell, local);
    OwnBlockOnly(afterPush, targets, i, true, shell, local);
    ReplayAppend(fs, PushEffects(c), RestoreEffects(c), c, shell, local);
  }

  /**
   * On a refused commit with distinct instances, what instance `c` sees of the
   * whole run is its own backups and copies followed by its own restores.
   */
  lemma RejectedRunSeenByInstance(s: Handler.Settings, w: World, c: Container, fs: Files, shell: Shell, local: LocalFiles)
    requires ReachesCommit(s, w) && !w.modifyAccepted
    requires forall j, k :: 0 <= j < k < |Targets(s, w)| ==> Targets(s, w)[j] != Targets(s, w)[k]
    requires c in Targets(s, w)
    ensures Replay(fs, RunPatch(s, w).effects, c, shell, local)
            == Replay(fs, PushEffects(c) + RestoreEffects(c), c, shell, local)
  {
    CommitRun(s, w);
    RejectedPhaseSeenByInstance(w, Targets(s, w), Merging(s, w), CommitFor(s, w), c, fs, shell, local);
  }

  /** An instance's own backups, copies and interpolated restores give it back both files. */
  lemma OwnBlocksRestore(fs: Files, c: Container, local: LocalFiles)
    requires JKS_PATH in fs && JWKS_PATH in fs
    ensures var after := Replay(fs, PushEffects(c) + RestoreEffects(c), c, Intended, local);
            JKS_PATH in after && JWKS_PATH in after
            && after[JKS_PATH] == fs[JKS_PATH] && after[JWKS_PATH] == fs[JWKS_PATH]
  {
    ReplayOwnBlocks(fs, c, Intended, local);
    assert |JKS_PATH + ".backup"| != |JWKS_PATH| && |JWKS_PATH + ".backup"| != |JKS_PATH|;
  }

  /** With the restores as written, an instance's own blocks leave it the new files. */
  lemma OwnBlocksKeepNew(fs: Files, c: Container, local: LocalFiles)
    ensures var after := Replay(fs, PushEffects(c) + RestoreEffects(c), c, AsWritten, local);
            JKS_PATH in after && JWKS_PATH in after
            && after[JKS_PATH] == local.keystore && after[JWKS_PATH] == local.jwks
  {
    ReplayOwnBlocks(fs, c, AsWritten, local);
    assert |JKS_PATH + ".backup"| != |"{jwks_fn}"|;
  }

  /** After its own backups and copies, an instance holds the new keystore and JWKS file. */
  lemma ReplayPushBlock(fs: Files, c: Container, shell: Shell, local: LocalFiles)
    ensures var after := Replay(fs, PushEffects(c), c, shell, local);
            JKS_PATH in after && JWKS_PATH in after
            && after[JKS_PATH] == local.keystore && after[JWKS_PATH] == local.jwks
  {
    var es := PushEffects(c);
    ReplaySnoc(fs, [], es[0], c, shell, local);
    ReplaySnoc(fs, es[..1], es[1], c, shell, local);
    ReplaySnoc(fs, es[..2], es[2], c, shell, local);
    ReplaySnoc(fs, es[..3], es[3], c, shell, local);
    assert [es[0]] == es[..1];
    assert es[..1] + [es[1]] == es[..2];
    assert es[..2] + [es[2]] == es[..3];
    assert es[..3] + [es[3]] == es;
    assert |JWKS_PATH + ".backup"| != |JKS_PATH| && |"{jwks_fn}.backup"| != |JKS_PATH|;
  }

  /**
   * When the stored revision fails to convert, the run ends after the copies,
   * so every instance keeps the new keystore and JWKS file while the
   * configuration still names the old keys.
   */
  lemma BadRevisionLeavesNewFiles(s: Handler.Settings, w: World, c: Container, fs: Files, shell: Shell, local: LocalFiles)
    requires ReachesPush(s, w) && w.config.value.revision.None?
    requires forall j, k :: 0 <= j < k < |Targets(s, w)| ==> Targets(s, w)[j] != Targets(s, w)[k]
    requires c in Targets(s, w)
    ensures var after := Replay(fs, RunPatch(s, w).effects, c, shell, local);
            JKS_PATH in after && JWKS_PATH in after
            && after[JKS_PATH] == local.keystore && after[JWKS_PATH] == local.jwks
  {
    BadRevisionKeepsCopies(s, w);
    var targets := Targets(s, w);
    var i :| 0 <= i < |targets| && targets[i] == c;
    var merging := Merging(s, w);
    ReplayAppend(fs, merging, FanOut(targets, PushEffects), c, shell, local);
    ReplayElsewhere(fs, merging, c, shell, local);
    OwnBlockOnly(fs, targets, i, false, shell, local);
    ReplayPushBlock(fs, c, shell, local);
  }

  /**
   * With the intended commands, a refused commit gives every instance back
   * the keystore and JWKS file it had before the run.
   */
  lemma RollbackRestoresFiles(s: Handler.Settings, w: World, c: Container, fs: Files, local: LocalFiles)
    requires ReachesCommit(s, w) && !w.modifyAccepted
    requires forall j, k :: 0 <= j < k < |Targets(s, w)| ==> Targets(s, w)[j] != Targets(s, w)[k]
    requires c in Targets(s, w)
    requires JKS_PATH in fs && JWKS_PATH in fs
    ensures var after := Replay(fs, RunPatch(s, w).effects, c, Intended, local);
            JKS_PATH in after && JWKS_PATH in after
            && after[JKS_PATH] == fs[JKS_PATH] && after[JWKS_PATH] == fs[JWKS_PATH]
  {
    RejectedRunSeenByInstance(s, w, c, fs, Intended, local);
    OwnBlocksRestore(fs, c, local);
  }

  /**
   * As written, a refused commit leaves the new keystore and JWKS file in
   * every instance: the restore commands never write the real key files.
   */
  lemma RollbackAsWrittenKeepsNewFiles(s: Handler.Settings, w: World, c: Container, fs: Files, local: LocalFiles)
    requires ReachesCommit(s, w) && !w.modifyAccepted
    requires forall j, k :: 0 <= j < k < |Targets(s, w)| ==> Targets(s, w)[j] != Targets(s, w)[k]
    requires c in Targets(s, w)
    ensures var after := Replay(fs, RunPatch(s, w).effects, c, AsWritten, local);
            JKS_PATH in after && JWKS_PATH in after
            && after[JKS_PATH] == local.keystore && after[JWKS_PATH] == local.jwks
  {
    RejectedRunSeenByInstance(s, w, c, fs, AsWritten, local);
    OwnBlocksKeepNew(fs, c, local);
  }
}
