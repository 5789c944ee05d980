/** Applying a multi-file configuration plan with backups and rollback (cmd/config_mcp_add.go). */
module ConfigApply {
  import opened EventTypes

  type Files = map<string, string>

  datatype Kind = FractaYaml | Compose | EnvExample | WriteFile | Unknown

  /** How the body of an action ends. Writes are atomic, so an error leaves the target as it was. */
  datatype Result = Wrote(content: string) | Untouched | Error

  /** How writing a backup ends; the write is not atomic and may leave part of a file behind. */
  datatype Backup = Saved | NotSaved(partial: Option<string>)

  /** An action of the plan together with what the file system does when it is attempted. */
  datatype Attempt = Attempt(kind: Kind, path: string, backup: Backup, result: Result)

  predicate IsEdit(k: Kind) {
    k.FractaYaml? || k.Compose? || k.EnvExample?
  }

  function Bak(path: string): string {
    path + ".bak"
  }

  lemma BakInjective(p: string, q: string)
    requires Bak(p) == Bak(q)
    ensures p == q
  {
    assert |p| == |q|;
    assert p == Bak(p)[..|p|] && q == Bak(q)[..|q|];
  }

  /** Editing an existing file takes a backup. */
  predicate TakesBackup(f: Files, a: Attempt) {
    IsEdit(a.kind) && a.path in f
  }

  predicate BackupFails(f: Files, a: Attempt) {
    TakesBackup(f, a) && a.backup.NotSaved?
  }

  /** An unknown kind of action is an error. */
  predicate ActionFails(a: Attempt) {
    a.result.Error? || a.kind.Unknown?
  }

  predicate Succeeds(f: Files, a: Attempt) {
    !BackupFails(f, a) && !ActionFails(a)
  }

  /** The files after a successful attempt. */
  function Done(f: Files, a: Attempt): Files {
    var g := if TakesBackup(f, a) then f[Bak(a.path) := f[a.path]] else f;
    if a.result.Wrote? then g[a.path := a.result.content] else g
  }

  function Progress(f: Files, acts: seq<Attempt>): Files {
    if acts == [] then f else Done(Progress(f, acts[..|acts| - 1]), acts[|acts| - 1])
  }

  /** The paths with a backup, in the order the backups were taken. */
  function Backed(f: Files, acts: seq<Attempt>): seq<string> {
    if acts == [] then []
    else
      var front, a := acts[..|acts| - 1], acts[|acts| - 1];
      Backed(f, front) + Backs(Progress(f, front), a)
  }

  function Backs(f: Files, a: Attempt): seq<string> {
    if TakesBackup(f, a) then [a.path] else []
  }

  function Creates(a: Attempt): seq<string> {
    if a.kind.WriteFile? then [a.path] else []
  }

  predicate AllSucceed(f: Files, acts: seq<Attempt>) {
    acts == []
    || (AllSucceed(f, acts[..|acts| - 1]) && Succeeds(Progress(f, acts[..|acts| - 1]), acts[|acts| - 1]))
  }

  function NewFiles(acts: seq<Attempt>): seq<string> {
    if acts == [] then []
    else NewFiles(acts[..|acts| - 1]) + Creates(acts[|acts| - 1])
  }

  function RestoreOne(f: Files, p: string): Files {
    if Bak(p) in f then f[p := f[Bak(p)]] - {Bak(p)} else f - {Bak(p)}
  }

  /** Backups are restored and removed, the latest first. */
  function RestoreAll(f: Files, ps: seq<string>): Files
    decreases |ps|
  {
    if ps == [] then f else RestoreAll(RestoreOne(f, ps[|ps| - 1]), ps[..|ps| - 1])
  }

  function DeleteAll(f: Files, ps: seq<string>): Files {
    f - set i | 0 <= i < |ps| :: ps[i]
  }

  function BackupsOf(ps: seq<string>): set<string> {
    set i | 0 <= i < |ps| :: Bak(ps[i])
  }

  function DropBackups(f: Files, ps: seq<string>): Files {
    f - BackupsOf(ps)
  }

  function Rollback(f: Files, backed: seq<string>, written: seq<string>): Files {
    DeleteAll(RestoreAll(f, backed), written)
  }

  /** The files after an attempt fails in state f and the rollback has run. */
  function FailedAt(f: Files, a: Attempt, backed: seq<string>, written: seq<string>): Files {
    if BackupFails(f, a) then
      Rollback(if a.backup.partial.Some? then f[Bak(a.path) := a.backup.partial.value] else f, backed, written)
    else if TakesBackup(f, a) then Rollback(f[Bak(a.path) := f[a.path]], backed + [a.path], written)
    else Rollback(f, backed, written)
  }

  function Failure(f: Files, acts: seq<Attempt>, n: nat): Files
    requires n < |acts|
  {
    FailedAt(Progress(f, acts[..n]), acts[n], Backed(f, acts[..n]), NewFiles(acts[..n]))
  }

  // --- The program ---

  class Workspace {
    var files: Files

    constructor (f: Files)
      ensures files == f
    {
      files := f;
    }

    method RollBack(backed: seq<string>, written: seq<string>)
      modifies this
      ensures files == Rollback(old(files), backed, written)
    {
      var i := |backed|;
      assert backed[..i] == backed;
      while i > 0
        invariant 0 <= i <= |backed|
        invariant RestoreAll(files, backed[..i]) == RestoreAll(old(files), backed)
      {
        i := i - 1;
        assert backed[..i + 1][..i] == backed[..i];
        var p := backed[i];
        if Bak(p) in files {
          files := files[p := files[Bak(p)]];
        }
        files := files - {Bak(p)};
      }
      ghost var restored := files;
      for k := 0 to |written|
        invariant files == DeleteAll(restored, written[..k])
      {
        assert written[..k + 1][k] == written[k];
        files := files - {written[k]};
      }
      assert written[..|written|] == written;
    }

    method CleanupBaks(backed: seq<string>)
      modifies this
      ensures files == DropBackups(old(files), backed)
    {
      for k := 0 to |backed|
        invariant files == DropBackups(old(files), backed[..k])
      {
        assert backed[..k + 1][k] == backed[k];
        files := files - {Bak(backed[k])};
      }
      assert backed[..|backed|] == backed;
    }

    /** One action of the plan: backup, body, bookkeeping; an error rolls back at once. */
    method Try(a: Attempt, backed: seq<string>, written: seq<string>)
      returns (ok: bool, backed': seq<string>, written': seq<string>)
      modifies this
      ensures ok == Succeeds(old(files), a)
      ensures ok ==> files == Done(old(files), a)
      ensures ok ==> backed' == backed + Backs(old(files), a) && written' == written + Creates(a)
      ensures !ok ==> files == FailedAt(old(files), a, backed, written)
    {
      ok, backed', written' := false, backed, written;
      if IsEdit(a.kind) && a.path in files {
        if a.backup.NotSaved? {
          if a.backup.partial.Some? {
            files := files[Bak(a.path) := a.backup.partial.value];
          }
          RollBack(backed, written);
          return;
        }
        files := files[Bak(a.path) := files[a.path]];
        backed' := backed + [a.path];
      }
      if a.result.Error? || a.kind.Unknown? {
        RollBack(backed', written);
        return;
      }
      ok := true;
      if a.result.Wrote? {
        files := files[a.path := a.result.content];
      }
      if a.kind.WriteFile? {
        written' := written + [a.path];
      }
    }

    /** Runs the plan up to its first failing action, attempt `n`. */
    method Run(acts: seq<Attempt>) returns (ok: bool, n: nat)
      modifies this
      ensures n <= |acts| && (ok <==> n == |acts|)
      ensures AllSucceed(old(files), acts[..n])
      ensures ok ==> files == DropBackups(Progress(old(files), acts), Backed(old(files), acts))
      ensures !ok ==> !Succeeds(Progress(old(files), acts[..n]), acts[n])
      ensures !ok ==> files == Failure(old(files), acts, n)
    {
      var backed, written := [], [];
      n := 0;
      ok := true;
      while n < |acts|
        invariant n <= |acts| && ok
        invariant files == Progress(old(files), acts[..n])
        invariant backed == Backed(old(files), acts[..n]) && written == NewFiles(acts[..n])
        invariant AllSucceed(old(files), acts[..n])
      {
        assert acts[..n + 1][..n] == acts[..n] && acts[..n + 1][n] == acts[n];
        ok, backed, written := Try(acts[n], backed, written);
        if !ok {
          return;
        }
        n := n + 1;
      }
      assert acts[..|acts|] == acts;
      CleanupBaks(backed);
    }

    /** Normalises the configuration file, then runs the plan. `norm` is the normalised content,
        None if normalising fails. */
    method Apply(fractaYaml: string, norm: Option<string>, acts: seq<Attempt>) returns (ok: bool, n: nat)
      modifies this
      ensures n <= |acts|
      ensures Normalized(old(files), fractaYaml, norm, acts).None? ==> !ok && files == old(files)
      ensures Normalized(old(files), fractaYaml, norm, acts) ==
              if fractaYaml in old(files) && exists i :: 0 <= i < |acts| && acts[i].kind.FractaYaml?
              then (if norm.Some? then Some(old(files)[fractaYaml := norm.value]) else None) else Some(old(files))
      ensures Normalized(old(files), fractaYaml, norm, acts).Some? ==>
                var base := Normalized(old(files), fractaYaml, norm, acts).value;
                AllSucceed(base, acts[..n]) && (ok <==> n == |acts|)
                && (if ok then files == DropBackups(Progress(base, acts), Backed(base, acts))
                    else !Succeeds(Progress(base, acts[..n]), acts[n]) && files == Failure(base, acts, n))
    {
      var edits := AnyFractaYaml(acts);
      if edits && fractaYaml in files {
        if norm.None? {
          ok, n := false, 0;
          return;
        }
        files := files[fractaYaml := norm.value];
      }
      ok, n := Run(acts);
    }
  }

  method AnyFractaYaml(acts: seq<Attempt>) returns (b: bool)
    ensures b <==> exists i :: 0 <= i < |acts| && acts[i].kind.FractaYaml?
  {
    for k := 0 to |acts|
      invariant forall i :: 0 <= i < k ==> !acts[i].kind.FractaYaml?
    {
      if acts[k].kind.FractaYaml? {
        return true;
      }
    }
    b := false;
  }

  /** The files the plan starts from; None when normalising fails. */
  function Normalized(f: Files, fractaYaml: string, norm: Option<string>, acts: seq<Attempt>): Option<Files> {
    if fractaYaml !in f || forall i :: 0 <= i < |acts| ==> !acts[i].kind.FractaYaml? then Some(f)
    else if norm.None? then None
    else Some(f[fractaYaml := norm.value])
  }

  /** Without force, a plan is refused when a file it would create exists. */
  method NewFilesAbsent(f: Files, acts: seq<Attempt>, force: bool) returns (ok: bool)
    ensures ok <==> force || forall i :: 0 <= i < |acts| && acts[i].kind.WriteFile? ==> acts[i].path !in f
  {
    ok := true;
    if !force {
      for k := 0 to |acts|
        invariant forall i :: 0 <= i < k && acts[i].kind.WriteFile? ==> acts[i].path !in f
      {
        if acts[k].kind.WriteFile? && acts[k].path in f {
          return false;
        }
      }
    }
  }

  // --- What the rollback restores ---

  /** Distinct targets, none of which is the backup of another. */
  ghost predicate DistinctPlan(acts: seq<Attempt>) {
    && (forall i, j :: 0 <= i < j < |acts| ==> acts[i].path != acts[j].path)
    && (forall i, j :: 0 <= i < |acts| && 0 <= j < |acts| ==> acts[i].path != Bak(acts[j].path))
  }

  /** A path that no attempt of the plan reads, writes or backs up. */
  ghost predicate Unrelated(acts: seq<Attempt>, p: string) {
    forall i :: 0 <= i < |acts| ==> acts[i].path != p && Bak(acts[i].path) != p
  }

  lemma LastUnrelated(acts: seq<Attempt>)
    requires DistinctPlan(acts) && acts != []
    ensures DistinctPlan(acts[..|acts| - 1])
    ensures Unrelated(acts[..|acts| - 1], acts[|acts| - 1].path)
    ensures Unrelated(acts[..|acts| - 1], Bak(acts[|acts| - 1].path))
  {
    var front, p := acts[..|acts| - 1], acts[|acts| - 1].path;
    forall i | 0 <= i < |front| ensures front[i].path != p && Bak(front[i].path) != Bak(p) {
      if Bak(front[i].path) == Bak(p) {
        BakInjective(front[i].path, p);
      }
    }
  }

  lemma {:induction false} ProgressFrame(f: Files, acts: seq<Attempt>, p: string)
    requires Unrelated(acts, p)
    ensures p in Progress(f, acts) <==> p in f
    ensures p in f ==> Progress(f, acts)[p] == f[p]
  {
    if acts != [] {
      ProgressFrame(f, acts[..|acts| - 1], p);
    }
  }

  ghost predicate Away(ps: seq<string>, p: string) {
    forall i :: 0 <= i < |ps| ==> ps[i] != p && Bak(ps[i]) != p
  }

  lemma {:induction false} BackedAway(f: Files, acts: seq<Attempt>, p: string)
    requires Unrelated(acts, p)
    ensures Away(Backed(f, acts), p) && p !in NewFiles(acts)
  {
    if acts != [] {
      BackedAway(f, acts[..|acts| - 1], p);
    }
  }

  /** Restoring commutes with writing and with removing an unrelated file. */
  lemma {:induction false} RestoreFrame(f: Files, ps: seq<string>, p: string, c: string)
    requires Away(ps, p)
    ensures RestoreAll(f[p := c], ps) == RestoreAll(f, ps)[p := c]
    ensures RestoreAll(f - {p}, ps) == RestoreAll(f, ps) - {p}
    decreases |ps|
  {
    if ps != [] {
      var q := ps[|ps| - 1];
      assert RestoreOne(f[p := c], q) == RestoreOne(f, q)[p := c];
      assert RestoreOne(f - {p}, q) == RestoreOne(f, q) - {p};
      RestoreFrame(RestoreOne(f, q), ps[..|ps| - 1], p, c);
    }
  }

  /** Rolling back commutes in the same way. */
  lemma RollbackFrame(f: Files, base: Files, acts: seq<Attempt>, p: string, c: string)
    requires Unrelated(acts, p)
    ensures Rollback(f[p := c], Backed(base, acts), NewFiles(acts)) ==
            Rollback(f, Backed(base, acts), NewFiles(acts))[p := c]
    ensures Rollback(f - {p}, Backed(base, acts), NewFiles(acts)) ==
            Rollback(f, Backed(base, acts), NewFiles(acts)) - {p}
  {
    BackedAway(base, acts, p);
    RestoreFrame(f, Backed(base, acts), p, c);
  }

  /** What one undone action leaves: a backup file that was there before is gone, an edit that
      created its file is left in place, and a file written as new is gone. */
  function RemainsOne(g: Files, f: Files, a: Attempt): Files {
    if a.kind.WriteFile? then g - {a.path}
    else if a.path in f then g - {Bak(a.path)}
    else if a.result.Wrote? then g[a.path := a.result.content]
    else g
  }

  function Remains(f: Files, acts: seq<Attempt>): Files {
    if acts == [] then f else RemainsOne(Remains(f, acts[..|acts| - 1]), f, acts[|acts| - 1])
  }

  /** Taking a backup and restoring it at once only loses an earlier backup file. */
  lemma RestoreUndoes(g: Files, p: string, c: string)
    requires p in g
    ensures RestoreOne(g[Bak(p) := g[p]], p) == g - {Bak(p)}
    ensures RestoreOne(g[Bak(p) := g[p]][p := c], p) == g - {Bak(p)}
  {
    assert |Bak(p)| != |p|;
    assert RestoreOne(g[Bak(p) := g[p]], p) == g - {Bak(p)};
    assert RestoreOne(g[Bak(p) := g[p]][p := c], p) == g - {Bak(p)};
  }

  lemma DeleteOneMore(f: Files, ps: seq<string>, p: string)
    ensures DeleteAll(f, ps + [p]) == DeleteAll(f, ps) - {p}
  {
    assert (set i | 0 <= i < |ps + [p]| :: (ps + [p])[i]) == (set i | 0 <= i < |ps| :: ps[i]) + {p} by {
      assert (ps + [p])[|ps|] == p;
      assert forall i :: 0 <= i < |ps| ==> (ps + [p])[i] == ps[i];
    }
  }

  lemma UndoLast(f: Files, ps: seq<string>, p: string, ws: seq<string>)
    ensures Rollback(f, ps + [p], ws) == Rollback(RestoreOne(f, p), ps, ws)
  {
    assert (ps + [p])[..|ps|] == ps;
  }

  lemma UndoCreated(g: Files, f: Files, front: seq<Attempt>, a: Attempt)
    requires Unrelated(front, a.path) && a.kind.WriteFile?
    ensures Rollback(Done(g, a), Backed(f, front), NewFiles(front) + [a.path])
            == Rollback(g, Backed(f, front), NewFiles(front)) - {a.path}
  {
    var ps, ws := Backed(f, front), NewFiles(front);
    var c := if a.result.Wrote? then a.result.content else "";
    DeleteOneMore(RestoreAll(Done(g, a), ps), ws, a.path);
    RollbackFrame(g, f, front, a.path, c);
    assert Rollback(g, ps, ws)[a.path := c] - {a.path} == Rollback(g, ps, ws) - {a.path};
  }

  lemma UndoEdited(g: Files, f: Files, front: seq<Attempt>, a: Attempt)
    requires Unrelated(front, Bak(a.path)) && TakesBackup(g, a)
    ensures Rollback(Done(g, a), Backed(f, front) + [a.path], NewFiles(front))
            == Rollback(g, Backed(f, front), NewFiles(front)) - {Bak(a.path)}
  {
    var c := if a.result.Wrote? then a.result.content else "";
    RestoreUndoes(g, a.path, c);
    RollbackFrame(g, f, front, Bak(a.path), c);
    UndoLast(Done(g, a), Backed(f, front), a.path, NewFiles(front));
  }

  /** Rolling back a successful run undoes it action by action. */
  lemma {:induction false} RollbackUndoes(f: Files, acts: seq<Attempt>)
    requires DistinctPlan(acts) && AllSucceed(f, acts)
    ensures Rollback(Progress(f, acts), Backed(f, acts), NewFiles(acts)) == Remains(f, acts)
  {
    if acts != [] {
      var front, a := acts[..|acts| - 1], acts[|acts| - 1];
      var g := Progress(f, front);
      LastUnrelated(acts);
      RollbackUndoes(f, front);
      ProgressFrame(f, front, a.path);
      if a.kind.WriteFile? {
        UndoCreated(g, f, front, a);
        assert Backed(f, acts) == Backed(f, front);
      } else if a.path in f {
        UndoEdited(g, f, front, a);
        assert NewFiles(acts) == NewFiles(front);
      } else {
        assert Backed(f, acts) == Backed(f, front) && NewFiles(acts) == NewFiles(front);
        RollbackFrame(g, f, front, a.path, if a.result.Wrote? then a.result.content else "");
      }
    }
  }

  // --- All or nothing, exactly when ---

  /** The file an action edits was there, with no backup file beside it; a file it creates was not. */
  predicate Undoable(f: Files, a: Attempt) {
    if a.kind.WriteFile? then a.path !in f
    else if a.path in f then Bak(a.path) !in f
    else !a.result.Wrote?
  }

  lemma {:induction false} RemainsFrame(f: Files, acts: seq<Attempt>, p: string)
    requires Unrelated(acts, p)
    ensures p in Remains(f, acts) <==> p in f
    ensures p in f ==> Remains(f, acts)[p] == f[p]
  {
    if acts != [] {
      RemainsFrame(f, acts[..|acts| - 1], p);
    }
  }

  /** The rollback leaves nothing changed iff every action that ran was undoable. */
  lemma {:induction false} RemainsNothing(f: Files, acts: seq<Attempt>)
    requires DistinctPlan(acts)
    ensures Remains(f, acts) == f <==> forall i :: 0 <= i < |acts| ==> Undoable(f, acts[i])
  {
    if acts != [] {
      var front, a := acts[..|acts| - 1], acts[|acts| - 1];
      LastUnrelated(acts);
      RemainsNothing(f, front);
      RemainsFrame(f, front, a.path);
      RemainsFrame(f, front, Bak(a.path));
      OneRemains(Remains(f, front), f, a);
      assert forall i :: 0 <= i < |front| ==> acts[i] == front[i];
    }
  }

  ghost predicate Same(g: Files, f: Files, p: string) {
    (p in g <==> p in f) && (p in f ==> g[p] == f[p])
  }

  lemma OneRemains(g: Files, f: Files, a: Attempt)
    requires Same(g, f, a.path) && Same(g, f, Bak(a.path))
    ensures RemainsOne(g, f, a) == f <==> g == f && Undoable(f, a)
  {
    var r := RemainsOne(g, f, a);
    assert forall p :: p != a.path && p != Bak(a.path) ==> Same(r, g, p);
    if r == f {
      assert forall p :: Same(g, f, p);
      assert g == f by {
        assert forall p :: p in g <==> Same(g, f, p) && p in f;
      }
    }
  }

  /** A failed backup write that leaves something other than the file that was there. */
  predicate LeavesPartial(f: Files, a: Attempt) {
    && BackupFails(f, a) && a.backup.partial.Some?
    && (Bak(a.path) in f ==> f[Bak(a.path)] != a.backup.partial.value)
  }

  /** Whatever the failing action: apply leaves the files as they were iff every action before it was
      undoable and the failing action neither lost nor left a backup file. */
  lemma FailureRestores(f: Files, acts: seq<Attempt>, n: nat)
    requires n < |acts| && DistinctPlan(acts[..n + 1])
    requires AllSucceed(f, acts[..n]) && !Succeeds(Progress(f, acts[..n]), acts[n])
    ensures Failure(f, acts, n) == f <==>
            (forall i :: 0 <= i < n ==> Undoable(f, acts[i]))
            && !LeavesPartial(f, acts[n])
            && (TakesBackup(f, acts[n]) && acts[n].backup.Saved? ==> Bak(acts[n].path) !in f)
  {
    var front, a := acts[..n], acts[n];
    var g := Progress(f, front);
    assert acts[..n + 1][..n] == front;
    LastUnrelated(acts[..n + 1]);
    RollbackUndoes(f, front);
    RemainsNothing(f, front);
    ProgressFrame(f, front, a.path);
    RemainsFrame(f, front, Bak(a.path));
    FailureIs(f, acts, n);
    assert forall i :: 0 <= i < n ==> acts[i] == front[i];
    var left := if a.backup.NotSaved? && a.backup.partial.Some? then a.backup.partial.value else "";
    WithoutBackup(Remains(f, front), f, Bak(a.path), left);
  }

  lemma WithoutBackup(g: Files, f: Files, p: string, c: string)
    requires Same(g, f, p)
    ensures g - {p} == f <==> g == f && p !in f
    ensures g[p := c] == f <==> g == f && p in f && f[p] == c
  {
    if g - {p} == f {
      assert p !in f;
      assert g == g - {p};
    }
    if g[p := c] == f {
      assert f[p] == c;
      assert g == g[p := c];
    }
  }

  lemma FailureIs(f: Files, acts: seq<Attempt>, n: nat)
    requires n < |acts| && DistinctPlan(acts[..n + 1]) && AllSucceed(f, acts[..n])
    ensures var a, r := acts[n], Remains(f, acts[..n]);
            Failure(f, acts, n) ==
            if BackupFails(f, a) then (if a.backup.partial.Some? then r[Bak(a.path) := a.backup.partial.value] else r)
            else if TakesBackup(f, a) then r - {Bak(a.path)}
            else r
  {
    var front, a := acts[..n], acts[n];
    var g := Progress(f, front);
    assert acts[..n + 1][..n] == front;
    LastUnrelated(acts[..n + 1]);
    RollbackUndoes(f, front);
    ProgressFrame(f, front, a.path);
    if BackupFails(f, a) {
      RollbackFrame(g, f, front, Bak(a.path), if a.backup.partial.Some? then a.backup.partial.value else "");
    } else if TakesBackup(f, a) {
      RestoreUndoes(g, a.path, "");
      UndoLast(g[Bak(a.path) := g[a.path]], Backed(f, front), a.path, NewFiles(front));
      RollbackFrame(g, f, front, Bak(a.path), "");
    }
  }

  /** The promise as the plan makes it: existing edit targets, absent new files, no backup files
      around, and backup writes that leave nothing behind when they fail. */
  lemma AllOrNothing(f: Files, acts: seq<Attempt>, n: nat)
    requires n < |acts| && DistinctPlan(acts)
    requires forall i :: 0 <= i < |acts| ==> Bak(acts[i].path) !in f
    requires forall i :: 0 <= i < |acts| && IsEdit(acts[i].kind) ==> acts[i].path in f
    requires forall i :: 0 <= i < |acts| && acts[i].kind.WriteFile? ==> acts[i].path !in f
    requires acts[n].backup.NotSaved? ==> acts[n].backup.partial.None?
    requires AllSucceed(f, acts[..n]) && !Succeeds(Progress(f, acts[..n]), acts[n])
    ensures Failure(f, acts, n) == f
  {
    SuccessEach(f, acts[..n]);
    assert forall i :: 0 <= i < n ==> acts[..n][i] == acts[i];
    FailureRestores(f, acts, n);
  }

  lemma {:induction false} SuccessEach(f: Files, acts: seq<Attempt>)
    requires AllSucceed(f, acts)
    ensures forall i :: 0 <= i < |acts| ==> !ActionFails(acts[i])
  {
    if acts != [] {
      SuccessEach(f, acts[..|acts| - 1]);
    }
  }

  // --- Success ---

  function Writes(f: Files, acts: seq<Attempt>): Files {
    if acts == [] then f
    else
      var g, a := Writes(f, acts[..|acts| - 1]), acts[|acts| - 1];
      if a.result.Wrote? then g[a.path := a.result.content] else g
  }

  /** After a successful plan the files are the old ones with every target written, less the backup
      files of the edited targets. */
  lemma {:induction false} SuccessIs(f: Files, acts: seq<Attempt>)
    requires DistinctPlan(acts) && AllSucceed(f, acts)
    ensures DropBackups(Progress(f, acts), Backed(f, acts)) == DropBackups(Writes(f, acts), Backed(f, acts))
  {
    if acts != [] {
      var front, a := acts[..|acts| - 1], acts[|acts| - 1];
      LastUnrelated(acts);
      SuccessIs(f, front);
      DropOneMore(Progress(f, front), Writes(f, front), Backed(f, front), a);
    }
  }

  lemma OneMoreBackup(ps: seq<string>, p: string)
    ensures BackupsOf(ps + [p]) == BackupsOf(ps) + {Bak(p)}
  {
    assert (ps + [p])[|ps|] == p && forall i :: 0 <= i < |ps| ==> (ps + [p])[i] == ps[i];
  }

  /** Maps that agree outside some keys still do after the same write and with more keys left out. */
  lemma AgreeOutside(g: Files, w: Files, drop: set<string>, p: string, c: string)
    requires g - drop == w - drop
    ensures g[p := c] - drop == w[p := c] - drop && (g - (drop + {p})) == (w - (drop + {p}))
  {
    assert forall q :: q in g && q !in drop <==> q in g - drop;
    assert forall q :: q in w && q !in drop <==> q in w - drop;
  }

  lemma DropOneMore(g: Files, w: Files, ps: seq<string>, a: Attempt)
    requires DropBackups(g, ps) == DropBackups(w, ps)
    ensures var w' := if a.result.Wrote? then w[a.path := a.result.content] else w;
            DropBackups(Done(g, a), ps + Backs(g, a)) == DropBackups(w', ps + Backs(g, a))
  {
    var drop := BackupsOf(ps);
    var g1 := if TakesBackup(g, a) then g[Bak(a.path) := g[a.path]] else g;
    var drop1 := if TakesBackup(g, a) then drop + {Bak(a.path)} else drop;
    if TakesBackup(g, a) {
      OneMoreBackup(ps, a.path);
      AgreeOutside(g, w, drop, Bak(a.path), "");
      assert g1 - drop1 == g - drop1;
    } else {
      assert ps + Backs(g, a) == ps;
    }
    AgreeOutside(g1, w, drop1, a.path, if a.result.Wrote? then a.result.content else "");
  }

  lemma {:induction false} WritesAt(f: Files, acts: seq<Attempt>, p: string)
    requires forall i, j :: 0 <= i < j < |acts| ==> acts[i].path != acts[j].path
    ensures (forall i :: 0 <= i < |acts| && acts[i].path == p ==> !acts[i].result.Wrote?) ==>
              Same(Writes(f, acts), f, p)
    ensures forall i :: 0 <= i < |acts| && acts[i].path == p && acts[i].result.Wrote? ==>
              p in Writes(f, acts) && Writes(f, acts)[p] == acts[i].result.content
  {
    if acts != [] {
      var front := acts[..|acts| - 1];
      WritesAt(f, front, p);
      assert forall i :: 0 <= i < |front| ==> front[i] == acts[i];
    }
  }

  lemma {:induction false} BackedAre(f: Files, acts: seq<Attempt>, p: string)
    requires DistinctPlan(acts)
    ensures p in Backed(f, acts) <==> exists i :: 0 <= i < |acts| && acts[i].path == p && TakesBackup(f, acts[i])
  {
    if acts != [] {
      var front, a := acts[..|acts| - 1], acts[|acts| - 1];
      LastUnrelated(acts);
      BackedAre(f, front, p);
      ProgressFrame(f, front, a.path);
      assert forall i :: 0 <= i < |front| ==> front[i] == acts[i];
    }
  }

  /** p is the backup file of a target that was edited. */
  ghost predicate BackupOfEdited(f: Files, acts: seq<Attempt>, p: string) {
    exists i :: 0 <= i < |acts| && Bak(acts[i].path) == p && TakesBackup(f, acts[i])
  }

  lemma DroppedAre(f: Files, acts: seq<Attempt>, g: Files, p: string)
    requires DistinctPlan(acts)
    ensures BackupOfEdited(f, acts, p) ==> p !in DropBackups(g, Backed(f, acts))
    ensures !BackupOfEdited(f, acts, p) ==> Same(DropBackups(g, Backed(f, acts)), g, p)
  {
    var ps := Backed(f, acts);
    if i :| 0 <= i < |acts| && Bak(acts[i].path) == p && TakesBackup(f, acts[i]) {
      BackedAre(f, acts, acts[i].path);
    } else {
      forall k | 0 <= k < |ps| ensures Bak(ps[k]) != p {
        BackedAre(f, acts, ps[k]);
      }
    }
  }

  /** Success, path by path: every target that was written holds its new content, the backup file of
      an edited target is gone, and every other path is as it was. */
  lemma {:induction false} SuccessInstalls(f: Files, acts: seq<Attempt>, p: string)
    requires DistinctPlan(acts) && AllSucceed(f, acts)
    ensures var r := DropBackups(Progress(f, acts), Backed(f, acts));
            && (forall i :: 0 <= i < |acts| && acts[i].path == p && acts[i].result.Wrote? ==>
                  p in r && r[p] == acts[i].result.content)
            && (BackupOfEdited(f, acts, p) ==> p !in r)
            && (!BackupOfEdited(f, acts, p)
                && (forall i :: 0 <= i < |acts| && acts[i].path == p ==> !acts[i].result.Wrote?)
                ==> Same(r, f, p))
  {
    SuccessIs(f, acts);
    WritesAt(f, acts, p);
    DroppedAre(f, acts, Writes(f, acts), p);
  }

  // --- What a failed apply can leave behind ---

  const FAILS := Attempt(WriteFile, "new.yaml", Saved, Error)

  lemma OneThenFails(f: Files, a: Attempt)
    requires a.path != FAILS.path && a.path != Bak(FAILS.path) && FAILS.path != Bak(a.path) && Succeeds(f, a)
    ensures Failure(f, [a, FAILS], 1) == RemainsOne(f, f, a)
  {
    var acts := [a, FAILS];
    assert acts[..1] == [a] && [a][..0] == [] && acts[..2] == acts;
    assert AllSucceed(f, []) && AllSucceed(f, [a]);
    assert |Bak(a.path)| != |a.path| && |Bak(FAILS.path)| != |FAILS.path|;
    FailureIs(f, acts, 1);
    assert Remains(f, [a]) == RemainsOne(Remains(f, []), f, a);
  }

  /** An edit loses the backup file that lay beside its target before. */
  lemma OldBackupLost()
    ensures var f := map["c.yaml" := "old", "c.yaml.bak" := "mine"];
            Failure(f, [Attempt(FractaYaml, "c.yaml", Saved, Wrote("new")), FAILS], 1) == map["c.yaml" := "old"]
  {
    var f := map["c.yaml" := "old", "c.yaml.bak" := "mine"];
    var a := Attempt(FractaYaml, "c.yaml", Saved, Wrote("new"));
    assert Bak("c.yaml") == "c.yaml.bak" && |"c.yaml.bak"| == 10 && |FAILS.path| == 8 && |Bak(FAILS.path)| == 12;
    OneThenFails(f, a);
    assert f - {"c.yaml.bak"} == map["c.yaml" := "old"];
  }

  /** A file that an edit created stays. */
  lemma CreatedFileStays()
    ensures Failure(map[], [Attempt(Compose, "c.yaml", Saved, Wrote("new")), FAILS], 1) == map["c.yaml" := "new"]
  {
    assert |Bak("c.yaml")| == 10 && |FAILS.path| == 8 && |Bak(FAILS.path)| == 12;
    OneThenFails(map[], Attempt(Compose, "c.yaml", Saved, Wrote("new")));
  }

  /** A file that was overwritten under force is deleted. */
  lemma OverwrittenFileLost()
    ensures Failure(map["m.yaml" := "old"], [Attempt(WriteFile, "m.yaml", Saved, Wrote("new")), FAILS], 1) == map[]
  {
    assert |Bak("m.yaml")| == 10 && |FAILS.path| == 8 && |Bak(FAILS.path)| == 12;
    OneThenFails(map["m.yaml" := "old"], Attempt(WriteFile, "m.yaml", Saved, Wrote("new")));
  }
}
