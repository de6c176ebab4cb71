/**
  Migrating two directory trees as one transaction, with a failure injected at any set
  of operations: both trees end migrated, or both as they were, unless a restoring
  operation itself fails, and the error that is raised tells which.
*/
module Migration {

  // What a path holds; `Fragment` is whatever an operation that failed half-way leaves.
  datatype Tree = Absent | Whole(content: string) | Fragment

  datatype Side = Application | Daemon

  datatype Op =
    // for each of the two targets
    | CopyToBackup | CopyToStage | BuildStage | ClearPrevious | SetAside | MoveIn | MoveBack | DropPrevious
    | RemoveTarget | CopyBack
    // once, with either side
    | MakeBackupDir | MakeStageDir | MigrateOrigins

  datatype Fault = Fault(side: Side, op: Op)

  // `Untouched` is an error before any target was replaced, `RolledBack` the error
  // that says so, `RestoreFailed` whatever a restoring operation raised instead.
  datatype Result = Migrated | Untouched | RolledBack | RestoreFailed | MissingBackup

  predicate Restoring(op: Op) { op == RemoveTarget || op == CopyBack }

  class Target {
    const side: Side
    const next: string         // the content that staging builds
    const faults: set<Fault>
    var tree: Tree
    var previous: Tree         // the sibling that `replace_tree` uses
    var stage: Tree
    var saved: Tree            // the copy under the backup directory

    constructor (side: Side, next: string, faults: set<Fault>, tree: Tree, previous: Tree)
      ensures this.side == side && this.next == next && this.faults == faults
      ensures this.tree == tree && this.previous == previous && stage == Absent && saved == Absent
    {
      this.side, this.next, this.faults, this.tree, this.previous := side, next, faults, tree, previous;
      stage, saved := Absent, Absent;
    }

    predicate Fails(op: Op) { Fault(side, op) in faults }

    method SaveBackup() returns (ok: bool)
      requires tree != Absent
      modifies this`saved
      ensures ok <==> !Fails(CopyToBackup)
      ensures ok ==> saved == tree
    {
      ok := !Fails(CopyToBackup);
      saved := if ok then tree else Fragment;
    }

    method StageNext() returns (ok: bool)
      requires stage == Absent
      modifies this`stage
      ensures ok <==> !(tree != Absent && Fails(CopyToStage)) && !Fails(BuildStage)
      ensures ok ==> stage == Whole(next)
    {
      if tree != Absent {
        if Fails(CopyToStage) {
          stage := Fragment;
          return false;
        }
        stage := tree;
      }
      ok := !Fails(BuildStage);
      stage := if ok then Whole(next) else Fragment;
    }

    predicate ReplaceFails(tree: Tree, previous: Tree) {
      || (previous != Absent && Fails(ClearPrevious)) || Fails(MoveIn)
      || (tree != Absent && (Fails(SetAside) || Fails(DropPrevious)))
    }

    // Whatever fails, the old tree ends at the target or beside it, or the new one
    // is already in place.
    method ReplaceTree() returns (ok: bool)
      requires stage == Whole(next) && tree != Fragment
      modifies this`tree, this`previous, this`stage
      ensures ok ==> tree == Whole(next) && previous == Absent
      ensures ok <==> !ReplaceFails(old(tree), old(previous))
      ensures !ok && tree != Whole(next) ==> tree == old(tree) || (tree == Absent && previous == old(tree))
    {
      if previous != Absent {
        if Fails(ClearPrevious) {
          previous := Fragment;
          return false;
        }
        previous := Absent;
      }
      if tree != Absent {
        if Fails(SetAside) { return false; }
        tree, previous := Absent, tree;
      }
      if Fails(MoveIn) {
        if previous != Absent && !Fails(MoveBack) { tree, previous := previous, Absent; }
        return false;
      }
      tree, stage := stage, Absent;
      if previous != Absent {
        if Fails(DropPrevious) {
          previous := Fragment;
          return false;
        }
        previous := Absent;
      }
      return true;
    }

    // `hasBackup` says whether there is a backup directory at all.
    method RestoreTarget(hasBackup: bool, existed: bool) returns (r: Result)
      modifies this`tree
      ensures existed && !hasBackup && !(old(tree) != Absent && Fails(RemoveTarget)) <==> r == MissingBackup
      ensures r == RolledBack || r == RestoreFailed || r == MissingBackup
      ensures r == RolledBack ==> tree == if existed then saved else Absent
      ensures r == RestoreFailed ==> tree == Fragment && (Fails(RemoveTarget) || Fails(CopyBack))
    {
      if tree != Absent {
        if Fails(RemoveTarget) {
          tree := Fragment;
          return RestoreFailed;
        }
        tree := Absent;
      }
      if existed {
        if !hasBackup { return MissingBackup; }
        if Fails(CopyBack) {
          tree := Fragment;
          return RestoreFailed;
        }
        tree := saved;
      }
      return RolledBack;
    }
  }

  class Transaction {
    const app: Target
    const daemon: Target
    const migrated: string     // what the origin migration makes of the application's tree
    var hasBackup: bool

    ghost predicate Ready()
      reads this, app, daemon
    {
      && app != daemon && app.side == Application && daemon.side == Daemon
      && app.tree != Fragment && daemon.tree != Fragment
      && app.stage == Absent && daemon.stage == Absent && !hasBackup
    }

    constructor (app: Target, daemon: Target, migrated: string)
      ensures this.app == app && this.daemon == daemon && this.migrated == migrated && !hasBackup
    {
      this.app, this.daemon, this.migrated, hasBackup := app, daemon, migrated, false;
    }

    ghost predicate BackedUp(appTree: Tree, daemonTree: Tree)
      reads this, app, daemon
    {
      && (hasBackup <==> appTree != Absent || daemonTree != Absent)
      && (appTree != Absent ==> app.saved == appTree) && (daemonTree != Absent ==> daemon.saved == daemonTree)
    }

    // The conditions under which each phase gets through.
    predicate BackupSucceeds()
      reads app, daemon
    {
      || (app.tree == Absent && daemon.tree == Absent)
      || (!app.Fails(MakeBackupDir) && (app.tree != Absent ==> !app.Fails(CopyToBackup))
          && (daemon.tree != Absent ==> !daemon.Fails(CopyToBackup)))
    }

    predicate StagingSucceeds()
      reads app, daemon
    {
      && !app.Fails(MakeStageDir) && !app.Fails(BuildStage) && !daemon.Fails(BuildStage)
      && (app.tree != Absent ==> !app.Fails(CopyToStage)) && (daemon.tree != Absent ==> !daemon.Fails(CopyToStage))
    }

    predicate ReplacementSucceeds()
      reads app, daemon
    {
      && !app.ReplaceFails(app.tree, app.previous) && !daemon.ReplaceFails(daemon.tree, daemon.previous)
      && !app.Fails(MigrateOrigins)
    }

    method BackUpTargets() returns (ok: bool)
      requires Ready()
      modifies this, app`saved, daemon`saved
      ensures ok ==> BackedUp(app.tree, daemon.tree)
      ensures ok <==> BackupSucceeds()
    {
      if app.tree == Absent && daemon.tree == Absent { return true; }
      if app.Fails(MakeBackupDir) { return false; }
      if app.tree != Absent {
        ok := app.SaveBackup();
        if !ok { return; }
      }
      if daemon.tree != Absent {
        ok := daemon.SaveBackup();
        if !ok { return; }
      }
      hasBackup := true;
      return true;
    }

    method StageBoth() returns (ok: bool)
      requires app != daemon && app.stage == Absent && daemon.stage == Absent
      modifies app`stage, daemon`stage
      ensures ok ==> app.stage == Whole(app.next) && daemon.stage == Whole(daemon.next)
      ensures ok <==> StagingSucceeds()
    {
      if app.Fails(MakeStageDir) { return false; }
      ok := app.StageNext();
      if ok { ok := daemon.StageNext(); }
    }

    method ReplaceBoth() returns (ok: bool)
      requires app != daemon && app.stage == Whole(app.next) && daemon.stage == Whole(daemon.next)
      requires app.tree != Fragment && daemon.tree != Fragment
      modifies app`tree, app`previous, app`stage, daemon`tree, daemon`previous, daemon`stage
      ensures ok ==> app.tree == Whole(migrated) && daemon.tree == Whole(daemon.next)
      ensures ok <==> old(ReplacementSucceeds())
    {
      ok := app.ReplaceTree();
      if !ok { return; }
      ok := daemon.ReplaceTree();
      if !ok { return; }
      ok := !app.Fails(MigrateOrigins);
      app.tree := if ok then Whole(migrated) else Fragment;
    }

    // Both restores run one after the other; the second is skipped when the first raises.
    method RollBack(appExisted: bool, daemonExisted: bool) returns (r: Result)
      requires app != daemon
      modifies app`tree, daemon`tree
      ensures (appExisted || daemonExisted ==> hasBackup) ==> r == RolledBack || r == RestoreFailed
      ensures r == RolledBack ==> app.tree == (if appExisted then app.saved else Absent)
                                  && daemon.tree == (if daemonExisted then daemon.saved else Absent)
      ensures r == RestoreFailed ==> app.tree == Fragment || daemon.tree == Fragment
      ensures r == RestoreFailed ==> exists t, op :: t in {app, daemon} && Restoring(op) && t.Fails(op)
    {
      r := app.RestoreTarget(hasBackup, appExisted);
      if r == RolledBack { r := daemon.RestoreTarget(hasBackup, daemonExisted); }
    }

    // All or nothing, unless a restoring operation fails too: then the error is not
    // the one that says so, and the backup still holds what there was. The missing
    // backup that the rollback checks for cannot happen.
    method ApplyMigration() returns (r: Result)
      requires Ready()
      modifies this, app, daemon
      ensures r == Migrated ==> app.tree == Whole(migrated) && daemon.tree == Whole(daemon.next)
      ensures r == Untouched || r == RolledBack ==> app.tree == old(app.tree) && daemon.tree == old(daemon.tree)
      ensures r == RestoreFailed <==> app.tree == Fragment || daemon.tree == Fragment
      ensures r == RestoreFailed ==> exists t, op :: t in {app, daemon} && Restoring(op) && t.Fails(op)
      ensures r != Untouched ==> BackedUp(old(app.tree), old(daemon.tree))
      ensures r != MissingBackup
      ensures r == Untouched <==> !old(BackupSucceeds() && StagingSucceeds())
      ensures r == Migrated <==> old(BackupSucceeds() && StagingSucceeds() && ReplacementSucceeds())
    {
      var appExisted, daemonExisted := app.tree != Absent, daemon.tree != Absent;
      var ok := BackUpTargets();
      if !ok { return Untouched; }
      ok := StageBoth();
      if ok {
        ok := ReplaceBoth();
        r := Migrated;
        if !ok { r := RollBack(appExisted, daemonExisted); }
      } else {
        r := Untouched;
      }
      app.stage, daemon.stage := Absent, Absent;
    }
  }
}
