/**
  Installing a new app over an old one by swapping directories, with a failure
  injected at any set of operations: nothing the user had is ever lost.
*/
module Installer {
  import opened Options

  // What a path holds. `Prior` is the backup an earlier run left, `Older` the one before it; `Fragment` is a tree
  // that was only partly written or partly deleted.
  datatype App = Absent | Old | New | Prior | Older | Fragment

  // The operations that can fail, in the order the code reaches them.
  datatype Op =
    | VerifyHost | FindSource | VerifySource | MakeTemp
    | Stage | VerifyStaged | Sign | VerifySignature | ClearQuarantine | Swap
    | VerifyInstalled | VerifyInstalledSignature
    | MakeBackupDir | RemoveStale | SetBackupAside | MoveToBackup
    | MoveIn | VerifyMovedIn
    | MakeMarkerDir | WriteMarker | Notify | RemoveMarker
    // undoing and tidying up
    | SwapBackAfterCheck | SwapBackAfterBackup | DropStale | RemoveMovedIn | CleanUp

  datatype Disk = Disk(destination: App, staged: App, backup: App, stale: App, swapped: bool)

  datatype Result = Installed | NoChange | Failed(at: Op)

  // -------------------------------------------------------- what should happen

  predicate BeforeSwap(op: Op) {
    op in {VerifyHost, FindSource, VerifySource, MakeTemp, Stage, VerifyStaged, Sign, VerifySignature,
           ClearQuarantine, Swap, MoveIn}
  }

  predicate Checking(op: Op) { op == VerifyInstalled || op == VerifyInstalledSignature }

  predicate BackingUp(op: Op) { op in {MakeBackupDir, RemoveStale, SetBackupAside, MoveToBackup} }

  predicate Marking(op: Op) { op in {MakeMarkerDir, WriteMarker, Notify, RemoveMarker} }

  // The operations of a run without failures.
  function Plan(d: Disk, running: bool): seq<Op> {
    [VerifyHost, FindSource, VerifySource, MakeTemp] + [Stage, VerifyStaged, Sign, VerifySignature, ClearQuarantine]
    + (if d.destination == Absent then [MoveIn, VerifyMovedIn] else ReplacePlan(d))
    + (if running then [MakeMarkerDir, WriteMarker, Notify] else [MakeMarkerDir, RemoveMarker])
  }

  function ReplacePlan(d: Disk): seq<Op> {
    [Swap, VerifyInstalled, VerifyInstalledSignature, MakeBackupDir] + (if d.stale == Absent then [] else [RemoveStale])
    + (if d.backup == Absent then [] else [SetBackupAside]) + [MoveToBackup]
  }

  function FirstFault(plan: seq<Op>, faults: set<Op>): Option<Op> {
    if plan == [] then None else if plan[0] in faults then Some(plan[0]) else FirstFault(plan[1..], faults)
  }

  function Then(a: Option<Op>, b: Option<Op>): Option<Op> { if a.Some? then a else b }

  function Of(op: Op, faults: set<Op>): Option<Op> { if op in faults then Some(op) else None }

  function StageFault(faults: set<Op>): Option<Op> {
    Then(Of(Stage, faults), Then(Of(VerifyStaged, faults),
         Then(Of(Sign, faults), Then(Of(VerifySignature, faults), Of(ClearQuarantine, faults)))))
  }

  function BackupFault(d: Disk, faults: set<Op>): Option<Op> {
    Then(Of(MakeBackupDir, faults), Then(if d.stale == Absent then None else Of(RemoveStale, faults),
         Then(if d.backup == Absent then None else Of(SetBackupAside, faults), Of(MoveToBackup, faults))))
  }

  function ReplaceFault(d: Disk, faults: set<Op>): Option<Op> {
    Then(Of(Swap, faults), Then(Of(VerifyInstalled, faults),
         Then(Of(VerifyInstalledSignature, faults), BackupFault(d, faults))))
  }

  function MarkFault(running: bool, faults: set<Op>): Option<Op> {
    Then(Of(MakeMarkerDir, faults),
         if running then Then(Of(WriteMarker, faults), Of(Notify, faults)) else Of(RemoveMarker, faults))
  }

  function PrepareFault(faults: set<Op>): Option<Op> {
    Then(Of(VerifyHost, faults), Then(Of(FindSource, faults), Then(Of(VerifySource, faults), Of(MakeTemp, faults))))
  }

  function SwapFault(d: Disk, faults: set<Op>): Option<Op> {
    if d.destination == Absent then Then(Of(MoveIn, faults), Of(VerifyMovedIn, faults)) else ReplaceFault(d, faults)
  }

  lemma {:induction false} FirstFaultAppend(a: seq<Op>, b: seq<Op>, faults: set<Op>)
    ensures FirstFault(a + b, faults) == Then(FirstFault(a, faults), FirstFault(b, faults))
  {
    if a == [] {
      assert a + b == b;
    } else {
      assert (a + b)[1..] == a[1..] + b;
      FirstFaultAppend(a[1..], b, faults);
    }
  }

  lemma TwoFaults(a: Op, b: Op, faults: set<Op>)
    ensures FirstFault([a], faults) == Of(a, faults) && FirstFault([a, b], faults) == Then(Of(a, faults), Of(b, faults))
  {
    assert [a][1..] == [] && [a, b][1..] == [b] && [b][1..] == [];
  }

  lemma ThreeFaults(a: Op, b: Op, c: Op, faults: set<Op>)
    ensures FirstFault([a, b, c], faults) == Then(Of(a, faults), Then(Of(b, faults), Of(c, faults)))
  {
    assert [a, b, c][1..] == [b, c];
    TwoFaults(b, c, faults);
  }

  lemma FourFaults(a: Op, b: Op, c: Op, d: Op, faults: set<Op>)
    ensures FirstFault([a, b, c, d], faults) ==
            Then(Of(a, faults), Then(Of(b, faults), Then(Of(c, faults), Of(d, faults))))
  {
    assert [a, b, c, d][1..] == [b, c, d];
    ThreeFaults(b, c, d, faults);
  }

  lemma ReplaceFaults(d: Disk, faults: set<Op>)
    ensures FirstFault(ReplacePlan(d), faults) == ReplaceFault(d, faults)
  {
    var first := [Swap, VerifyInstalled, VerifyInstalledSignature, MakeBackupDir];
    var stale := if d.stale == Absent then [] else [RemoveStale];
    var backup := if d.backup == Absent then [] else [SetBackupAside];
    FourFaults(Swap, VerifyInstalled, VerifyInstalledSignature, MakeBackupDir, faults);
    TwoFaults(RemoveStale, RemoveStale, faults);
    TwoFaults(SetBackupAside, SetBackupAside, faults);
    TwoFaults(MoveToBackup, MoveToBackup, faults);
    FirstFaultAppend(first + stale + backup, [MoveToBackup], faults);
    FirstFaultAppend(first + stale, backup, faults);
    FirstFaultAppend(first, stale, faults);
  }

  lemma StageFaults(faults: set<Op>)
    ensures FirstFault([Stage, VerifyStaged, Sign, VerifySignature, ClearQuarantine], faults) == StageFault(faults)
  {
    FourFaults(VerifyStaged, Sign, VerifySignature, ClearQuarantine, faults);
    assert [Stage, VerifyStaged, Sign, VerifySignature, ClearQuarantine][1..] ==
      [VerifyStaged, Sign, VerifySignature, ClearQuarantine];
  }

  // The nested conditions of the code find the first failing operation of the plan.
  lemma PlanFaults(d: Disk, running: bool, faults: set<Op>)
    ensures FirstFault(Plan(d, running), faults) ==
              Then(PrepareFault(faults), Then(StageFault(faults),
                   Then(SwapFault(d, faults), MarkFault(running, faults))))
  {
    var prepare := [VerifyHost, FindSource, VerifySource, MakeTemp];
    var stage := [Stage, VerifyStaged, Sign, VerifySignature, ClearQuarantine];
    var swap := if d.destination == Absent then [MoveIn, VerifyMovedIn] else ReplacePlan(d);
    var mark := if running then [MakeMarkerDir, WriteMarker, Notify] else [MakeMarkerDir, RemoveMarker];
    FirstFaultAppend(prepare + stage + swap, mark, faults);
    FirstFaultAppend(prepare + stage, swap, faults);
    FirstFaultAppend(prepare, stage, faults);
    FourFaults(VerifyHost, FindSource, VerifySource, MakeTemp, faults);
    StageFaults(faults);
    TwoFaults(MoveIn, VerifyMovedIn, faults);
    ReplaceFaults(d, faults);
    ThreeFaults(MakeMarkerDir, WriteMarker, Notify, faults);
    TwoFaults(MakeMarkerDir, RemoveMarker, faults);
  }

  // At every moment the old app is somewhere, the destination holds a whole app, and
  // `swapped` says exactly when the staging directory holds the old one.
  predicate Safe(d: Disk) {
    && (d.destination == Old || d.destination == New)
    && (d.destination == Old || d.staged == Old || d.backup == Old)
    && (d.staged == Old <==> d.swapped)
  }

  // What is left of the backup that was set aside.
  function Remains(was: Disk, faults: set<Op>): App {
    if was.backup == Prior && DropStale in faults then Fragment else Absent
  }

  // How far the making of room got before `op`.
  ghost predicate RoomMade(was: Disk, d: Disk, op: Op) {
    && d.backup == (if op == MoveToBackup then Absent else was.backup)
    && d.stale == match op
         case MakeBackupDir => was.stale
         case RemoveStale => Fragment
         case SetBackupAside => Absent
         case _ => was.backup
  }

  // Where everything ends, given the first operation that failed.
  ghost predicate Ends(was: Disk, d: Disk, first: Option<Op>, faults: set<Op>) {
    match first
    case None => d.destination == New && d.backup == Old && d.staged != Old && d.stale == Remains(was, faults)
    case Some(op) =>
      && (BeforeSwap(op) ==> d.destination == Old && d.backup == was.backup && d.stale == was.stale)
      && (Checking(op) ==> d.destination == (if SwapBackAfterCheck in faults then New else Old)
                           && d.backup == was.backup && d.stale == was.stale)
      && (BackingUp(op) ==> d.destination == (if SwapBackAfterBackup in faults then New else Old) && d.backup != Old)
      && (BackingUp(op) && was.backup == Prior ==> d.backup == Prior || d.stale == Prior)
      && (BackingUp(op) ==> RoomMade(was, d, op))
      && (Marking(op) ==> d.destination == New && d.backup == Old && d.stale == Remains(was, faults))
      && (d.staged == Old <==> d.destination == New && d.backup != Old)
  }

  // Where a first installation ends.
  ghost predicate FirstEnds(destination: App, first: Option<Op>, faults: set<Op>) {
    match first
    case None => destination == New
    case Some(op) =>
      destination == if op == VerifyMovedIn then (if RemoveMovedIn in faults then Fragment else Absent)
                     else if Marking(op) then New else Absent
  }

  class Installation {
    const faults: set<Op>
    var destination: App
    var staged: App
    var backup: App
    var stale: App
    var swapped: bool
    ghost var trace: seq<Disk>

    ghost function Now(): Disk reads this { Disk(destination, staged, backup, stale, swapped) }

    ghost predicate AllSafe() reads this {
      Safe(Now()) && forall i | 0 <= i < |trace| :: Safe(trace[i])
    }

    constructor (faults: set<Op>, destination: App, backup: App, stale: App)
      ensures this.faults == faults && Now() == Disk(destination, Absent, backup, stale, false) && trace == []
    {
      this.faults, this.destination, this.staged, this.backup, this.stale := faults, destination, Absent, backup, stale;
      swapped, trace := false, [];
    }

    ghost method Record()
      modifies this`trace
      ensures trace == old(trace) + [Now()]
    {
      trace := trace + [Now()];
    }

    method AtomicSwap(op: Op) returns (ok: bool)
      modifies this
      ensures ok <==> op !in faults
      ensures Now() == if ok then old(Disk(staged, destination, backup, stale, !swapped)) else old(Now())
      ensures trace == old(trace) + [Now()]
    {
      ok := op !in faults;
      if ok { destination, staged, swapped := staged, destination, !swapped; }
      Record();
    }

    method RemoveTree(op: Op, app: App) returns (left: App)
      ensures left == if app == Absent then Absent else if op in faults then Fragment else Absent
    {
      left := if app != Absent && op in faults then Fragment else Absent;
    }

    // Copy, sign and check the new app in the staging directory.
    method StageNew() returns (failure: Option<Op>)
      requires destination == Old ==> AllSafe()
      requires staged == Absent
      modifies this`staged, this`trace
      ensures failure == StageFault(faults)
      ensures staged == if failure == Some(Stage) then Fragment else New
      ensures destination == Old ==> AllSafe()
    {
      staged := if Stage in faults then Fragment else New;
      Record();
      if Stage in faults { return Some(Stage); }
      if VerifyStaged in faults { return Some(VerifyStaged); }
      if Sign in faults { return Some(Sign); }
      if VerifySignature in faults { return Some(VerifySignature); }
      if ClearQuarantine in faults { return Some(ClearQuarantine); }
      return None;
    }

    // Make room for the backup: the older one is dropped, an existing one set aside.
    method MakeRoom() returns (failure: Option<Op>)
      requires AllSafe() && swapped && destination == New && (backup == Absent || backup == Prior)
      modifies this`backup, this`stale, this`trace
      ensures AllSafe() && (failure.None? ==> backup == Absent) && backup != Old
      ensures Then(failure, Of(MoveToBackup, faults)) == BackupFault(old(Now()), faults)
      ensures old(backup) == Prior ==> backup == Prior || stale == Prior
      ensures RoomMade(old(Now()), Now(), if failure.Some? then failure.value else MoveToBackup)
    {
      if MakeBackupDir in faults { return Some(MakeBackupDir); }
      if stale != Absent {
        stale := RemoveTree(RemoveStale, stale);
        Record();
        if RemoveStale in faults { return Some(RemoveStale); }
      }
      if backup != Absent {
        if SetBackupAside in faults { return Some(SetBackupAside); }
        backup, stale := Absent, backup;
        Record();
      }
      return None;
    }

    // Move the old app from the staging directory to the backup.
    method BackUpPrevious() returns (failure: Option<Op>)
      requires AllSafe() && swapped && destination == New && (backup == Absent || backup == Prior)
      modifies this
      ensures AllSafe()
      ensures failure == BackupFault(old(Now()), faults)
      ensures failure.None? ==> destination == New && backup == Old && staged == Absent && !swapped
      ensures failure.Some? ==> destination == (if SwapBackAfterBackup in faults then New else Old) && backup != Old
      ensures failure.Some? ==> staged == (if SwapBackAfterBackup in faults then Old else New)
      ensures failure.Some? && old(backup) == Prior ==> backup == Prior || stale == Prior
      ensures failure.Some? ==> RoomMade(old(Now()), Now(), failure.value)
      ensures failure.None? ==> stale == Remains(old(Now()), faults)
    {
      failure := MakeRoom();
      if failure.None? && MoveToBackup in faults { failure := Some(MoveToBackup); }
      if failure.Some? {
        var _ := AtomicSwap(SwapBackAfterBackup);
        return;
      }
      staged, backup, swapped := Absent, staged, false;
      Record();
      if stale != Absent { stale := RemoveTree(DropStale, stale); }
      Record();
    }

    // Put the new app where the old one is, and the old one in the backup.
    method ReplaceOld() returns (failure: Option<Op>)
      requires AllSafe() && destination == Old && staged == New && !swapped && (backup == Absent || backup == Prior)
      modifies this
      ensures AllSafe()
      ensures failure == ReplaceFault(old(Now()), faults)
      ensures Ends(old(Now()), Now(), failure, faults)
    {
      var ok := AtomicSwap(Swap);
      if !ok { return Some(Swap); }
      if VerifyInstalled in faults || VerifyInstalledSignature in faults {
        failure := Some(if VerifyInstalled in faults then VerifyInstalled else VerifyInstalledSignature);
        var _ := AtomicSwap(SwapBackAfterCheck);
        return;
      }
      failure := BackUpPrevious();
    }

    // A first installation.
    method MoveNewIn() returns (failure: Option<Op>)
      requires destination == Absent && staged == New
      modifies this`destination, this`staged, this`trace
      ensures failure == Then(Of(MoveIn, faults), Of(VerifyMovedIn, faults))
      ensures failure.None? ==> destination == New
      ensures failure == Some(MoveIn) ==> destination == Absent
      ensures failure == Some(VerifyMovedIn) ==> destination == (if RemoveMovedIn in faults then Fragment else Absent)
      ensures staged != Old
    {
      if MoveIn in faults { return Some(MoveIn); }
      destination, staged := New, Absent;
      Record();
      if VerifyMovedIn in faults {
        destination := RemoveTree(RemoveMovedIn, destination);
        Record();
        return Some(VerifyMovedIn);
      }
      return None;
    }

    method Mark(running: bool) returns (failure: Option<Op>)
      ensures failure == MarkFault(running, faults)
    {
      if MakeMarkerDir in faults { return Some(MakeMarkerDir); }
      if running {
        if WriteMarker in faults { return Some(WriteMarker); }
        if Notify in faults { return Some(Notify); }
      } else if RemoveMarker in faults {
        return Some(RemoveMarker);
      }
      return None;
    }

    // The `finally` clause.
    method TidyUp()
      modifies this`staged, this`trace
      ensures old(swapped && staged != Absent) ==> staged == old(staged)
      ensures !old(swapped && staged != Absent) ==> staged == Absent || staged == Fragment
      ensures old(AllSafe()) ==> AllSafe()
    {
      if swapped && staged != Absent { return; }
      staged := RemoveTree(CleanUp, staged);
      Record();
    }

    // The body of the `try`.
    method Perform(running: bool) returns (failure: Option<Op>)
      requires staged == Absent && !swapped && (backup == Absent || backup == Prior)
      requires destination == Absent || (destination == Old && AllSafe())
      modifies this
      ensures var was := old(Now());
              failure == Then(StageFault(faults), Then(SwapFault(was, faults), MarkFault(running, faults)))
      ensures old(destination) == Old ==> AllSafe() && Ends(old(Now()), Now(), failure, faults)
      ensures old(destination) == Absent ==> FirstEnds(destination, failure, faults)
      ensures old(destination) == Absent ==> backup == old(backup) && stale == old(stale)
    {
      failure := StageNew();
      if failure.None? {
        if destination == Absent { failure := MoveNewIn(); } else { failure := ReplaceOld(); }
        if failure.None? { failure := Mark(running); }
      }
    }

    // `upToDate` says that the destination already has the requested version.
    method InstallLocalApp(running: bool, upToDate: bool) returns (r: Result)
      requires trace == [] && staged == Absent && !swapped && backup in {Absent, Prior}
               && stale in {Absent, Older, Fragment}
      requires destination == Absent || destination == Old
      modifies this
      ensures var first := FirstFault([VerifyHost, FindSource, VerifySource], faults);
              upToDate ==> Now() == old(Now()) && r == if first.None? then NoChange else Failed(first.value)
      ensures var first := FirstFault(Plan(old(Now()), running), faults);
              !upToDate ==> r == if first.None? then Installed else Failed(first.value)
      ensures !upToDate && old(destination) == Old ==>
                AllSafe() && Ends(old(Now()), Now(), FirstFault(Plan(old(Now()), running), faults), faults)
      ensures !upToDate && old(destination) == Absent ==>
                FirstEnds(destination, FirstFault(Plan(old(Now()), running), faults), faults)
                && backup == old(backup) && stale == old(stale)
    {
      ghost var was := Now();
      PlanFaults(was, running, faults);
      ThreeFaults(VerifyHost, FindSource, VerifySource, faults);
      if VerifyHost in faults { return Failed(VerifyHost); }
      if FindSource in faults { return Failed(FindSource); }
      if VerifySource in faults { return Failed(VerifySource); }
      if upToDate { return NoChange; }
      if MakeTemp in faults { return Failed(MakeTemp); }
      var failure := Perform(running);
      TidyUp();
      r := if failure.None? then Installed else Failed(failure.value);
    }
  }
}
