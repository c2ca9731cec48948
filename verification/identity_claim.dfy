/**
 The pending/observed identity claim of a Cursor session (engine/src/cursor_helm_launcher.rs,
 `write_pending_claim` and `rollback_pending_claim`; engine/src/cursor_hooks.rs for promotion and
 rotation).

 The session's launcher and its hooks are different processes that share two files and no lock, so
 every file operation is a step of its own. At most one launcher works on a session at a time: it
 holds the session's lock file. A launcher may die anywhere; a hook that dies just takes no more steps.
 */
module IdentityClaim {
  import opened Wrappers

  datatype Claim =
    | Pending(launch: string, conversation: string)
    | Observed(launch: string, conversation: string)

  datatype Files = Files(target: Option<Claim>, backup: Option<Claim>)

  datatype Launcher =
    | Away                                                 // none, or not at these files
    | Reserving(launch: string, conversation: string)      // backup decided, target not yet written
    | Holding(launch: string)
    | RollingBack(restore: bool)                           // checked, nothing changed yet
    | Clearing                                             // target removed, backup not yet

  datatype Sys = Sys(
    files: Files,
    launcher: Launcher,
    readers: set<Claim>,       // claims read by hooks, any number of which may still act on them
    removers: nat,             // hooks that promoted and have not removed the backup yet
    latest: Option<Claim>)     // history: the last identity observed

  datatype Action =
    | BeginWrite(launch: string, conversation: string)
    | EndWrite
    | HookRead(launch: string)
    | HookPromote(claim: Claim)
    | HookRotate(claim: Claim, conversation: string)
    | HookRemove
    | BeginRollback
    | EndRollback
    | Clear
    | Crash

  const INITIAL := Sys(Files(None, None), Away, {}, 0, None)

  // ---------------------------------------------------------------------------------------------
  // Steps
  // ---------------------------------------------------------------------------------------------

  predicate IsObserved(file: Option<Claim>) {
    file.Some? && file.value.Observed?
  }

  predicate IsPending(file: Option<Claim>) {
    file.Some? && file.value.Pending?
  }

  predicate PendingMatches(files: Files, launch: string) {
    IsPending(files.target) && files.target.value.launch == launch
  }

  /** `write_pending_claim` saves an observed target before replacing it. */
  function BackUp(files: Files): Files {
    if IsObserved(files.target) then files.(backup := files.target) else files
  }

  function Restore(files: Files): Files {
    if files.backup.Some? then Files(files.backup, None) else files
  }

  function HookWrites(s: Sys, observed: Claim): Sys {
    s.(files := s.files.(target := Some(observed)), latest := Some(observed))
  }

  function HookPromoteStep(s: Sys, claim: Claim): Sys {
    if claim in s.readers && claim.Pending? then
      HookWrites(s, Observed(claim.launch, claim.conversation))
        .(removers := s.removers + 1)
    else s
  }

  function HookRotateStep(s: Sys, claim: Claim, conversation: string): Sys {
    if claim in s.readers then
      HookWrites(s, Observed(claim.launch, conversation))
    else s
  }

  function EndRollbackStep(s: Sys): Sys {
    match s.launcher
    case RollingBack(true) => s.(files := Restore(s.files), launcher := Away)
    case RollingBack(false) => s.(files := s.files.(target := None), launcher := Clearing)
    case _ => s
  }

  function Step(s: Sys, a: Action): Sys {
    match a
    case BeginWrite(launch, conversation) =>
      if s.launcher.Away? then s.(files := BackUp(s.files), launcher := Reserving(launch, conversation)) else s
    case EndWrite =>
      (match s.launcher
       case Reserving(launch, conversation) =>
         s.(files := s.files.(target := Some(Pending(launch, conversation))), launcher := Holding(launch))
       case _ => s)
    case HookRead(launch) =>
      if s.files.target.Some? && s.files.target.value.launch == launch then
        s.(readers := s.readers + {s.files.target.value})
      else s
    case HookPromote(claim) => HookPromoteStep(s, claim)
    case HookRotate(claim, conversation) => HookRotateStep(s, claim, conversation)
    case HookRemove =>
      if s.removers > 0 then s.(files := s.files.(backup := None), removers := s.removers - 1) else s
    case BeginRollback =>
      if !s.launcher.Holding? then s
      else s.(launcher := if PendingMatches(s.files, s.launcher.launch) then RollingBack(IsObserved(s.files.backup)) else Away)
    case EndRollback => EndRollbackStep(s)
    case Clear => if s.launcher.Clearing? then s.(files := s.files.(backup := None), launcher := Away) else s
    case Crash => s.(launcher := Away)
  }

  function Run(actions: seq<Action>): Sys {
    if actions == [] then INITIAL
    else Step(Run(actions[..|actions| - 1]), actions[|actions| - 1])
  }

  // ---------------------------------------------------------------------------------------------
  // Safety
  // ---------------------------------------------------------------------------------------------

  /** The last observed identity is the claim, or the backup that rolling back the claim restores. */
  predicate Recoverable(s: Sys) {
    || s.latest.None?
    || s.files.target == s.latest
    || (IsPending(s.files.target) && s.files.backup == s.latest)
  }

  /** Only claims that say "observed" are backed up or remembered, and then nothing older. */
  predicate Shape(s: Sys) {
    && (s.latest.Some? ==> s.latest.value.Observed?)
    && (s.files.backup.Some? ==> s.files.backup.value.Observed?)
    && (s.latest.None? ==> s.files.backup.None? && !IsObserved(s.files.target))
    && (IsObserved(s.files.target) ==> s.files.target == s.latest)
    && (s.launcher == RollingBack(false) ==> s.files.backup.None?)
    && (s.launcher.Clearing? ==> s.files.backup.None?)
  }

  ghost predicate Inv(s: Sys) {
    Recoverable(s) && Shape(s)
  }

  /**
   The steps that lose the identity, read off the files: a launcher's write over a claim observed
   after its check, and a late backup removal that meets the next launch's reservation.
   */
  predicate Loses(s: Sys, a: Action) {
    match a
    case EndWrite => s.launcher.Reserving? && IsObserved(s.files.target) && s.files.backup != s.files.target
    case EndRollback =>
      && s.launcher.RollingBack? && IsObserved(s.files.target)
      && (s.launcher.restore ==> s.files.backup.Some? && s.files.backup != s.files.target)
    case HookRemove => s.removers > 0 && IsPending(s.files.target) && s.files.backup.Some?
    case _ => false
  }

  /** Those, and only those, steps lose the last observed identity. */
  lemma LossExactly(s: Sys, a: Action)
    requires Inv(s)
    ensures Recoverable(Step(s, a)) <==> !Loses(s, a)
    ensures !Loses(s, a) ==> Inv(Step(s, a))
  {
  }

  predicate Lossless(actions: seq<Action>) {
    forall i | 0 <= i < |actions| :: !Loses(Run(actions[..i]), actions[i])
  }

  lemma {:induction false} InvRun(actions: seq<Action>)
    requires Lossless(actions)
    ensures Inv(Run(actions))
  {
    if actions != [] {
      var n := |actions| - 1;
      hide Inv, Step, Loses, Run;
      assert forall i | 0 <= i < n :: actions[..n][..i] == actions[..i];
      InvRun(actions[..n]);
      LossExactly(Run(actions[..n]), actions[n]);
      RunLast(actions);
    }
  }

  lemma RunLast(actions: seq<Action>)
    requires actions != []
    ensures Run(actions) == Step(Run(actions[..|actions| - 1]), actions[|actions| - 1])
  {
  }

  // ---------------------------------------------------------------------------------------------
  // Scheduling alone
  // ---------------------------------------------------------------------------------------------

  /**
   A discipline on scheduling alone: hooks do not write inside the launcher's two short windows, and
   no hook still owes a backup removal when the next launch reserves.
   */
  predicate Orderly(s: Sys, a: Action) {
    match a
    case HookPromote(_) => s.launcher.Away? || s.launcher.Holding?
    case HookRotate(_, _) => s.launcher.Away? || s.launcher.Holding?
    case BeginWrite(_, _) => s.removers == 0
    case _ => true
  }

  predicate OrderlyRun(actions: seq<Action>) {
    forall i | 0 <= i < |actions| :: Orderly(Run(actions[..i]), actions[i])
  }

  /** What the discipline buys: each window still sees the claim it checked. */
  predicate Windows(s: Sys) {
    && (s.removers > 0 ==> IsObserved(s.files.target) && (s.launcher.Away? || s.launcher.Holding?))
    && (s.launcher.Reserving? ==> IsObserved(s.files.target) ==> s.files.backup == s.files.target)
    && (s.launcher.RollingBack? ==> IsPending(s.files.target) && (s.launcher.restore <==> s.files.backup.Some?))
  }

  lemma OrderlyStep(s: Sys, a: Action)
    requires Inv(s) && Windows(s) && Orderly(s, a)
    ensures Inv(Step(s, a)) && Windows(Step(s, a)) && !Loses(s, a)
  {
    LossExactly(s, a);
  }

  /**
   Over every orderly run of reservations, promotions, rotations, rollbacks and crashes, whatever
   dies where, the last observed identity is never lost.
   */
  lemma {:induction false} IdentityIsNeverLost(actions: seq<Action>)
    requires OrderlyRun(actions)
    ensures Inv(Run(actions)) && Windows(Run(actions))
  {
    if actions != [] {
      var n := |actions| - 1;
      hide Inv, Windows, Step, Orderly, Run;
      assert forall i | 0 <= i < n :: actions[..n][..i] == actions[..i];
      IdentityIsNeverLost(actions[..n]);
      OrderlyStep(Run(actions[..n]), actions[n]);
      RunLast(actions);
    }
  }

  /** After any orderly run, a launch that was never observed rolls back to the identity before it. */
  lemma RollbackRestores(actions: seq<Action>)
    requires OrderlyRun(actions)
    requires Run(actions).launcher.Holding? && PendingMatches(Run(actions).files, Run(actions).launcher.launch)
    ensures var s := Run(actions);
      Step(Step(Step(s, BeginRollback), EndRollback), Clear) == s.(launcher := Away, files := Files(s.latest, None))
  {
    IdentityIsNeverLost(actions);
    var s := Run(actions);
    assert s.launcher.Holding? && PendingMatches(s.files, s.launcher.launch);
    hide Run;
    UndisturbedRollback(s);
  }

  lemma UndisturbedRollback(s: Sys)
    requires Inv(s) && s.launcher.Holding? && PendingMatches(s.files, s.launcher.launch)
    ensures Step(Step(Step(s, BeginRollback), EndRollback), Clear) == s.(launcher := Away, files := Files(s.latest, None))
  {
  }

  /** A rollback for another launch, or after promotion, leaves both files alone in every state. */
  lemma ForeignRollbackIsInert(s: Sys)
    requires s.launcher.Holding? && !PendingMatches(s.files, s.launcher.launch)
    ensures Step(Step(Step(s, BeginRollback), EndRollback), Clear) == s.(launcher := Away)
  {
  }

  /**
   A launch that crashes while its claim is pending blocks nothing: whoever reserves next, and rolls
   back, restores the identity that was observed before the crash.
   */
  lemma CrashedLaunchesRollBackToTheLatest(s: Sys, launch: string, conversation: string)
    requires Inv(s) && s.launcher.Away?
    ensures var s1 := Step(Step(s, BeginWrite(launch, conversation)), EndWrite);
      Step(Step(Step(s1, BeginRollback), EndRollback), Clear) == s.(launcher := Away, files := Files(s.latest, None))
  {
  }

  /** So whatever a launcher is at when it dies, in any orderly run. */
  lemma DeathBlocksNobody(actions: seq<Action>, launch: string, conversation: string)
    requires OrderlyRun(actions)
    ensures var s := Step(Run(actions), Crash);
      var s2 := Step(Step(s, BeginWrite(launch, conversation)), EndWrite);
      && s.latest == Run(actions).latest
      && Step(Step(Step(s2, BeginRollback), EndRollback), Clear).files == Files(s.latest, None)
  {
    IdentityIsNeverLost(actions);
    LossExactly(Run(actions), Crash);
    hide Run;
    CrashedLaunchesRollBackToTheLatest(Step(Run(actions), Crash), launch, conversation);
  }

  // ---------------------------------------------------------------------------------------------
  // What hooks get done
  // ---------------------------------------------------------------------------------------------

  /**
   From every state in which no launcher is at work: a launch that its hook observes ends with its own
   identity observed, and no backup of an older one.
   */
  lemma LaunchIsObserved(s: Sys, launch: string, conversation: string)
    requires s.launcher.Away? && s.removers == 0
    ensures var s3 := Step(Step(Step(s, BeginWrite(launch, conversation)), EndWrite), HookRead(launch));
      var s5 := Step(Step(s3, HookPromote(Pending(launch, conversation))), HookRemove);
      && s5.files == Files(Some(Observed(launch, conversation)), None)
      && s5.latest == Some(Observed(launch, conversation)) && s5.removers == 0
  {
  }

  /** A hook of the launch can move its claim on to another conversation, whatever else is on disk. */
  lemma ConversationRotates(s: Sys, launch: string, conversation: string)
    requires s.files.target.Some? && s.files.target.value.launch == launch
    ensures var s2 := Step(Step(s, HookRead(launch)), HookRotate(s.files.target.value, conversation));
      && s2.files == s.files.(target := Some(Observed(launch, conversation)))
      && s2.latest == Some(Observed(launch, conversation)) && s2.removers == s.removers
  {
  }

  /** The hooks of another launch, and those that have read nothing, change nothing. */
  lemma ForeignHooksAreInert(s: Sys, launch: string, claim: Claim, conversation: string)
    requires s.files.target.Some? ==> s.files.target.value.launch != launch
    requires claim !in s.readers
    ensures Step(s, HookRead(launch)) == s
    ensures Step(s, HookPromote(claim)) == s && Step(s, HookRotate(claim, conversation)) == s
  {
  }

  // ---------------------------------------------------------------------------------------------
  // The disorderly runs exist
  // ---------------------------------------------------------------------------------------------

  function RunFrom(s: Sys, actions: seq<Action>): Sys
    decreases |actions|
  {
    if actions == [] then s else RunFrom(Step(s, actions[0]), actions[1..])
  }

  lemma {:induction false} RunFromAppend(before: seq<Action>, after: seq<Action>)
    ensures RunFrom(Run(before), after) == Run(before + after)
    decreases |after|
  {
    if after == [] {
      assert before + after == before;
    } else {
      assert (before + [after[0]])[..|before|] == before;
      assert before + after == before + [after[0]] + after[1..];
      RunFromAppend(before + [after[0]], after[1..]);
    }
  }

  /** The state of the first launch once a hook has read its claim, and once that hook has promoted it. */
  function FirstRead(): Sys {
    Sys(Files(Some(Pending("1", "a")), None), Holding("1"), {Pending("1", "a")}, 0, None)
  }

  function FirstObserved(): Sys {
    FirstRead().(files := Files(Some(Observed("1", "a")), None), launcher := Away, removers := 1,
                 latest := Some(Observed("1", "a")))
  }

  function SecondReserved(): Sys {
    FirstObserved().(files := Files(Some(Pending("2", "b")), Some(Observed("1", "a"))), launcher := Holding("2"))
  }

  lemma FirstIsRead()
    ensures RunFrom(INITIAL, [BeginWrite("1", "a"), EndWrite, HookRead("1")]) == FirstRead()
  {
    Three(INITIAL, [BeginWrite("1", "a"), EndWrite, HookRead("1")]);
  }

  lemma FirstIsObserved()
    ensures RunFrom(FirstRead(), [HookPromote(Pending("1", "a")), BeginRollback]) == FirstObserved()
  {
    Two(FirstRead(), [HookPromote(Pending("1", "a")), BeginRollback]);
  }

  lemma SecondReserves()
    ensures RunFrom(FirstObserved(), [BeginWrite("2", "b"), EndWrite]) == SecondReserved()
  {
    Two(FirstObserved(), [BeginWrite("2", "b"), EndWrite]);
  }

  lemma SecondRollsBack()
    ensures var s := RunFrom(SecondReserved(), [HookRemove, BeginRollback, EndRollback, Clear]);
      s.latest == Some(Observed("1", "a")) && s.files == Files(None, None) && s.launcher.Away?
  {
    var s := SecondReserved().(files := Files(Some(Pending("2", "b")), None), removers := 0);
    var a := [HookRemove, BeginRollback, EndRollback, Clear];
    assert a == [a[0]] + a[1..];
    assert RunFrom(SecondReserved(), a) == RunFrom(s, a[1..]);
    Three(s, a[1..]);
  }

  /** The first launch observes "a"; the second reserves before the first one's hook cleans up. */
  lemma LateBackupRemovalLoses()
    ensures exists actions :: var s := Run(actions);
      s.latest == Some(Observed("1", "a")) && s.files == Files(None, None) && s.launcher.Away?
  {
    var a1 := [BeginWrite("1", "a"), EndWrite, HookRead("1")];
    var a2 := [HookPromote(Pending("1", "a")), BeginRollback];
    var a3 := [BeginWrite("2", "b"), EndWrite];
    var a4 := [HookRemove, BeginRollback, EndRollback, Clear];
    FirstIsRead();
    FirstIsObserved();
    SecondReserves();
    SecondRollsBack();
    RunFromAppend([], a1);
    hide FirstRead, FirstObserved, SecondReserved, RunFrom;
    RunFromAppend(a1, a2);
    RunFromAppend(a1 + a2, a3);
    RunFromAppend(a1 + a2 + a3, a4);
    assert [] + a1 == a1;
    hide Run;
    assert Run(a1 + a2 + a3 + a4).files == Files(None, None);
  }

  lemma Two(s: Sys, a: seq<Action>)
    requires |a| == 2
    ensures RunFrom(s, a) == Step(Step(s, a[0]), a[1])
  {
    var rest, last := a[1..], a[1..][1..];
    hide Step;
    assert rest[0] == a[1] && last == [];
    assert RunFrom(Step(s, a[0]), rest) == RunFrom(Step(Step(s, a[0]), rest[0]), last);
  }

  lemma Three(s: Sys, a: seq<Action>)
    requires |a| == 3
    ensures RunFrom(s, a) == Step(Step(Step(s, a[0]), a[1]), a[2])
  {
    hide Step;
    Two(Step(s, a[0]), a[1..]);
  }

  /** The launcher checks that its claim is pending, a hook promotes it, and the launcher removes it. */
  lemma PromotionInsideRollbackLoses()
    ensures exists actions :: var s := Run(actions);
      s.latest == Some(Observed("1", "a")) && s.files == Files(None, None)
  {
    var a1 := [BeginWrite("1", "a"), EndWrite, HookRead("1")];
    var a2 := [BeginRollback, HookPromote(Pending("1", "a")), EndRollback];
    FirstIsRead();
    Three(FirstRead(), a2);
    RunFromAppend([], a1);
    RunFromAppend(a1, a2);
    assert Run(a1 + a2) == RunFrom(FirstRead(), a2);
  }

  // ---------------------------------------------------------------------------------------------
  // The code
  // ---------------------------------------------------------------------------------------------

  /** One session's claim files, as an undisturbed launcher changes them. */
  class ClaimFiles {
    var target: Option<Claim>
    var backup: Option<Claim>

    constructor ()
      ensures Now() == Files(None, None)
    {
      target, backup := None, None;
    }

    function Now(): Files
      reads this
    {
      Files(target, backup)
    }

    method WritePendingClaim(launch: string, conversation: string)
      modifies this
      ensures forall s: Sys | s.files == old(Now()) && s.launcher.Away? ::
        Now() == Step(Step(s, BeginWrite(launch, conversation)), EndWrite).files
    {
      if target.Some? && target.value.Observed? {
        backup := target;
      }
      target := Some(Pending(launch, conversation));
    }

    method RollbackPendingClaim(launch: string)
      modifies this
      ensures forall s: Sys | s.files == old(Now()) && s.launcher == Holding(launch) ::
        Now() == Step(Step(Step(s, BeginRollback), EndRollback), Clear).files
    {
      var matches := target.Some? && target.value.Pending? && target.value.launch == launch;
      if !matches {
        return;
      }
      if backup.Some? && backup.value.Observed? {
        target, backup := backup, None;
      } else {
        target := None;
        backup := None;
      }
    }
  }
}
