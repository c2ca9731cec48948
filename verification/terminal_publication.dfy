/**
 Durable publication of a bridge's terminal outcome (engine/src/codex_teardown.rs;
 engine/src/codex_bridge.rs, `commit_bridge_terminal` and the state written at launch;
 engine/src/outbox.rs for enqueueing and draining).

 A session has one state file. Its bridge commits the stop there, enqueues the event, and marks the
 file; the daemon's reconciler reads, checks, enqueues and marks files in separate steps; the drain
 posts outbox entries and may fail to delete them. Everything interleaves and may crash anywhere.

 Enqueueing writes a hidden temporary and renames it. The drain posts renamed files only and prunes
 temporaries that have grown old; the reconciler's scan for pending copies reads both, and may fail.
 */
module TerminalPublication {
  import opened Wrappers
  import opened TerminalKeys

  datatype Event = Event(session: string, run: Option<string>)

  function KeyOf(e: Event): string {
    Key(e.session, e.run)
  }

  predicate SameRun(a: Event, b: Event) {
    a.session == b.session && Normal(a.run) == Normal(b.run)
  }

  datatype StateFile = StateFile(status: string, published: bool, event: Option<Event>)

  const STARTING := StateFile("starting", false, None)
  const RUNNING := StateFile("running", false, None)

  /** `stamp_terminal_commit` as the bridge writes it. */
  function Committing(e: Event): StateFile {
    StateFile("stopped", false, Some(e))
  }

  predicate Needs(file: StateFile) {
    IsStopped(file.status) && !file.published && file.event.Some?
  }

  lemma FreshStatuses()
    ensures !Needs(STARTING) && !Needs(RUNNING)
    ensures IsStopped("stopped")
  {
    assert TrimStart("stopped") == "stopped" && TrimEnd("stopped") == "stopped";
  }

  datatype Bridge =
    | Down
    | Running(run: Option<string>)
    | Committed(event: Event)     // the stop is on disk, nothing enqueued
    | Staged(event: Event)        // its temporary is written, about to rename it
    | Marking(event: Event)       // enqueued, about to mark the file

  datatype Daemon =
    | Idle
    | Checked(session: string, file: StateFile)   // needs reconciling and the scan saw no copy
    | Restaged(session: string, file: StateFile)  // its temporary is written, about to rename it
    | Queued(session: string, file: StateFile)    // enqueued, about to mark the file

  datatype Sys = Sys(
    files: map<string, StateFile>,
    bridges: map<string, Bridge>,
    daemon: Daemon,
    outbox: seq<Event>,
    temps: multiset<Event>,          // temporaries of the outbox, never renamed or not yet
    server: map<string, Event>,      // the server keeps the first event of a key
    received: set<Event>,            // history: every event the server was sent,
    committed: set<Event>)           //   and every stop that reached the disk

  const INITIAL := Sys(map[], map[], Idle, [], multiset{}, map[], {}, {})

  /** What a scan of the outbox can read: nothing, or every file but those of the events in `unread`. */
  datatype Scan = Unlisted | Listed(unread: set<Event>)

  datatype Action =
    | Launch(session: string, run: Option<string>)
    | WriteRunning(session: string)
    | Commit(session: string)
    | Stage(session: string, ok: bool)
    | Enqueue(session: string, ok: bool)
    | Mark(session: string, ok: bool)
    | BridgeCrash(session: string)
    | Inspect(session: string, scan: Scan)
    | Restage(ok: bool)
    | Requeue(ok: bool)
    | MarkRequeued(ok: bool)
    | DaemonCrash
    | Drain(i: nat, deleted: bool)
    | Prune(event: Event)

  function BridgeOf(s: Sys, session: string): Bridge {
    if session in s.bridges then s.bridges[session] else Down
  }

  predicate Held(outbox: seq<Event>, key: string) {
    exists e | e in outbox :: KeyOf(e) == key
  }

  /** Among these temporaries, the scan reads one with this key. */
  predicate TemporaryStops(temps: multiset<Event>, scan: Scan, key: string) {
    scan.Listed? && exists e | e in temps :: e !in scan.unread && KeyOf(e) == key
  }

  /** `outbox_already_holds`. */
  predicate Sees(outbox: seq<Event>, temps: multiset<Event>, scan: Scan, key: string) {
    TemporaryStops(multiset(outbox) + temps, scan, key)
  }

  /** The event is on its way to the server, or there; a temporary is neither. */
  predicate Published(s: Sys, e: Event) {
    e in s.outbox || e in s.received
  }

  // ---------------------------------------------------------------------------------------------
  // Steps
  // ---------------------------------------------------------------------------------------------

  function LaunchStep(s: Sys, session: string, run: Option<string>): Sys {
    if BridgeOf(s, session).Down? then
      s.(files := s.files[session := STARTING], bridges := s.bridges[session := Running(run)])
    else s
  }

  function WriteRunningStep(s: Sys, session: string): Sys {
    if BridgeOf(s, session).Running? then s.(files := s.files[session := RUNNING]) else s
  }

  function CommitStep(s: Sys, session: string): Sys {
    match BridgeOf(s, session)
    case Running(run) =>
      var e := Event(session, run);
      s.(files := s.files[session := Committing(e)],
         bridges := s.bridges[session := Committed(e)],
         committed := s.committed + {e})
    case _ => s
  }

  function StageStep(s: Sys, session: string, ok: bool): Sys {
    match BridgeOf(s, session)
    case Committed(e) =>
      if ok then s.(temps := s.temps + multiset{e}, bridges := s.bridges[session := Staged(e)])
      else s.(bridges := s.bridges[session := Down])
    case _ => s
  }

  function EnqueueStep(s: Sys, session: string, ok: bool): Sys {
    match BridgeOf(s, session)
    case Staged(e) =>
      if ok && e in s.temps then
        s.(temps := s.temps - multiset{e}, outbox := s.outbox + [e], bridges := s.bridges[session := Marking(e)])
      else s.(bridges := s.bridges[session := Down])
    case _ => s
  }

  function MarkStep(s: Sys, session: string, ok: bool): Sys {
    match BridgeOf(s, session)
    case Marking(e) =>
      var s' := s.(bridges := s.bridges[session := Down]);
      if ok then s'.(files := s.files[session := Committing(e).(published := true)]) else s'
    case _ => s
  }

  function InspectStep(s: Sys, session: string, scan: Scan): Sys {
    if !s.daemon.Idle? || session !in s.files then s
    else
      var file := s.files[session];
      if Needs(file) && !Sees(s.outbox, s.temps, scan, KeyOf(file.event.value)) then
        s.(daemon := Checked(session, file))
      else s
  }

  function RestageStep(s: Sys, ok: bool): Sys {
    match s.daemon
    case Checked(session, file) =>
      if file.event.None? then s
      else if ok then s.(temps := s.temps + multiset{file.event.value}, daemon := Restaged(session, file))
      else s.(daemon := Idle)
    case _ => s
  }

  function RequeueStep(s: Sys, ok: bool): Sys {
    match s.daemon
    case Restaged(session, file) =>
      if file.event.None? then s
      else
        var e := file.event.value;
        if ok && e in s.temps then
          s.(temps := s.temps - multiset{e}, outbox := s.outbox + [e], daemon := Queued(session, file))
        else s.(daemon := Idle)
    case _ => s
  }

  function MarkRequeuedStep(s: Sys, ok: bool): Sys {
    match s.daemon
    case Queued(session, file) =>
      var s' := s.(daemon := Idle);
      if ok then s'.(files := s.files[session := file.(published := true)]) else s'
    case _ => s
  }

  function DrainStep(s: Sys, i: nat, deleted: bool): Sys {
    if i >= |s.outbox| then s
    else
      var e := s.outbox[i];
      s.(server := if KeyOf(e) in s.server then s.server else s.server[KeyOf(e) := e],
         received := s.received + {e},
         outbox := if deleted then s.outbox[..i] + s.outbox[i + 1..] else s.outbox)
  }

  function PruneStep(s: Sys, e: Event): Sys {
    s.(temps := s.temps - multiset{e})
  }

  function BridgeCrashStep(s: Sys, session: string): Sys {
    s.(bridges := s.bridges[session := Down])
  }

  function DaemonCrashStep(s: Sys): Sys {
    s.(daemon := Idle)
  }

  function Step(s: Sys, a: Action): Sys {
    match a
    case Launch(session, run) => LaunchStep(s, session, run)
    case WriteRunning(session) => WriteRunningStep(s, session)
    case Commit(session) => CommitStep(s, session)
    case Stage(session, ok) => StageStep(s, session, ok)
    case Enqueue(session, ok) => EnqueueStep(s, session, ok)
    case Mark(session, ok) => MarkStep(s, session, ok)
    case BridgeCrash(session) => BridgeCrashStep(s, session)
    case Inspect(session, scan) => InspectStep(s, session, scan)
    case Restage(ok) => RestageStep(s, ok)
    case Requeue(ok) => RequeueStep(s, ok)
    case MarkRequeued(ok) => MarkRequeuedStep(s, ok)
    case DaemonCrash => DaemonCrashStep(s)
    case Drain(i, deleted) => DrainStep(s, i, deleted)
    case Prune(e) => PruneStep(s, e)
  }

  function Run(actions: seq<Action>): Sys {
    if actions == [] then INITIAL
    else Step(Run(actions[..|actions| - 1]), actions[|actions| - 1])
  }

  // ---------------------------------------------------------------------------------------------
  // What every run keeps
  // ---------------------------------------------------------------------------------------------

  /** A state file speaks of its own session's committed stops, and "published" never lies. */
  predicate FileSound(s: Sys, session: string, file: StateFile) {
    match file.event
    case None => true
    case Some(e) => e.session == session && e in s.committed && (file.published ==> Published(s, e))
  }

  predicate BridgeSound(s: Sys, session: string, b: Bridge) {
    match b
    case Down => true
    case Running(_) => !(session in s.files && Needs(s.files[session]))
    case Committed(e) => e.session == session && e in s.committed && OnlyNeeds(s, session, e)
    case Staged(e) => e.session == session && e in s.committed && OnlyNeeds(s, session, e)
    case Marking(e) => e.session == session && e in s.committed && OnlyNeeds(s, session, e) && Published(s, e)
  }

  /** If the session's file needs reconciling, it is for this event. */
  predicate OnlyNeeds(s: Sys, session: string, e: Event) {
    session in s.files && Needs(s.files[session]) ==> s.files[session].event == Some(e)
  }

  predicate DaemonSound(s: Sys) {
    match s.daemon
    case Idle => true
    case Checked(session, file) => file.event.Some? && FileSound(s, session, file)
    case Restaged(session, file) => file.event.Some? && FileSound(s, session, file)
    case Queued(session, file) =>
      file.event.Some? && FileSound(s, session, file) && Published(s, file.event.value)
  }

  predicate ServerSound(s: Sys) {
    && (forall e | e in s.received :: KeyOf(e) in s.server)
    && (forall k | k in s.server :: s.server[k] in s.received && KeyOf(s.server[k]) == k)
  }

  ghost predicate Inv(s: Sys) {
    && (forall x | x in s.files :: FileSound(s, x, s.files[x]))
    && (forall x | x in s.bridges :: BridgeSound(s, x, s.bridges[x]))
    && DaemonSound(s)
    && (forall e | e in s.outbox :: e in s.committed)
    && (forall e | e in s.temps :: e in s.committed)
    && s.received <= s.committed
    && ServerSound(s)
  }

  lemma LaunchKeeps(s: Sys, session: string, run: Option<string>)
    requires Inv(s)
    ensures Inv(LaunchStep(s, session, run))
  {
    FreshStatuses();
    hide Needs, KeyOf;
  }

  lemma WriteRunningKeeps(s: Sys, session: string)
    requires Inv(s)
    ensures Inv(WriteRunningStep(s, session))
  {
    FreshStatuses();
    hide Needs, KeyOf;
  }

  lemma CommitKeeps(s: Sys, session: string)
    requires Inv(s)
    ensures Inv(CommitStep(s, session))
  {
    hide Needs, KeyOf;
  }

  lemma StageKeeps(s: Sys, session: string, ok: bool)
    requires Inv(s)
    ensures Inv(StageStep(s, session, ok))
  {
    hide Needs, KeyOf;
  }

  lemma EnqueueKeeps(s: Sys, session: string, ok: bool)
    requires Inv(s)
    ensures Inv(EnqueueStep(s, session, ok))
  {
    hide Needs, KeyOf;
  }

  lemma BridgeCrashKeeps(s: Sys, session: string)
    requires Inv(s)
    ensures Inv(BridgeCrashStep(s, session))
  {
    hide Needs, KeyOf;
  }

  lemma MarkKeeps(s: Sys, session: string, ok: bool)
    requires Inv(s)
    ensures Inv(MarkStep(s, session, ok))
  {
    assert forall e :: !Needs(Committing(e).(published := true));
    hide Needs, KeyOf;
  }

  lemma InspectKeeps(s: Sys, session: string, scan: Scan)
    requires Inv(s)
    ensures Inv(InspectStep(s, session, scan))
  {
    NeedsHasEvent(if session in s.files then s.files[session] else STARTING);
    hide Needs, KeyOf, Sees;
  }

  lemma SmallKeeps(s: Sys, e: Event)
    requires Inv(s)
    ensures Inv(DaemonCrashStep(s))
    ensures Inv(PruneStep(s, e))
  {
    hide Needs, KeyOf;
  }

  lemma RestageKeeps(s: Sys, ok: bool)
    requires Inv(s)
    ensures Inv(RestageStep(s, ok))
  {
    hide Needs, KeyOf;
  }

  lemma RequeueKeeps(s: Sys, ok: bool)
    requires Inv(s)
    ensures Inv(RequeueStep(s, ok))
  {
    hide Needs, KeyOf;
  }

  lemma MarkRequeuedKeeps(s: Sys, ok: bool)
    requires Inv(s)
    ensures Inv(MarkRequeuedStep(s, ok))
  {
    assert forall file: StateFile :: !Needs(file.(published := true));
    hide Needs, KeyOf;
  }

  lemma DrainStillPublished(s: Sys, i: nat, deleted: bool, e: Event)
    requires Published(s, e)
    ensures Published(DrainStep(s, i, deleted), e)
  {
    hide KeyOf;
    if i < |s.outbox| && e in s.outbox && e != s.outbox[i] {
      var k :| 0 <= k < |s.outbox| && s.outbox[k] == e;
      assert k != i;
      assert k < i ==> s.outbox[..i][k] == e;
      assert k > i ==> s.outbox[i + 1..][k - i - 1] == e;
    }
  }

  lemma DrainKeeps(s: Sys, i: nat, deleted: bool)
    requires Inv(s)
    ensures Inv(DrainStep(s, i, deleted))
  {
    hide Needs, KeyOf;
    if i < |s.outbox| {
      var s' := DrainStep(s, i, deleted);
      forall e | Published(s, e)
        ensures Published(s', e)
      {
        DrainStillPublished(s, i, deleted, e);
      }
    }
  }

  lemma InvStep(s: Sys, a: Action)
    requires Inv(s)
    ensures Inv(Step(s, a))
  {
    hide Inv, LaunchStep, WriteRunningStep, CommitStep, StageStep, EnqueueStep, MarkStep, BridgeCrashStep,
      InspectStep, RestageStep, RequeueStep, MarkRequeuedStep, DaemonCrashStep, DrainStep, PruneStep;
    match a
    case Launch(session, run) => LaunchKeeps(s, session, run);
    case WriteRunning(session) => WriteRunningKeeps(s, session);
    case Commit(session) => CommitKeeps(s, session);
    case Stage(session, ok) => StageKeeps(s, session, ok);
    case Enqueue(session, ok) => EnqueueKeeps(s, session, ok);
    case Mark(session, ok) => MarkKeeps(s, session, ok);
    case BridgeCrash(session) => BridgeCrashKeeps(s, session);
    case Inspect(session, scan) => InspectKeeps(s, session, scan);
    case Restage(ok) => RestageKeeps(s, ok);
    case Requeue(ok) => RequeueKeeps(s, ok);
    case MarkRequeued(ok) => MarkRequeuedKeeps(s, ok);
    case DaemonCrash => SmallKeeps(s, Event("", None));
    case Drain(i, deleted) => DrainKeeps(s, i, deleted);
    case Prune(e) => SmallKeeps(s, e);
  }

  lemma {:induction false} InvRun(actions: seq<Action>)
    ensures Inv(Run(actions))
  {
    if actions != [] {
      hide Inv, Step;
      InvRun(actions[..|actions| - 1]);
      InvStep(Run(actions[..|actions| - 1]), actions[|actions| - 1]);
    }
  }

  /** Nothing is published that no bridge committed: running sessions never emit. */
  lemma OnlyStopsArePublished(actions: seq<Action>, e: Event)
    requires Published(Run(actions), e)
    ensures e in Run(actions).committed
  {
    InvRun(actions);
  }

  // ---------------------------------------------------------------------------------------------
  // At least once
  // ---------------------------------------------------------------------------------------------

  /** A committed stop is published, will be found by the reconciler, or is in its bridge's hands. */
  predicate Tracked(s: Sys, e: Event) {
    || Published(s, e)
    || (e.session in s.files && Needs(s.files[e.session]) && s.files[e.session].event == Some(e))
    || InHand(BridgeOf(s, e.session), e)
  }

  /** The bridge has yet to put its committed stop into the outbox. */
  predicate InHand(b: Bridge, e: Event) {
    b == Committed(e) || b == Staged(e)
  }

  predicate AllTracked(s: Sys) {
    forall e | e in s.committed :: Tracked(s, e)
  }

  predicate Pending(s: Sys, session: string) {
    session in s.files && Needs(s.files[session]) && !Published(s, s.files[session].event.value)
  }

  predicate DiskHas(s: Sys, e: Event) {
    Published(s, e) || (e.session in s.files && Needs(s.files[e.session]) && s.files[e.session].event == Some(e))
  }

  /**
   The steps that lose a committed stop: relaunching a session whose stop was never published, the
   reconciler's stale write landing on a later stop, and a bridge dying or failing to enqueue after
   such a write.
   */
  predicate Loses(s: Sys, a: Action) {
    match a
    case Launch(session, run) => BridgeOf(s, session).Down? && Pending(s, session)
    case MarkRequeued(ok) =>
      && ok && s.daemon.Queued? && Pending(s, s.daemon.session)
      && s.files[s.daemon.session].event != s.daemon.file.event
      && !InHand(BridgeOf(s, s.daemon.session), s.files[s.daemon.session].event.value)
    case Stage(session, ok) =>
      !ok && BridgeOf(s, session).Committed? && !DiskHas(s, BridgeOf(s, session).event)
    case Enqueue(session, ok) =>
      && BridgeOf(s, session).Staged? && !(ok && BridgeOf(s, session).event in s.temps)
      && !DiskHas(s, BridgeOf(s, session).event)
    case BridgeCrash(session) =>
      (BridgeOf(s, session).Committed? || BridgeOf(s, session).Staged?) && !DiskHas(s, BridgeOf(s, session).event)
    case _ => false
  }

  lemma NeedsHasEvent(file: StateFile)
    ensures Needs(file) ==> file.event.Some? && !file.published
  {
  }

  lemma LaunchLoss(s: Sys, session: string, run: Option<string>)
    requires Inv(s) && AllTracked(s)
    ensures AllTracked(LaunchStep(s, session, run)) <==> !Loses(s, Launch(session, run))
  {
    hide Inv, AllTracked, LaunchStep;
    if Loses(s, Launch(session, run)) {
      LaunchLoses(s, session, run);
    } else {
      LaunchTracks(s, session, run);
    }
  }

  lemma LaunchLoses(s: Sys, session: string, run: Option<string>)
    requires Inv(s) && Loses(s, Launch(session, run))
    ensures !AllTracked(LaunchStep(s, session, run))
  {
    FreshStatuses();
    NeedsHasEvent(s.files[session]);
    assert FileSound(s, session, s.files[session]);
    hide Needs, Inv, KeyOf, Published;
    var s' := LaunchStep(s, session, run);
    PublishedAlike(s, s');
    assert !Tracked(s', s.files[session].event.value);
  }

  lemma LaunchTracks(s: Sys, session: string, run: Option<string>)
    requires Inv(s) && AllTracked(s) && !Loses(s, Launch(session, run))
    ensures AllTracked(LaunchStep(s, session, run))
  {
    NeedsHasEvent(if session in s.files then s.files[session] else STARTING);
    hide Needs, Inv, KeyOf, Published;
    var s' := LaunchStep(s, session, run);
    PublishedAlike(s, s');
    forall e | e in s'.committed ensures Tracked(s', e) {
      assert Tracked(s, e);
    }
  }

  lemma PublishedAlike(s: Sys, s': Sys)
    requires s'.outbox == s.outbox && s'.received == s.received
    ensures forall e :: Published(s', e) <==> Published(s, e)
  {
  }

  lemma BridgeGone(s: Sys, session: string)
    requires Inv(s) && AllTracked(s)
    ensures AllTracked(BridgeCrashStep(s, session)) <==> !Loses(s, BridgeCrash(session))
  {
    hide Needs;
    var s' := BridgeCrashStep(s, session);
    if Loses(s, BridgeCrash(session)) {
      var e := BridgeOf(s, session).event;
      assert BridgeSound(s, session, s.bridges[session]);
      assert e.session == session && e in s'.committed && !Tracked(s', e);
    } else {
      forall e | e in s'.committed ensures Tracked(s', e) {
        assert Tracked(s, e);
      }
    }
  }

  lemma StageLoss(s: Sys, session: string, ok: bool)
    requires Inv(s) && AllTracked(s)
    ensures AllTracked(StageStep(s, session, ok)) <==> !Loses(s, Stage(session, ok))
  {
    if BridgeOf(s, session).Committed? && !ok {
      BridgeGone(s, session);
    } else {
      hide Needs;
      var s' := StageStep(s, session, ok);
      assert session in s.bridges ==> BridgeSound(s, session, s.bridges[session]);
      forall e | e in s'.committed ensures Tracked(s', e) {
        assert Tracked(s, e);
      }
    }
  }

  lemma EnqueueLoss(s: Sys, session: string, ok: bool)
    requires Inv(s) && AllTracked(s)
    ensures AllTracked(EnqueueStep(s, session, ok)) <==> !Loses(s, Enqueue(session, ok))
  {
    if BridgeOf(s, session).Staged? && !(ok && BridgeOf(s, session).event in s.temps) {
      BridgeGone(s, session);
    } else {
      hide Needs;
      var s' := EnqueueStep(s, session, ok);
      assert session in s.bridges ==> BridgeSound(s, session, s.bridges[session]);
      forall e | e in s'.committed ensures Tracked(s', e) {
        assert Tracked(s, e);
      }
    }
  }

  lemma MarkLoss(s: Sys, session: string, ok: bool)
    requires Inv(s) && AllTracked(s)
    ensures AllTracked(MarkStep(s, session, ok))
  {
    hide Needs;
    var s' := MarkStep(s, session, ok);
    assert session in s.bridges ==> BridgeSound(s, session, s.bridges[session]);
    forall e | e in s'.committed ensures Tracked(s', e) {
      assert Tracked(s, e);
    }
  }

  lemma MarkRequeuedLoss(s: Sys, ok: bool)
    requires Inv(s) && AllTracked(s)
    ensures AllTracked(MarkRequeuedStep(s, ok)) <==> !Loses(s, MarkRequeued(ok))
  {
    var s' := MarkRequeuedStep(s, ok);
    if s.daemon.Queued? && ok {
      var x := s.daemon.session;
      NeedsHasEvent(if x in s.files then s.files[x] else STARTING);
      assert !Needs(s'.files[x]);
      assert x in s.files ==> FileSound(s, x, s.files[x]);
      hide Needs;
      if Loses(s, MarkRequeued(ok)) {
        assert !Tracked(s', s.files[x].event.value);
      } else {
        forall e | e in s'.committed ensures Tracked(s', e) {
          assert Tracked(s, e);
        }
      }
    } else {
      assert forall e | e in s.committed :: Tracked(s, e) ==> Tracked(s', e);
    }
  }

  lemma CommitTracks(s: Sys, session: string)
    requires Inv(s) && AllTracked(s)
    ensures AllTracked(CommitStep(s, session))
    ensures AllTracked(WriteRunningStep(s, session))
  {
    hide Needs;
    assert session in s.bridges ==> BridgeSound(s, session, s.bridges[session]);
    forall s', e | s' in {CommitStep(s, session), WriteRunningStep(s, session)} && e in s'.committed
      ensures Tracked(s', e)
    {
      assert e in s.committed ==> Tracked(s, e);
    }
  }

  lemma InspectTracks(s: Sys, session: string, scan: Scan)
    requires AllTracked(s)
    ensures AllTracked(InspectStep(s, session, scan))
  {
    hide Needs, Sees;
    var s' := InspectStep(s, session, scan);
    assert s' == s.(daemon := s'.daemon);
    assert forall e | Tracked(s, e) :: Tracked(s', e);
  }

  lemma RestageTracks(s: Sys, ok: bool)
    requires AllTracked(s)
    ensures AllTracked(RestageStep(s, ok))
  {
    hide Needs;
    assert forall e | Tracked(s, e) :: Tracked(RestageStep(s, ok), e);
  }

  lemma RequeueTracks(s: Sys, ok: bool)
    requires AllTracked(s)
    ensures AllTracked(RequeueStep(s, ok))
  {
    hide Needs;
    assert forall e | Tracked(s, e) :: Tracked(RequeueStep(s, ok), e);
  }

  lemma SmallTracks(s: Sys, x: Event)
    requires AllTracked(s)
    ensures AllTracked(DaemonCrashStep(s))
    ensures AllTracked(PruneStep(s, x))
  {
    hide Needs;
    forall s', e | s' in {DaemonCrashStep(s), PruneStep(s, x)} && e in s'.committed
      ensures Tracked(s', e)
    {
      assert Tracked(s, e);
    }
  }

  lemma DrainTracks(s: Sys, i: nat, deleted: bool)
    requires AllTracked(s)
    ensures AllTracked(DrainStep(s, i, deleted))
  {
    hide Needs;
    var s' := DrainStep(s, i, deleted);
    forall e | e in s'.committed
      ensures Tracked(s', e)
    {
      assert Tracked(s, e);
      if Published(s, e) {
        DrainStillPublished(s, i, deleted, e);
      }
    }
  }

  /** Exactly those steps lose a committed stop. */
  lemma LossExactly(s: Sys, a: Action)
    requires Inv(s) && AllTracked(s)
    ensures AllTracked(Step(s, a)) <==> !Loses(s, a)
  {
    hide Inv, AllTracked, LaunchStep, WriteRunningStep, CommitStep, StageStep, EnqueueStep, MarkStep, BridgeCrashStep,
      InspectStep, RestageStep, RequeueStep, MarkRequeuedStep, DaemonCrashStep, DrainStep, PruneStep;
    match a
    case Launch(session, run) => LaunchLoss(s, session, run);
    case WriteRunning(session) => CommitTracks(s, session);
    case Commit(session) => CommitTracks(s, session);
    case Stage(session, ok) => StageLoss(s, session, ok);
    case Enqueue(session, ok) => EnqueueLoss(s, session, ok);
    case Mark(session, ok) => MarkLoss(s, session, ok);
    case BridgeCrash(session) => BridgeGone(s, session);
    case Inspect(session, scan) => InspectTracks(s, session, scan);
    case Restage(ok) => RestageTracks(s, ok);
    case Requeue(ok) => RequeueTracks(s, ok);
    case MarkRequeued(ok) => MarkRequeuedLoss(s, ok);
    case DaemonCrash => SmallTracks(s, Event("", None));
    case Drain(i, deleted) => DrainTracks(s, i, deleted);
    case Prune(e) => SmallTracks(s, e);
  }

  // ---------------------------------------------------------------------------------------------
  // Scheduling that loses nothing
  // ---------------------------------------------------------------------------------------------

  predicate Busy(d: Daemon, session: string) {
    !d.Idle? && d.session == session
  }

  /** A session is relaunched only once its last stop is published and the reconciler is not at it. */
  predicate Orderly(s: Sys, a: Action) {
    a.Launch? ==> !Pending(s, a.session) && !Busy(s.daemon, a.session)
  }

  predicate OrderlyRun(actions: seq<Action>) {
    forall i | 0 <= i < |actions| :: Orderly(Run(actions[..i]), actions[i])
  }

  function FileEvent(s: Sys, session: string): Option<Event> {
    if session in s.files then s.files[session].event else None
  }

  /** Bridge, reconciler and file of one session are about the same stop. */
  predicate Agreed(s: Sys, session: string) {
    && (Busy(s.daemon, session) ==>
          && !BridgeOf(s, session).Running?
          && s.daemon.file.event.Some?
          && FileEvent(s, session) == s.daemon.file.event)
    && (match BridgeOf(s, session)
        case Committed(e) => FileEvent(s, session) == Some(e) && DiskHas(s, e)
        case Staged(e) => FileEvent(s, session) == Some(e) && DiskHas(s, e)
        case Marking(e) => FileEvent(s, session) == Some(e)
        case _ => true)
  }

  ghost predicate Steady(s: Sys) {
    forall session :: Agreed(s, session)
  }

  lemma SteadyLosesNothing(s: Sys, a: Action)
    requires Inv(s) && Steady(s) && Orderly(s, a)
    ensures !Loses(s, a)
  {
    hide Needs, FileSound, DaemonSound, ServerSound;
    match a
    case MarkRequeued(ok) =>
      if s.daemon.Queued? {
        assert Agreed(s, s.daemon.session);
      }
    case Stage(session, ok) => BridgeKnows(s, session);
    case Enqueue(session, ok) => BridgeKnows(s, session);
    case BridgeCrash(session) => BridgeKnows(s, session);
    case _ =>
  }

  lemma BridgeKnows(s: Sys, session: string)
    requires Steady(s)
    ensures BridgeOf(s, session).Committed? || BridgeOf(s, session).Staged? ==>
              DiskHas(s, BridgeOf(s, session).event)
  {
    assert Agreed(s, session);
  }

  lemma StillPublished(s: Sys, a: Action, e: Event)
    requires Published(s, e)
    ensures Published(Step(s, a), e)
  {
    hide Needs, KeyOf, Sees, DrainStep;
    if a.Drain? {
      DrainStillPublished(s, a.i, a.deleted, e);
    }
  }

  lemma LaunchAgrees(s: Sys, session: string, run: Option<string>, x: string)
    requires Inv(s) && Agreed(s, x) && !Busy(s.daemon, session)
    ensures Agreed(LaunchStep(s, session, run), x)
  {
    assert x in s.bridges ==> BridgeSound(s, x, s.bridges[x]);
    hide Needs, FileSound, DaemonSound, ServerSound, KeyOf;
  }

  lemma WriteRunningAgrees(s: Sys, session: string, x: string)
    requires Inv(s) && Agreed(s, x)
    ensures Agreed(WriteRunningStep(s, session), x)
  {
    assert x in s.bridges ==> BridgeSound(s, x, s.bridges[x]);
    hide Needs, FileSound, DaemonSound, ServerSound, KeyOf;
  }

  lemma CommitAgrees(s: Sys, session: string, x: string)
    requires Inv(s) && Agreed(s, x)
    ensures Agreed(CommitStep(s, session), x)
  {
    assert forall e :: Needs(Committing(e)) by { FreshStatuses(); }
    assert x in s.bridges ==> BridgeSound(s, x, s.bridges[x]);
    hide Inv, Needs, FileSound, DaemonSound, ServerSound, KeyOf;
  }

  lemma StageAgrees(s: Sys, session: string, ok: bool, x: string)
    requires Inv(s) && Agreed(s, x)
    ensures Agreed(StageStep(s, session, ok), x)
  {
    assert x in s.bridges ==> BridgeSound(s, x, s.bridges[x]);
    hide Needs, FileSound, DaemonSound, ServerSound, KeyOf;
  }

  lemma EnqueueAgrees(s: Sys, session: string, ok: bool, x: string)
    requires Inv(s) && Agreed(s, x)
    ensures Agreed(EnqueueStep(s, session, ok), x)
  {
    assert x in s.bridges ==> BridgeSound(s, x, s.bridges[x]);
    hide Needs, FileSound, DaemonSound, ServerSound, KeyOf;
  }

  lemma MarkAgrees(s: Sys, session: string, ok: bool, x: string)
    requires Inv(s) && Agreed(s, x)
    ensures Agreed(MarkStep(s, session, ok), x)
  {
    assert x in s.bridges ==> BridgeSound(s, x, s.bridges[x]);
    hide Needs, FileSound, DaemonSound, ServerSound, KeyOf;
  }

  lemma BridgeCrashAgrees(s: Sys, session: string, x: string)
    requires Inv(s) && Agreed(s, x)
    ensures Agreed(BridgeCrashStep(s, session), x)
  {
    assert x in s.bridges ==> BridgeSound(s, x, s.bridges[x]);
    hide Needs, FileSound, DaemonSound, ServerSound, KeyOf;
  }

  /** Neither bridges nor files change, and the daemon stays at the file it has, or at none. */
  predicate DaemonAlone(s: Sys, s': Sys) {
    && s'.bridges == s.bridges && s'.files == s.files
    && (s'.daemon.Idle?
        || (!s.daemon.Idle? && s'.daemon.session == s.daemon.session && s'.daemon.file == s.daemon.file))
  }

  lemma DaemonAgrees(s: Sys, s': Sys, x: string)
    requires Agreed(s, x) && DaemonAlone(s, s')
    requires forall e | Published(s, e) :: Published(s', e)
    ensures Agreed(s', x)
  {
    hide Needs, Published;
  }

  lemma InspectAgrees(s: Sys, session: string, scan: Scan, x: string)
    requires Inv(s) && Agreed(s, x)
    ensures Agreed(InspectStep(s, session, scan), x)
  {
    assert x in s.bridges ==> BridgeSound(s, x, s.bridges[x]);
    NeedsHasEvent(if x in s.files then s.files[x] else STARTING);
    hide Needs, FileSound, DaemonSound, ServerSound, KeyOf, Sees;
  }

  lemma MarkRequeuedAgrees(s: Sys, ok: bool, x: string)
    requires Inv(s) && Agreed(s, x)
    ensures Agreed(MarkRequeuedStep(s, ok), x)
  {
    assert DaemonSound(s);
    hide Needs, FileSound, ServerSound, KeyOf;
  }

  lemma SteadyDaemonStep(s: Sys, a: Action, x: string)
    requires Agreed(s, x)
    requires a.Restage? || a.Requeue? || a.DaemonCrash? || a.Drain? || a.Prune?
    ensures Agreed(Step(s, a), x)
  {
    hide Agreed, Published, Step;
    forall e | Published(s, e)
      ensures Published(Step(s, a), e)
    {
      StillPublished(s, a, e);
    }
    DaemonStepsAlone(s, a);
    DaemonAgrees(s, Step(s, a), x);
  }

  lemma RequeueAlone(s: Sys, ok: bool)
    ensures DaemonAlone(s, RestageStep(s, ok)) && DaemonAlone(s, RequeueStep(s, ok))
  {
  }

  lemma DrainAlone(s: Sys, i: nat, deleted: bool)
    ensures DaemonAlone(s, DrainStep(s, i, deleted))
  {
    hide KeyOf;
  }

  lemma DaemonStepsAlone(s: Sys, a: Action)
    requires a.Restage? || a.Requeue? || a.DaemonCrash? || a.Drain? || a.Prune?
    ensures DaemonAlone(s, Step(s, a))
  {
    hide LaunchStep, WriteRunningStep, CommitStep, StageStep, EnqueueStep, MarkStep, BridgeCrashStep, InspectStep,
      RestageStep, RequeueStep, MarkRequeuedStep, DrainStep;
    match a
    case Restage(ok) => RequeueAlone(s, ok);
    case Requeue(ok) => RequeueAlone(s, ok);
    case Drain(i, deleted) => DrainAlone(s, i, deleted);
    case _ =>
  }

  lemma SteadyStep(s: Sys, a: Action)
    requires Inv(s) && Steady(s) && Orderly(s, a)
    ensures Steady(Step(s, a))
  {
    hide Inv, LaunchStep, WriteRunningStep, CommitStep, StageStep, EnqueueStep, MarkStep, BridgeCrashStep,
      InspectStep, RestageStep, RequeueStep, MarkRequeuedStep, DaemonCrashStep, DrainStep, PruneStep;
    forall x
      ensures Agreed(Step(s, a), x)
    {
      assert Agreed(s, x);
      hide Agreed;
      match a
      case Launch(session, run) => LaunchAgrees(s, session, run, x);
      case WriteRunning(session) => WriteRunningAgrees(s, session, x);
      case Commit(session) => CommitAgrees(s, session, x);
      case Stage(session, ok) => StageAgrees(s, session, ok, x);
      case Enqueue(session, ok) => EnqueueAgrees(s, session, ok, x);
      case Mark(session, ok) => MarkAgrees(s, session, ok, x);
      case BridgeCrash(session) => BridgeCrashAgrees(s, session, x);
      case Inspect(session, scan) => InspectAgrees(s, session, scan, x);
      case MarkRequeued(ok) => MarkRequeuedAgrees(s, ok, x);
      case _ => SteadyDaemonStep(s, a, x);
    }
  }

  /**
   Over every orderly run, through any crash of a bridge or of the daemon and any failed enqueue or
   bookkeeping write, no committed stop is ever lost.
   */
  lemma {:induction false} StopsAreNeverLost(actions: seq<Action>)
    requires OrderlyRun(actions)
    ensures AllTracked(Run(actions)) && Steady(Run(actions))
  {
    if actions != [] {
      var n := |actions| - 1;
      hide Inv, AllTracked, Steady, Step, Orderly, Loses, Run;
      assert forall i | 0 <= i < n :: actions[..n][..i] == actions[..i];
      StopsAreNeverLost(actions[..n]);
      var s := Run(actions[..n]);
      InvRun(actions[..n]);
      SteadyLosesNothing(s, actions[n]);
      LossExactly(s, actions[n]);
      SteadyStep(s, actions[n]);
      RunLast(actions);
    }
  }

  lemma RunLast(actions: seq<Action>)
    requires actions != []
    ensures Run(actions) == Step(Run(actions[..|actions| - 1]), actions[|actions| - 1])
  {
  }

  lemma RunSnoc(actions: seq<Action>, a: Action)
    ensures Run(actions + [a]) == Step(Run(actions), a)
  {
    assert (actions + [a])[..|actions|] == actions;
  }

  /** With no bridge in between, a committed stop is on its way, there, or waiting on disk. */
  lemma StopIsOnDisk(actions: seq<Action>, e: Event)
    requires OrderlyRun(actions) && e in Run(actions).committed
    ensures DiskHas(Run(actions), e)
  {
    StopsAreNeverLost(actions);
    InvRun(actions);
    var s := Run(actions);
    hide Run, Needs;
    assert Tracked(s, e);
    if InHand(BridgeOf(s, e.session), e) {
      assert Agreed(s, e.session);
    }
  }

  // ---------------------------------------------------------------------------------------------
  // One tick
  // ---------------------------------------------------------------------------------------------

  function Copies(outbox: seq<Event>, key: string): nat {
    if outbox == [] then 0
    else Copies(outbox[..|outbox| - 1], key) + if KeyOf(outbox[|outbox| - 1]) == key then 1 else 0
  }

  lemma CopiesSnoc(outbox: seq<Event>, e: Event, key: string)
    ensures Copies(outbox + [e], key) == Copies(outbox, key) + if KeyOf(e) == key then 1 else 0
  {
    assert (outbox + [e])[..|outbox|] == outbox;
  }

  lemma {:induction false} CopiesHeld(outbox: seq<Event>, key: string)
    ensures Copies(outbox, key) > 0 <==> Held(outbox, key)
  {
    hide KeyOf;
    if outbox != [] {
      var n := |outbox| - 1;
      CopiesHeld(outbox[..n], key);
      assert outbox == outbox[..n] + [outbox[n]];
      assert Held(outbox, key) <==> Held(outbox[..n], key) || KeyOf(outbox[n]) == key;
    }
  }

  lemma {:induction false} CopiesAppend(a: seq<Event>, b: seq<Event>, key: string)
    ensures Copies(a + b, key) == Copies(a, key) + Copies(b, key)
  {
    hide KeyOf;
    if b == [] {
      assert a + b == a;
    } else {
      var n := |b| - 1;
      CopiesAppend(a, b[..n], key);
      assert a + b == (a + b[..n]) + [b[n]];
      CopiesSnoc(a + b[..n], b[n], key);
    }
  }

  lemma CopiesRemove(outbox: seq<Event>, i: nat, key: string)
    requires i < |outbox|
    ensures Copies(outbox[..i] + outbox[i + 1..], key) + (if KeyOf(outbox[i]) == key then 1 else 0) == Copies(outbox, key)
  {
    assert outbox == outbox[..i] + [outbox[i]] + outbox[i + 1..];
    hide KeyOf, Copies;
    CopiesAppend(outbox[..i] + [outbox[i]], outbox[i + 1..], key);
    CopiesAppend(outbox[..i], outbox[i + 1..], key);
    CopiesSnoc(outbox[..i], outbox[i], key);
  }

  /** What a scan reads is a temporary or a pending copy. */
  lemma SeesEither(outbox: seq<Event>, temps: multiset<Event>, scan: Scan, key: string)
    ensures Sees(outbox, temps, scan, key)
        <==> TemporaryStops(temps, scan, key) || TemporaryStops(multiset(outbox), scan, key)
    ensures TemporaryStops(multiset(outbox), scan, key) ==> Held(outbox, key)
  {
    hide KeyOf;
    assert forall e :: e in multiset(outbox) + temps <==> e in multiset(outbox) || e in temps;
    assert forall e :: e in multiset(outbox) <==> e in outbox;
  }

  datatype Disk = Disk(files: map<string, StateFile>, outbox: seq<Event>, temps: multiset<Event>)

  /** What the file system answers during one pass over one file. */
  datatype Turn = Turn(session: string, scan: Scan, staged: bool, enqueued: bool, marked: bool)

  /** One iteration of the reconciler: what changed on disk, and whether it counts. */
  function ReconcileOne(d: Disk, t: Turn): (Disk, nat) {
    if t.session !in d.files || !Needs(d.files[t.session]) then (d, 0)
    else
      var file := d.files[t.session];
      var e := file.event.value;
      if Sees(d.outbox, d.temps, t.scan, KeyOf(e)) || !t.staged then (d, 0)
      else if !t.enqueued then (d.(temps := d.temps + multiset{e}), 0)
      else
        (d.(files := if t.marked then d.files[t.session := file.(published := true)] else d.files,
            outbox := d.outbox + [e]), 1)
  }

  /** The same iteration as steps of the state machine, undisturbed. */
  function Tick(s: Sys, t: Turn): Sys {
    MarkRequeuedStep(RequeueStep(RestageStep(InspectStep(s, t.session, t.scan), t.staged), t.enqueued), t.marked)
  }

  function OnDisk(s: Sys): Disk {
    Disk(s.files, s.outbox, s.temps)
  }

  lemma IterationIsATick(s: Sys, t: Turn)
    requires s.daemon.Idle?
    ensures var (d, _) := ReconcileOne(OnDisk(s), t);
      Tick(s, t) == s.(files := d.files, outbox := d.outbox, temps := d.temps)
  {
    NeedsHasEvent(if t.session in s.files then s.files[t.session] else STARTING);
    hide Needs, KeyOf, Sees;
    hide RestageStep, RequeueStep, MarkRequeuedStep;
    var s1 := InspectStep(s, t.session, t.scan);
    if s1.daemon.Checked? {
      CheckedTick(s, t);
    } else {
      IdleTick(s, t);
    }
  }

  lemma IdleTick(s: Sys, t: Turn)
    requires s.daemon.Idle?
    ensures MarkRequeuedStep(RequeueStep(RestageStep(s, t.staged), t.enqueued), t.marked) == s
  {
  }

  /** The rest of a tick whose check has passed. */
  lemma CheckedTick(s: Sys, t: Turn)
    requires s.daemon.Idle? && t.session in s.files && s.files[t.session].event.Some?
    ensures var file := s.files[t.session];
      var e := file.event.value;
      MarkRequeuedStep(RequeueStep(RestageStep(s.(daemon := Checked(t.session, file)), t.staged), t.enqueued), t.marked)
      == if !t.staged then s
         else if !t.enqueued then s.(temps := s.temps + multiset{e})
         else s.(files := if t.marked then s.files[t.session := file.(published := true)] else s.files,
                 outbox := s.outbox + [e])
  {
    var file := s.files[t.session];
    var e := file.event.value;
    assert s.temps + multiset{e} - multiset{e} == s.temps;
    var s2 := RestageStep(s.(daemon := Checked(t.session, file)), t.staged);
    assert t.staged ==> s2 == s.(daemon := Restaged(t.session, file), temps := s.temps + multiset{e});
    var s3 := RequeueStep(s2, t.enqueued);
    assert t.staged && t.enqueued ==> s3 == s.(daemon := Queued(t.session, file), outbox := s.outbox + [e]);
  }

  /** A file of this session is due, with this key. */
  predicate Due(files: map<string, StateFile>, session: string, key: string) {
    session in files && Needs(files[session]) && KeyOf(files[session].event.value) == key
  }

  /** The iteration reaches its rename, of an event with this key. */
  predicate Adds(d: Disk, t: Turn, key: string) {
    Due(d.files, t.session, key) && t.staged && t.enqueued && !Sees(d.outbox, d.temps, t.scan, key)
  }

  /** The iteration could enqueue this key, and no temporary stops its scan. */
  predicate Delivers(d: Disk, t: Turn, key: string) {
    Due(d.files, t.session, key) && t.staged && t.enqueued && !TemporaryStops(d.temps, t.scan, key)
  }

  /** What one iteration does to the copies of a key. */
  lemma OneCopies(d: Disk, t: Turn, key: string)
    ensures var after := ReconcileOne(d, t).0;
      Copies(after.outbox, key) == Copies(d.outbox, key) + if Adds(d, t, key) then 1 else 0
  {
    if t.session in d.files && Needs(d.files[t.session]) {
      CopiesSnoc(d.outbox, d.files[t.session].event.value, key);
    }
    hide Needs, KeyOf, Sees, Copies;
  }

  /** One iteration leaves a key pending if it was, or if it delivers it. */
  lemma OneDelivers(d: Disk, t: Turn, key: string)
    ensures Held(ReconcileOne(d, t).0.outbox, key) <==> Held(d.outbox, key) || Delivers(d, t, key)
  {
    hide Needs, KeyOf, Sees, TemporaryStops, Copies, Held, ReconcileOne;
    OneCopies(d, t, key);
    CopiesHeld(d.outbox, key);
    CopiesHeld(ReconcileOne(d, t).0.outbox, key);
    SeesEither(d.outbox, d.temps, t.scan, key);
  }

  /** An iteration adds a copy to pending ones only if its scan could read none of them. */
  lemma AddsUnread(d: Disk, t: Turn, key: string)
    requires Adds(d, t, key) && Held(d.outbox, key)
    ensures t.scan.Unlisted? || (forall e | e in d.outbox && KeyOf(e) == key :: e in t.scan.unread)
  {
    hide KeyOf, Needs;
    assert forall e :: e in d.outbox ==> e in multiset(d.outbox) + d.temps;
  }

  /**
   A tick over a file that needs it leaves the stop in the outbox if and only if it was there already,
   or could be enqueued and the scan did not stop at a temporary, which the drain never posts.
   */
  lemma TickPublishes(s: Sys, t: Turn)
    requires s.daemon.Idle? && t.session in s.files && Needs(s.files[t.session])
    ensures var key := KeyOf(s.files[t.session].event.value);
      Held(Tick(s, t).outbox, key)
      <==> Held(s.outbox, key) || (t.staged && t.enqueued && !TemporaryStops(s.temps, t.scan, key))
  {
    NeedsHasEvent(s.files[t.session]);
    hide Needs, KeyOf, Held, TemporaryStops, Tick, ReconcileOne;
    IterationIsATick(s, t);
    OneDelivers(OnDisk(s), t, KeyOf(s.files[t.session].event.value));
  }

  /**
   A tick makes a second pending copy of a key if and only if the key is pending and the tick enqueues
   it all the same: its scan read neither a pending copy nor a temporary.
   */
  lemma TickCopiesExactly(s: Sys, t: Turn, key: string)
    requires s.daemon.Idle?
    ensures Copies(Tick(s, t).outbox, key) > Copies(s.outbox, key) && Copies(Tick(s, t).outbox, key) >= 2
        <==> Held(s.outbox, key) && Adds(OnDisk(s), t, key)
  {
    hide Copies, Held, Tick, ReconcileOne, Adds;
    IterationIsATick(s, t);
    OneCopies(OnDisk(s), t, key);
    CopiesHeld(s.outbox, key);
  }

  /** With a scan that can read the outbox, a tick makes no second copy. */
  lemma TickAddsNoSecondCopy(s: Sys, t: Turn, key: string)
    requires s.daemon.Idle? && t.scan == Listed({})
    ensures Copies(Tick(s, t).outbox, key) <= Copies(s.outbox, key) || Copies(Tick(s, t).outbox, key) == 1
  {
    TickCopiesExactly(s, t, key);
    hide Copies, Tick, Adds, KeyOf;
    if Held(s.outbox, key) && Adds(OnDisk(s), t, key) {
      AddsUnread(OnDisk(s), t, key);
    }
  }

  // ---------------------------------------------------------------------------------------------
  // Second copies
  // ---------------------------------------------------------------------------------------------

  function RunFrom(s: Sys, actions: seq<Action>): Sys
    decreases |actions|
  {
    if actions == [] then s else RunFrom(Step(s, actions[0]), actions[1..])
  }

  /** A bridge enqueues an event with this key. */
  predicate EnqueuesKey(s: Sys, a: Action, key: string) {
    match a
    case Enqueue(session, ok) =>
      && ok && BridgeOf(s, session).Staged? && BridgeOf(s, session).event in s.temps
      && KeyOf(BridgeOf(s, session).event) == key
    case _ => false
  }

  /** The drain deletes an entry with this key. */
  predicate DeletesKey(s: Sys, a: Action, key: string) {
    match a
    case Drain(i, deleted) => deleted && i < |s.outbox| && KeyOf(s.outbox[i]) == key
    case _ => false
  }

  function Enqueues(s: Sys, actions: seq<Action>, key: string): nat
    decreases |actions|
  {
    if actions == [] then 0
    else (if EnqueuesKey(s, actions[0], key) then 1 else 0) + Enqueues(Step(s, actions[0]), actions[1..], key)
  }

  function Deletes(s: Sys, actions: seq<Action>, key: string): nat
    decreases |actions|
  {
    if actions == [] then 0
    else (if DeletesKey(s, actions[0], key) then 1 else 0) + Deletes(Step(s, actions[0]), actions[1..], key)
  }

  lemma CopiesStep(s: Sys, a: Action, key: string)
    requires !a.Requeue?
    ensures Copies(Step(s, a).outbox, key) + (if DeletesKey(s, a, key) then 1 else 0)
         == Copies(s.outbox, key) + (if EnqueuesKey(s, a, key) then 1 else 0)
  {
    hide KeyOf, Copies, Sees, Needs;
    match a
    case Drain(i, deleted) =>
      if i < |s.outbox| {
        CopiesRemove(s.outbox, i, key);
      }
    case Enqueue(session, ok) =>
      if BridgeOf(s, session).Staged? {
        CopiesSnoc(s.outbox, BridgeOf(s, session).event, key);
      }
    case _ =>
  }

  /** While the reconciler is between its check and its rename. */
  predicate LeavesDaemon(a: Action) {
    !a.Requeue? && !a.MarkRequeued? && !a.DaemonCrash? && a != Restage(false)
  }

  predicate At(d: Daemon, session: string, file: StateFile) {
    d == Checked(session, file) || d == Restaged(session, file)
  }

  lemma StaysAt(s: Sys, a: Action, session: string, file: StateFile)
    requires At(s.daemon, session, file) && LeavesDaemon(a)
    ensures At(Step(s, a).daemon, session, file)
  {
    hide Needs, KeyOf, Sees;
  }

  lemma {:induction false} CopiesBalance(s: Sys, actions: seq<Action>, key: string, session: string, file: StateFile)
    requires At(s.daemon, session, file) && forall a | a in actions :: LeavesDaemon(a)
    ensures At(RunFrom(s, actions).daemon, session, file)
    ensures Copies(RunFrom(s, actions).outbox, key) + Deletes(s, actions, key)
         == Copies(s.outbox, key) + Enqueues(s, actions, key)
    decreases |actions|
  {
    if actions != [] {
      assert LeavesDaemon(actions[0]);
      StaysAt(s, actions[0], session, file);
      CopiesStep(s, actions[0], key);
      hide Step, Copies, EnqueuesKey, DeletesKey, At;
      CopiesBalance(Step(s, actions[0]), actions[1..], key, session, file);
    }
  }

  /**
   In every state and for everything that happens between the reconciler's check of a file and its
   rename: it makes a second pending copy if and only if the copies the check did not see, and those
   bridges enqueued in between, are more than those the drain deleted in between.
   */
  lemma SecondCopyExactly(s: Sys, session: string, scan: Scan, between: seq<Action>)
    requires s.daemon.Idle? && InspectStep(s, session, scan).daemon.Checked?
    requires forall a | a in between :: LeavesDaemon(a)
    requires RunFrom(InspectStep(s, session, scan), between).daemon.Restaged?
    requires s.files[session].event.value in RunFrom(InspectStep(s, session, scan), between).temps
    ensures var checked := InspectStep(s, session, scan);
      var key := KeyOf(s.files[session].event.value);
      Copies(RequeueStep(RunFrom(checked, between), true).outbox, key) >= 2
      <==> Copies(s.outbox, key) + Enqueues(checked, between, key) > Deletes(checked, between, key)
  {
    var checked := InspectStep(s, session, scan);
    NeedsHasEvent(s.files[session]);
    var e := s.files[session].event.value;
    hide Needs, KeyOf, Sees, Copies, Enqueues, Deletes, RunFrom;
    CopiesBalance(checked, between, KeyOf(e), session, s.files[session]);
    CopiesSnoc(RunFrom(checked, between).outbox, e, KeyOf(e));
  }

  /** A check passes over pending copies only if its scan could read none of them. */
  lemma CheckedMeansUnread(s: Sys, session: string, scan: Scan)
    requires s.daemon.Idle? && InspectStep(s, session, scan).daemon.Checked?
    ensures var key := KeyOf(s.files[session].event.value);
      scan.Unlisted? || (forall e | e in s.outbox && KeyOf(e) == key :: e in scan.unread)
  {
    NeedsHasEvent(s.files[session]);
    hide Needs, KeyOf;
    assert forall e :: e in s.outbox ==> e in multiset(s.outbox) + s.temps;
  }

  lemma RunSeven(a: Action, b: Action, c: Action, d: Action, e: Action, f: Action, g: Action)
    ensures Run([a, b, c, d, e, f, g]) == Step(Step(Step(Step(Step(Run([a, b]), c), d), e), f), g)
  {
    hide Run, Step;
    RunFour([a, b], c, d, e, f);
    RunSnoc([a, b] + [c, d, e, f], g);
    assert [a, b] + [c, d, e, f] + [g] == [a, b, c, d, e, f, g];
  }

  lemma RunEight(a: Action, b: Action, c: Action, d: Action, e: Action, f: Action, g: Action, h: Action)
    ensures Run([a, b, c, d, e, f, g, h]) == Step(Step(Step(Step(Step(Step(Run([a, b]), c), d), e), f), g), h)
  {
    hide Run, Step;
    RunSeven(a, b, c, d, e, f, g);
    RunSnoc([a, b, c, d, e, f, g], h);
    assert [a, b, c, d, e, f, g] + [h] == [a, b, c, d, e, f, g, h];
  }

  /** Between the reconciler's check and its rename, the bridge's own enqueue makes a second copy. */
  lemma InterruptedTickCopiesTwice(session: string, run: Option<string>)
    ensures var e := Event(session, run);
      Run([Launch(session, run), Commit(session), Inspect(session, Listed({})), Stage(session, true),
           Enqueue(session, true), Restage(true), Requeue(true)]).outbox == [e, e]
  {
    CommittedRun(session, run);
    CheckThenBridgeRun(Event(session, run));
    hide Run, Needs, Committing, FirstStop, Step;
    RunSeven(Launch(session, run), Commit(session), Inspect(session, Listed({})), Stage(session, true),
      Enqueue(session, true), Restage(true), Requeue(true));
  }

  lemma CheckThenBridgeRun(e: Event)
    requires Needs(Committing(e))
    ensures var s4 := Step(Step(FirstStop(e), Inspect(e.session, Listed({}))), Stage(e.session, true));
      Step(Step(Step(s4, Enqueue(e.session, true)), Restage(true)), Requeue(true)).outbox == [e, e]
  {
    CheckThenBridge(e);
    hide LaunchStep, WriteRunningStep, CommitStep, StageStep, EnqueueStep, MarkStep, BridgeCrashStep,
      InspectStep, RestageStep, RequeueStep, MarkRequeuedStep, DaemonCrashStep, DrainStep, PruneStep;
    hide Step, Needs, Committing, FirstStop;
    StepsAre(FirstStop(e), e.session, Listed({}));
    var s3 := InspectStep(FirstStop(e), e.session, Listed({}));
    StepsAre(s3, e.session, Listed({}));
    var s4 := StageStep(s3, e.session, true);
    StepsAre(s4, e.session, Listed({}));
    var s5 := EnqueueStep(s4, e.session, true);
    StepsAre(s5, e.session, Listed({}));
    StepsAre(RestageStep(s5, true), e.session, Listed({}));
  }

  lemma StepsAre(s: Sys, session: string, scan: Scan)
    ensures Step(s, Stage(session, true)) == StageStep(s, session, true)
    ensures Step(s, Enqueue(session, true)) == EnqueueStep(s, session, true)
    ensures Step(s, BridgeCrash(session)) == BridgeCrashStep(s, session)
    ensures Step(s, Inspect(session, scan)) == InspectStep(s, session, scan)
    ensures Step(s, Restage(true)) == RestageStep(s, true)
    ensures Step(s, Requeue(true)) == RequeueStep(s, true)
  {
    hide LaunchStep, WriteRunningStep, CommitStep, StageStep, EnqueueStep, MarkStep, BridgeCrashStep,
      InspectStep, RestageStep, RequeueStep, MarkRequeuedStep, DaemonCrashStep, DrainStep, PruneStep;
  }

  lemma CheckThenBridge(e: Event)
    requires Needs(Committing(e))
    ensures var s4 := StageStep(InspectStep(FirstStop(e), e.session, Listed({})), e.session, true);
      RequeueStep(RestageStep(EnqueueStep(s4, e.session, true), true), true).outbox == [e, e]
  {
    CheckOfFirstStop(e);
    hide Needs, InspectStep;
    var s3 := InspectStep(FirstStop(e), e.session, Listed({}));
    var s4 := StageStep(s3, e.session, true);
    assert s4.temps == multiset{e} && s4.outbox == [];
    var s5 := EnqueueStep(s4, e.session, true);
    assert s5.outbox == [e] && s5.temps == multiset{} && s5.daemon == s3.daemon;
    RequeueAppends(s5, e);
  }

  lemma CheckOfFirstStop(e: Event)
    requires Needs(Committing(e))
    ensures InspectStep(FirstStop(e), e.session, Listed({})) == FirstStop(e).(daemon := Checked(e.session, Committing(e)))
  {
    assert !Sees([], multiset{}, Listed({}), KeyOf(e));
    hide Needs, KeyOf, Sees;
  }

  lemma RequeueAppends(s: Sys, e: Event)
    requires s.daemon == Checked(e.session, Committing(e))
    ensures RequeueStep(RestageStep(s, true), true).outbox == s.outbox + [e]
  {
    var s' := RestageStep(s, true);
    assert s'.temps == s.temps + multiset{e};
  }

  /** The bridge enqueues its stop and dies before marking the file; a check cannot list the outbox. */
  lemma UnreadableScanCopiesTwice(session: string, run: Option<string>)
    ensures var e := Event(session, run);
      Run([Launch(session, run), Commit(session), Stage(session, true), Enqueue(session, true), BridgeCrash(session),
           Inspect(session, Unlisted), Restage(true), Requeue(true)]).outbox == [e, e]
  {
    CommittedRun(session, run);
    BridgeThenCheckRun(Event(session, run));
    hide Run, Needs, Committing, FirstStop, Step;
    RunEight(Launch(session, run), Commit(session), Stage(session, true), Enqueue(session, true),
      BridgeCrash(session), Inspect(session, Unlisted), Restage(true), Requeue(true));
  }

  lemma BridgeThenCheckRun(e: Event)
    requires Needs(Committing(e))
    ensures var s4 := Step(Step(FirstStop(e), Stage(e.session, true)), Enqueue(e.session, true));
      var s6 := Step(Step(s4, BridgeCrash(e.session)), Inspect(e.session, Unlisted));
      Step(Step(s6, Restage(true)), Requeue(true)).outbox == [e, e]
  {
    BridgeThenCheck(e);
    hide LaunchStep, WriteRunningStep, CommitStep, StageStep, EnqueueStep, MarkStep, BridgeCrashStep,
      InspectStep, RestageStep, RequeueStep, MarkRequeuedStep, DaemonCrashStep, DrainStep, PruneStep;
    hide Step, Needs, Committing, FirstStop;
    StepsAre(FirstStop(e), e.session, Unlisted);
    var s3 := StageStep(FirstStop(e), e.session, true);
    StepsAre(s3, e.session, Unlisted);
    var s4 := EnqueueStep(s3, e.session, true);
    StepsAre(s4, e.session, Unlisted);
    var s5 := BridgeCrashStep(s4, e.session);
    StepsAre(s5, e.session, Unlisted);
    var s6 := InspectStep(s5, e.session, Unlisted);
    StepsAre(s6, e.session, Unlisted);
    StepsAre(RestageStep(s6, true), e.session, Unlisted);
  }

  lemma BridgeThenCheck(e: Event)
    requires Needs(Committing(e))
    ensures var s5 := BridgeCrashStep(EnqueueStep(StageStep(FirstStop(e), e.session, true), e.session, true), e.session);
      RequeueStep(RestageStep(InspectStep(s5, e.session, Unlisted), true), true).outbox == [e, e]
  {
    hide Needs, KeyOf;
    var s3 := StageStep(FirstStop(e), e.session, true);
    assert s3.temps == multiset{e};
    var s5 := BridgeCrashStep(EnqueueStep(s3, e.session, true), e.session);
    assert s5.outbox == [e] && s5.temps == multiset{} && s5.files == FirstStop(e).files && s5.daemon == Idle;
    assert !Sees(s5.outbox, s5.temps, Unlisted, KeyOf(e));
    hide Sees;
    var s6 := InspectStep(s5, e.session, Unlisted);
    assert s6.daemon == Checked(e.session, Committing(e)) && s6.outbox == [e];
    RequeueAppends(s6, e);
  }

  /**
   A bridge killed between writing the temporary and renaming it: until the temporary is pruned, every
   tick over the session that can read the outbox changes nothing, and the stop is nowhere pending.
   */
  lemma TemporaryHidesStop(session: string, run: Option<string>, t: Turn)
    requires t.session == session && t.scan == Listed({})
    ensures var s := Run([Launch(session, run), Commit(session), Stage(session, true), BridgeCrash(session)]);
      && Event(session, run) in s.committed && !Published(s, Event(session, run))
      && s.daemon.Idle? && Tick(s, t) == s
  {
    CommittedRun(session, run);
    var e := Event(session, run);
    KilledWhileStaging(e, t);
    StepsAre(FirstStop(e), session, Unlisted);
    StepsAre(StageStep(FirstStop(e), session, true), session, Unlisted);
    hide Run, Step, Needs, Committing, FirstStop, StageStep, BridgeCrashStep, Tick;
    RunTwoMore(Launch(session, run), Commit(session), Stage(session, true), BridgeCrash(session));
  }

  lemma RunTwoMore(a: Action, b: Action, c: Action, d: Action)
    ensures Run([a, b, c, d]) == Step(Step(Run([a, b]), c), d)
  {
    hide Run, Step;
    RunSnoc([a, b], c);
    RunSnoc([a, b] + [c], d);
    assert [a, b] + [c] + [d] == [a, b, c, d];
  }

  lemma KilledWhileStaging(e: Event, t: Turn)
    requires t.session == e.session && t.scan == Listed({})
    ensures var s := BridgeCrashStep(StageStep(FirstStop(e), e.session, true), e.session);
      e in s.committed && !Published(s, e) && s.daemon.Idle? && Tick(s, t) == s
  {
    var s := BridgeCrashStep(StageStep(FirstStop(e), e.session, true), e.session);
    hide Needs, KeyOf;
    assert e in multiset(s.outbox) + s.temps;
    assert Sees(s.outbox, s.temps, Listed({}), KeyOf(e));
    hide Sees;
  }

  /** The state after a first launch and its stop. */
  function FirstStop(e: Event): Sys {
    INITIAL.(files := map[e.session := Committing(e)], bridges := map[e.session := Committed(e)], committed := {e})
  }

  lemma CommittedRun(session: string, run: Option<string>)
    ensures var e := Event(session, run);
      && Run([Launch(session, run), Commit(session)]) == FirstStop(e)
      && Needs(Committing(e))
  {
    var e := Event(session, run);
    CommittingNeeds(e);
    assert Run([]) == INITIAL;
    hide Run, Needs, Committing, FirstStop, LaunchStep, CommitStep;
    RunSnoc([], Launch(session, run));
    RunSnoc([] + [Launch(session, run)], Commit(session));
    assert [] + [Launch(session, run)] + [Commit(session)] == [Launch(session, run), Commit(session)];
    LaunchAndCommit(e);
  }

  lemma CommittingNeeds(e: Event)
    ensures Needs(Committing(e))
  {
    FreshStatuses();
  }

  lemma LaunchAndCommit(e: Event)
    ensures CommitStep(LaunchStep(INITIAL, e.session, e.run), e.session) == FirstStop(e)
  {
    hide Committing;
    var s1 := LaunchStep(INITIAL, e.session, e.run);
    assert s1.bridges == map[e.session := Running(e.run)];
    assert s1.files == map[e.session := STARTING];
    var s2 := CommitStep(s1, e.session);
    assert s2.files == map[e.session := Committing(e)];
    assert s2.bridges == map[e.session := Committed(e)];
  }

  /** Relaunching a session whose bridge died before publishing its stop loses that stop for good. */
  lemma RelaunchLosesUnpublishedStop(session: string, run: Option<string>, next: Option<string>)
    requires run != next
    ensures var s := Run([Launch(session, run), Commit(session), BridgeCrash(session), Launch(session, next)]);
      Event(session, run) in s.committed && !Tracked(s, Event(session, run))
  {
    RelaunchLoses(Event(session, run), next);
    CommittedRun(session, run);
    hide LaunchStep, WriteRunningStep, CommitStep, StageStep, EnqueueStep, MarkStep, BridgeCrashStep,
      InspectStep, RestageStep, RequeueStep, MarkRequeuedStep, DaemonCrashStep, DrainStep, PruneStep;
    hide Run, Needs, Committing, FirstStop;
    var r2 := [Launch(session, run), Commit(session)];
    RunSnoc(r2, BridgeCrash(session));
    RunSnoc(r2 + [BridgeCrash(session)], Launch(session, next));
    assert r2 + [BridgeCrash(session)] + [Launch(session, next)]
        == [Launch(session, run), Commit(session), BridgeCrash(session), Launch(session, next)];
  }

  lemma RelaunchLoses(e: Event, next: Option<string>)
    requires e.run != next
    ensures var s := LaunchStep(BridgeCrashStep(FirstStop(e), e.session), e.session, next);
      e in s.committed && !Tracked(s, e)
  {
    FreshStatuses();
    hide Needs, Committing;
  }

  /** A launch overwrites the session's file; neither that file nor the running bridge's is ever due. */
  lemma LaunchedFileIsNotDue(s: Sys, session: string, run: Option<string>)
    requires BridgeOf(s, session).Down?
    ensures var s1 := LaunchStep(s, session, run);
      var s2 := WriteRunningStep(s1, session);
      && s1.files == s.files[session := StateFile("starting", false, None)]
      && s2.files == s.files[session := StateFile("running", false, None)]
      && BridgeOf(s2, session) == Running(run)
      && !Needs(s1.files[session]) && !Needs(s2.files[session])
  {
    assert s.files[session := STARTING][session := RUNNING] == s.files[session := RUNNING];
  }

  // ---------------------------------------------------------------------------------------------
  // Marked means done
  // ---------------------------------------------------------------------------------------------

  /** The session's file says that this was published, its bridge is gone and the reconciler is elsewhere. */
  predicate AtRest(s: Sys, session: string, file: StateFile) {
    && session in s.files && s.files[session] == file && file.published
    && BridgeOf(s, session).Down? && !Busy(s.daemon, session)
  }

  lemma BridgesLeaveItAtRest(s: Sys, a: Action, session: string, file: StateFile)
    requires AtRest(s, session, file) && !(a.Launch? && a.session == session)
    requires a.Launch? || a.WriteRunning? || a.Commit? || a.Stage? || a.Enqueue? || a.Mark? || a.BridgeCrash?
    ensures AtRest(Step(s, a), session, file)
  {
  }

  lemma InspectLeavesItAtRest(s: Sys, x: string, scan: Scan, session: string, file: StateFile)
    requires AtRest(s, session, file)
    ensures AtRest(InspectStep(s, x, scan), session, file)
  {
    assert !Needs(file);
    hide Needs, KeyOf, Sees;
  }

  lemma ReconcilerLeavesItAtRest(s: Sys, a: Action, session: string, file: StateFile)
    requires AtRest(s, session, file)
    requires a.Restage? || a.Requeue? || a.MarkRequeued? || a.DaemonCrash? || a.Drain? || a.Prune?
    ensures AtRest(Step(s, a), session, file)
  {
    hide KeyOf;
  }

  /** Until the session is launched again nothing changes its file, and the reconciler never takes it up. */
  lemma {:induction false} StaysAtRest(s: Sys, after: seq<Action>, session: string, file: StateFile)
    requires AtRest(s, session, file)
    requires forall a | a in after :: !(a.Launch? && a.session == session)
    ensures AtRest(RunFrom(s, after), session, file)
    decreases |after|
  {
    if after != [] {
      var a := after[0];
      match a {
        case Inspect(x, scan) => InspectLeavesItAtRest(s, x, scan, session, file);
        case Restage(_) => ReconcilerLeavesItAtRest(s, a, session, file);
        case Requeue(_) => ReconcilerLeavesItAtRest(s, a, session, file);
        case MarkRequeued(_) => ReconcilerLeavesItAtRest(s, a, session, file);
        case DaemonCrash => ReconcilerLeavesItAtRest(s, a, session, file);
        case Drain(_, _) => ReconcilerLeavesItAtRest(s, a, session, file);
        case Prune(_) => ReconcilerLeavesItAtRest(s, a, session, file);
        case _ => BridgesLeaveItAtRest(s, a, session, file);
      }
      hide AtRest, InspectStep;
      assert AtRest(Step(s, a), session, file);
      hide Step;
      StaysAtRest(Step(s, a), after[1..], session, file);
    }
  }

  /**
   A bridge that has enqueued its stop and marks its file while the reconciler is elsewhere is done: over
   every continuation until the session's next launch the file stays marked and the reconciler never
   takes the session up, so that it never posts the stop again.
   */
  lemma MarkedIsNeverReposted(actions: seq<Action>, session: string, after: seq<Action>)
    requires BridgeOf(Run(actions), session).Marking? && !Busy(Run(actions).daemon, session)
    requires forall a | a in after :: !(a.Launch? && a.session == session)
    ensures var s := Run(actions);
      var s' := RunFrom(MarkStep(s, session, true), after);
      && Published(s, BridgeOf(s, session).event)
      && session in s'.files && s'.files[session] == StateFile("stopped", true, Some(BridgeOf(s, session).event))
      && !Busy(s'.daemon, session)
  {
    InvRun(actions);
    var s := Run(actions);
    assert BridgeSound(s, session, s.bridges[session]);
    hide Run, Inv, RunFrom;
    StaysAtRest(MarkStep(s, session, true), after, session, Committing(BridgeOf(s, session).event).(published := true));
  }

  /** The same for a file that the reconciler marks once the bridge is gone. */
  lemma ReconciledIsNeverReposted(actions: seq<Action>, after: seq<Action>)
    requires Run(actions).daemon.Queued? && BridgeOf(Run(actions), Run(actions).daemon.session).Down?
    requires forall a | a in after :: !(a.Launch? && a.session == Run(actions).daemon.session)
    ensures var s := Run(actions);
      var session, file := s.daemon.session, s.daemon.file;
      var s' := RunFrom(MarkRequeuedStep(s, true), after);
      && file.event.Some? && Published(s, file.event.value)
      && session in s'.files && s'.files[session] == file.(published := true)
      && !Busy(s'.daemon, session)
  {
    InvRun(actions);
    var s := Run(actions);
    assert DaemonSound(s);
    hide Run, Inv, RunFrom;
    StaysAtRest(MarkRequeuedStep(s, true), after, s.daemon.session, s.daemon.file.(published := true));
  }

  // ---------------------------------------------------------------------------------------------
  // Exactly once in effect
  // ---------------------------------------------------------------------------------------------

  predicate IsProper(run: Option<string>) {
    run.Some? && ':' !in run.value && !IsBlank(run.value)
  }

  /** Two launches whose keys tell them apart: by their sessions, or by runs without colons. */
  predicate Apart(a: Action, b: Action)
    requires a.Launch? && b.Launch?
  {
    !SessionsClash(a.session, b.session) || (IsProper(a.run) && IsProper(b.run))
  }

  predicate LaunchesApart(actions: seq<Action>) {
    forall a, b | a in actions && b in actions && a.Launch? && b.Launch? :: Apart(a, b)
  }

  /** Launching accepts UUIDs only, in any of their spellings: then all launches are apart. */
  lemma AcceptedLaunchesAreApart(actions: seq<Action>)
    requires forall a | a in actions && a.Launch? :: IsUuidText(a.session)
    ensures LaunchesApart(actions)
  {
    hide IsUuidText, SessionsClash, IsProper;
    forall a, b | a in actions && b in actions && a.Launch? && b.Launch?
      ensures Apart(a, b)
    {
      UuidsNeverClash(a.session, b.session);
    }
  }

  /** What the server has for a key is the first event it was sent with it, from then on. */
  lemma ServerKeepsTheFirst(s: Sys, a: Action, key: string)
    ensures key in s.server ==> key in Step(s, a).server && Step(s, a).server[key] == s.server[key]
    ensures key !in s.server && key in Step(s, a).server ==>
              a.Drain? && a.i < |s.outbox| && Step(s, a).server[key] == s.outbox[a.i]
  {
    hide Needs, KeyOf, Sees;
  }

  /** What bridges hold and commit was launched. */
  ghost predicate Launched(s: Sys, actions: seq<Action>) {
    && (forall x | x in s.bridges && s.bridges[x].Running? :: Launch(x, s.bridges[x].run) in actions)
    && (forall e | e in s.committed :: Launch(e.session, e.run) in actions)
  }

  /** What any step does to a bridge and to the record of commits. */
  predicate OnBridges(s: Sys, s': Sys, a: Action, x: string) {
    && s.committed <= s'.committed
    && (BridgeOf(s', x).Running? ==> BridgeOf(s, x) == BridgeOf(s', x) || a == Launch(x, BridgeOf(s', x).run))
    && (BridgeOf(s, x).Down? ==> BridgeOf(s', x).Down? || (a.Launch? && a.session == x))
    && (forall e | e in s'.committed :: e in s.committed || BridgeOf(s, e.session) == Running(e.run))
  }

  lemma LaunchOnBridges(s: Sys, session: string, run: Option<string>, x: string)
    ensures OnBridges(s, LaunchStep(s, session, run), Launch(session, run), x)
    ensures OnBridges(s, WriteRunningStep(s, session), WriteRunning(session), x)
  {
  }

  lemma CommitOnBridges(s: Sys, session: string, x: string)
    ensures OnBridges(s, CommitStep(s, session), Commit(session), x)
    ensures OnBridges(s, BridgeCrashStep(s, session), BridgeCrash(session), x)
  {
  }

  lemma StageOnBridges(s: Sys, session: string, ok: bool, x: string)
    ensures OnBridges(s, StageStep(s, session, ok), Stage(session, ok), x)
  {
  }

  lemma EnqueueOnBridges(s: Sys, session: string, ok: bool, x: string)
    ensures OnBridges(s, EnqueueStep(s, session, ok), Enqueue(session, ok), x)
  {
  }

  lemma MarkOnBridges(s: Sys, session: string, ok: bool, x: string)
    ensures OnBridges(s, MarkStep(s, session, ok), Mark(session, ok), x)
  {
  }

  lemma InspectOnBridges(s: Sys, session: string, scan: Scan, x: string)
    ensures OnBridges(s, InspectStep(s, session, scan), Inspect(session, scan), x)
  {
    hide Needs, KeyOf, Sees;
  }

  lemma RequeueOnBridges(s: Sys, ok: bool, x: string)
    ensures OnBridges(s, RestageStep(s, ok), Restage(ok), x)
    ensures OnBridges(s, RequeueStep(s, ok), Requeue(ok), x)
    ensures OnBridges(s, MarkRequeuedStep(s, ok), MarkRequeued(ok), x)
  {
  }

  lemma DrainOnBridges(s: Sys, i: nat, deleted: bool, x: string)
    ensures OnBridges(s, DrainStep(s, i, deleted), Drain(i, deleted), x)
  {
    hide KeyOf;
  }

  lemma StepOnBridges(s: Sys, a: Action, x: string)
    ensures OnBridges(s, Step(s, a), a, x)
  {
    hide LaunchStep, WriteRunningStep, CommitStep, StageStep, EnqueueStep, MarkStep, BridgeCrashStep,
      InspectStep, RestageStep, RequeueStep, MarkRequeuedStep, DrainStep;
    match a
    case Launch(session, run) => LaunchOnBridges(s, session, run, x);
    case WriteRunning(session) => LaunchOnBridges(s, session, None, x);
    case Commit(session) => CommitOnBridges(s, session, x);
    case Stage(session, ok) => StageOnBridges(s, session, ok, x);
    case Enqueue(session, ok) => EnqueueOnBridges(s, session, ok, x);
    case Mark(session, ok) => MarkOnBridges(s, session, ok, x);
    case BridgeCrash(session) => CommitOnBridges(s, session, x);
    case Inspect(session, scan) => InspectOnBridges(s, session, scan, x);
    case Restage(ok) => RequeueOnBridges(s, ok, x);
    case Requeue(ok) => RequeueOnBridges(s, ok, x);
    case MarkRequeued(ok) => RequeueOnBridges(s, ok, x);
    case Drain(i, deleted) => DrainOnBridges(s, i, deleted, x);
    case _ =>
  }

  lemma LaunchedStep(s: Sys, a: Action, before: seq<Action>)
    requires Launched(s, before)
    ensures Launched(Step(s, a), before + [a])
  {
    hide Step;
    forall x
      ensures OnBridges(s, Step(s, a), a, x)
    {
      StepOnBridges(s, a, x);
    }
    assert OnBridges(s, Step(s, a), a, "");
    assert forall x | x in Step(s, a).bridges :: OnBridges(s, Step(s, a), a, x);
  }

  lemma {:induction false} LaunchedRun(actions: seq<Action>)
    ensures Launched(Run(actions), actions)
  {
    if actions == [] {
      assert Launched(INITIAL, []);
    } else {
      var n := |actions| - 1;
      RunLast(actions);
      hide Launched, Step, Run;
      LaunchedRun(actions[..n]);
      LaunchedStep(Run(actions[..n]), actions[n], actions[..n]);
      assert actions == actions[..n] + [actions[n]];
    }
  }

  /** Committed stops with the same key are of one session and run. */
  lemma CommittedKeysDiffer(actions: seq<Action>, e: Event, e': Event)
    requires LaunchesApart(actions)
    requires e in Run(actions).committed && e' in Run(actions).committed && KeyOf(e) == KeyOf(e')
    ensures SameRun(e, e')
  {
    LaunchedRun(actions);
    hide Run, Key, SessionsClash;
    assert Apart(Launch(e.session, e.run), Launch(e'.session, e'.run));
    if SessionsClash(e.session, e'.session) {
      ColonFreeRunsAreInjective(e.session, e.run.value, e'.session, e'.run.value);
      assert Some(e.run.value) == e.run && Some(e'.run.value) == e'.run;
    } else {
      KeysAreInjective(e.session, e.run, e'.session, e'.run);
    }
  }

  /**
   However often a stop is enqueued, posted and posted again, the server keeps one event for its
   session and run, and no other run's event absorbs it.
   */
  lemma ServerKeepsOnePerRun(actions: seq<Action>, e: Event)
    requires LaunchesApart(actions) && e in Run(actions).received
    ensures var server := Run(actions).server;
      && KeyOf(e) in server && SameRun(server[KeyOf(e)], e)
      && (forall k | k in server && SameRun(server[k], e) :: k == KeyOf(e))
  {
    InvRun(actions);
    var s := Run(actions);
    var kept := s.server[KeyOf(e)];
    assert kept in s.committed && e in s.committed;
    assert KeyOf(kept) == KeyOf(e);
    hide Run, KeyOf;
    CommittedKeysDiffer(actions, kept, e);
    forall k | k in s.server && SameRun(s.server[k], e)
      ensures k == KeyOf(e)
    {
      SameRunSameKey(s.server[k], e);
    }
  }

  lemma RunAppendOne(before: seq<Action>, after: seq<Action>)
    requires after != []
    ensures Run(before + [after[0]]) == Step(Run(before), after[0])
    ensures before + [after[0]] + after[1..] == before + after
  {
    hide Step;
    RunSnoc(before, after[0]);
  }

  /** A bridge that is down and not relaunched enqueues nothing, and nobody else has its key. */
  lemma {:induction false} QuietBridgeEnqueuesNothing(before: seq<Action>, after: seq<Action>, e: Event)
    requires LaunchesApart(before + after) && e in Run(before).committed
    requires BridgeOf(Run(before), e.session).Down?
    requires forall a | a in after :: !(a.Launch? && a.session == e.session)
    ensures Enqueues(Run(before), after, KeyOf(e)) == 0
    decreases |after|
  {
    if after != [] {
      var s, a := Run(before), after[0];
      StepOnBridges(s, a, e.session);
      InvRun(before);
      hide Step;
      if EnqueuesKey(s, a, KeyOf(e)) {
        var e' := BridgeOf(s, a.session).event;
        assert BridgeSound(s, a.session, s.bridges[a.session]);
        assert LaunchesApart(before) by { assert forall x | x in before :: x in before + after; }
        CommittedKeysDiffer(before, e, e');
        assert false;
      }
      RunAppendOne(before, after);
      hide Run, Step, KeyOf, EnqueuesKey, LaunchesApart;
      QuietBridgeEnqueuesNothing(before + [a], after[1..], e);
    }
  }

  lemma CheckedIsCommitted(before: seq<Action>, session: string, scan: Scan)
    requires Run(before).daemon.Idle? && InspectStep(Run(before), session, scan).daemon.Checked?
    ensures var s := Run(before);
      var checked := Run(before + [Inspect(session, scan)]);
      && session in s.files && Needs(s.files[session]) && s.files[session].event.Some?
      && checked == InspectStep(s, session, scan) && checked.bridges == s.bridges
      && s.files[session].event.value in checked.committed && s.files[session].event.value.session == session
  {
    InvRun(before);
    var s := Run(before);
    assert FileSound(s, session, s.files[session]);
    NeedsHasEvent(s.files[session]);
    RunSnoc(before, Inspect(session, scan));
    hide Inv, Run, Needs, KeyOf, Sees;
  }

  /**
   In particular, over any run and whatever happens between the check and the rename, if the session's
   bridge was down at the check and was not relaunched: the reconciler makes a second copy if and only
   if copies the check did not see outnumber those the drain deleted since.
   */
  lemma QuietSessionCopiesExactly(before: seq<Action>, session: string, scan: Scan, between: seq<Action>)
    requires LaunchesApart(before + [Inspect(session, scan)] + between)
    requires Run(before).daemon.Idle? && InspectStep(Run(before), session, scan).daemon.Checked?
    requires BridgeOf(Run(before), session).Down?
    requires forall a | a in between :: LeavesDaemon(a) && !(a.Launch? && a.session == session)
    requires RunFrom(InspectStep(Run(before), session, scan), between).daemon.Restaged?
    requires Run(before).files[session].event.value in RunFrom(InspectStep(Run(before), session, scan), between).temps
    ensures var s := Run(before);
      var checked := InspectStep(s, session, scan);
      var key := KeyOf(s.files[session].event.value);
      Copies(RequeueStep(RunFrom(checked, between), true).outbox, key) >= 2
      <==> Copies(s.outbox, key) > Deletes(checked, between, key)
  {
    CheckedIsCommitted(before, session, scan);
    var s := Run(before);
    var e := s.files[session].event.value;
    hide Run, Needs, KeyOf, Sees, Copies, InspectStep, RequeueStep, RunFrom, Enqueues, Deletes, LaunchesApart;
    QuietBridgeEnqueuesNothing(before + [Inspect(session, scan)], between, e);
    SecondCopyExactly(s, session, scan, between);
  }

  /** With a scan that could read the outbox there is no second copy. */
  lemma NoSecondCopyOfAQuietSession(before: seq<Action>, session: string, between: seq<Action>)
    requires var scan := Listed({});
      && LaunchesApart(before + [Inspect(session, scan)] + between)
      && Run(before).daemon.Idle? && InspectStep(Run(before), session, scan).daemon.Checked?
      && BridgeOf(Run(before), session).Down?
      && (forall a | a in between :: LeavesDaemon(a) && !(a.Launch? && a.session == session))
      && RunFrom(InspectStep(Run(before), session, scan), between).daemon.Restaged?
      && Run(before).files[session].event.value in RunFrom(InspectStep(Run(before), session, scan), between).temps
    ensures var key := KeyOf(Run(before).files[session].event.value);
      Copies(RequeueStep(RunFrom(InspectStep(Run(before), session, Listed({})), between), true).outbox, key) < 2
  {
    NeedsHasEvent(Run(before).files[session]);
    hide LaunchesApart, Run, KeyOf, RunFrom, RequeueStep, Needs, Copies, Sees;
    QuietSessionCopiesExactly(before, session, Listed({}), between);
    CheckedMeansUnread(Run(before), session, Listed({}));
    CopiesHeld(Run(before).outbox, KeyOf(Run(before).files[session].event.value));
  }

  lemma SameRunSameKey(a: Event, b: Event)
    requires SameRun(a, b)
    ensures KeyOf(a) == KeyOf(b)
  {
    hide IsBlank;
  }

  /** Actions that drain an entry with this key. */
  lemma DrainDelivers(s: Sys, key: string) returns (i: nat)
    requires Held(s.outbox, key)
    ensures key in Step(s, Drain(i, true)).server
  {
    hide KeyOf;
    var e :| e in s.outbox && KeyOf(e) == key;
    i :| 0 <= i < |s.outbox| && s.outbox[i] == e;
  }

  /** A restarted daemon that finds the stop on disk, and no temporary in the way, enqueues it. */
  lemma RestartRequeues(s: Sys, e: Event) returns (i: nat)
    requires s.daemon.Idle? && DiskHas(s, e) && e !in s.received
    requires s.temps == multiset{} && !Held(s.outbox, KeyOf(e))
    ensures var s3 := RequeueStep(RestageStep(InspectStep(s, e.session, Listed({})), true), true);
      KeyOf(e) in DrainStep(s3, i, true).server
  {
    hide KeyOf, Needs;
    assert e in s.outbox ==> Held(s.outbox, KeyOf(e));
    SeesEither(s.outbox, s.temps, Listed({}), KeyOf(e));
    assert !Sees(s.outbox, s.temps, Listed({}), KeyOf(e));
    hide Sees, Held;
    var s1 := InspectStep(s, e.session, Listed({}));
    assert s1 == s.(daemon := Checked(e.session, s.files[e.session]));
    var s2 := RestageStep(s1, true);
    assert s2 == s1.(temps := multiset{e}, daemon := Restaged(e.session, s.files[e.session]));
    i := |s.outbox|;
    assert RequeueStep(s2, true).outbox[i] == e;
  }

  lemma PruneOne(actions: seq<Action>, e: Event)
    ensures Run(actions + [Prune(e)]) == PruneStep(Run(actions), e)
  {
    hide LaunchStep, WriteRunningStep, CommitStep, StageStep, EnqueueStep, MarkStep, BridgeCrashStep,
      InspectStep, RestageStep, RequeueStep, MarkRequeuedStep, DaemonCrashStep, DrainStep, PruneStep;
    RunSnoc(actions, Prune(e));
  }

  /** Once they are old enough the drain prunes all temporaries. */
  lemma {:induction false} PruneAll(actions: seq<Action>) returns (more: seq<Action>)
    ensures Run(actions + more) == Run(actions).(temps := multiset{})
    decreases |Run(actions).temps|
  {
    hide Run, Step;
    if Run(actions).temps == multiset{} {
      more := [];
      assert actions + more == actions;
    } else {
      var e :| e in Run(actions).temps;
      PruneOne(actions, e);
      var rest := PruneAll(actions + [Prune(e)]);
      more := [Prune(e)] + rest;
      assert actions + more == actions + [Prune(e)] + rest;
    }
  }

  lemma RequeueRun(actions: seq<Action>, e: Event) returns (i: nat)
    requires var s := Run(actions);
      && s.daemon.Idle? && DiskHas(s, e) && e !in s.received
      && s.temps == multiset{} && !Held(s.outbox, KeyOf(e))
    ensures KeyOf(e) in Run(actions + [Inspect(e.session, Listed({})), Restage(true), Requeue(true), Drain(i, true)]).server
  {
    hide DiskHas, Held, KeyOf, Run;
    i := RestartRequeues(Run(actions), e);
    hide LaunchStep, WriteRunningStep, CommitStep, StageStep, EnqueueStep, MarkStep, BridgeCrashStep,
      InspectStep, RestageStep, RequeueStep, MarkRequeuedStep, DaemonCrashStep, DrainStep, PruneStep;
    RunFour(actions, Inspect(e.session, Listed({})), Restage(true), Requeue(true), Drain(i, true));
  }

  lemma DrainRun(actions: seq<Action>, key: string) returns (i: nat)
    requires Held(Run(actions).outbox, key)
    ensures key in Run(actions + [Drain(i, true)]).server
  {
    i := DrainDelivers(Run(actions), key);
    hide Step;
    RunSnoc(actions, Drain(i, true));
  }

  lemma CrashIdles(s: Sys)
    ensures Step(s, DaemonCrash) == s.(daemon := Idle)
  {
    hide LaunchStep, WriteRunningStep, CommitStep, StageStep, EnqueueStep, MarkStep, BridgeCrashStep,
      InspectStep, RestageStep, RequeueStep, MarkRequeuedStep, DrainStep, PruneStep;
  }

  lemma CrashRun(actions: seq<Action>)
    ensures Run(actions + [DaemonCrash]) == Run(actions).(daemon := Idle)
  {
    CrashIdles(Run(actions));
    hide Run, Step;
    RunSnoc(actions, DaemonCrash);
  }

  lemma RunFour(actions: seq<Action>, a: Action, b: Action, c: Action, d: Action)
    ensures Run(actions + [a, b, c, d]) == Step(Step(Step(Step(Run(actions), a), b), c), d)
  {
    hide Run, Step;
    RunSnoc(actions, a);
    RunSnoc(actions + [a], b);
    RunSnoc(actions + [a] + [b], c);
    RunSnoc(actions + [a] + [b] + [c], d);
    assert actions + [a, b, c, d] == actions + [a] + [b] + [c] + [d];
  }

  lemma RestartAndPrune(actions: seq<Action>) returns (more: seq<Action>)
    ensures Run(actions + more) == Run(actions).(daemon := Idle, temps := multiset{})
  {
    hide Run;
    CrashRun(actions);
    var prunes := PruneAll(actions + [DaemonCrash]);
    more := [DaemonCrash] + prunes;
    assert actions + more == actions + [DaemonCrash] + prunes;
  }

  lemma WaitingDelivers(actions: seq<Action>, e: Event) returns (more: seq<Action>)
    requires var s := Run(actions);
      DiskHas(s, e) && e !in s.received && !Held(s.outbox, KeyOf(e))
    ensures KeyOf(e) in Run(actions + more).server
  {
    hide Run, KeyOf, Held, Needs;
    var prunes := RestartAndPrune(actions);
    var i := RequeueRun(actions + prunes, e);
    var last := [Inspect(e.session, Listed({})), Restage(true), Requeue(true), Drain(i, true)];
    more := prunes + last;
    assert actions + more == actions + prunes + last;
  }

  /** From any point of an orderly run, every committed stop can still reach the server. */
  lemma DeliveryStaysPossible(actions: seq<Action>, e: Event) returns (more: seq<Action>)
    requires OrderlyRun(actions) && e in Run(actions).committed
    ensures KeyOf(e) in Run(actions + more).server
  {
    StopIsOnDisk(actions, e);
    InvRun(actions);
    var s := Run(actions);
    assert ServerSound(s);
    hide Run, KeyOf, Inv, Held, DiskHas;
    if e in s.received {
      more := [];
      assert actions + more == actions;
    } else if Held(s.outbox, KeyOf(e)) {
      var i := DrainRun(actions, KeyOf(e));
      more := [Drain(i, true)];
    } else {
      more := WaitingDelivers(actions, e);
    }
  }

  // ---------------------------------------------------------------------------------------------
  // The reconciler's loop
  // ---------------------------------------------------------------------------------------------

  function ReconcileAll(d: Disk, turns: seq<Turn>): (Disk, nat) {
    if turns == [] then (d, 0)
    else
      var n := |turns| - 1;
      var (before, count) := ReconcileAll(d, turns[..n]);
      var (after, more) := ReconcileOne(before, turns[n]);
      (after, count + more)
  }

  /** What turn i finds. */
  function Found(d: Disk, turns: seq<Turn>, i: nat): Disk
    requires i <= |turns|
  {
    ReconcileAll(d, turns[..i]).0
  }

  lemma FoundEarlier(d: Disk, turns: seq<Turn>, n: nat)
    requires n <= |turns|
    ensures forall i | 0 <= i < n :: turns[..n][i] == turns[i] && Found(d, turns[..n], i) == Found(d, turns, i)
  {
    assert forall i | 0 <= i < n :: turns[..n][..i] == turns[..i];
  }

  /** Only the published flag of files that needed it ever changes. */
  predicate OnlyMarks(before: Disk, after: Disk) {
    && after.files.Keys == before.files.Keys
    && (forall x | x in before.files ::
          after.files[x] == before.files[x]
          || (Needs(before.files[x]) && after.files[x] == before.files[x].(published := true)
              && Held(after.outbox, KeyOf(before.files[x].event.value))))
  }

  lemma HeldGrows(outbox: seq<Event>, e: Event)
    ensures forall key :: Held(outbox + [e], key) <==> Held(outbox, key) || KeyOf(e) == key
  {
    hide KeyOf;
    assert forall x :: x in outbox + [e] <==> x in outbox || x == e;
  }

  lemma OneMarks(d0: Disk, d: Disk, t: Turn)
    requires OnlyMarks(d0, d) && d0.outbox <= d.outbox
    ensures var (d', n) := ReconcileOne(d, t);
      OnlyMarks(d0, d') && d0.outbox <= d'.outbox && |d'.outbox| == |d.outbox| + n
  {
    if t.session in d.files && Needs(d.files[t.session]) {
      var e := d.files[t.session].event.value;
      HeldGrows(d.outbox, e);
      assert Needs(d0.files[t.session]) && d0.files[t.session].event == Some(e);
      assert !Needs(d.files[t.session].(published := true));
    }
    hide KeyOf, Held, Sees;
  }

  /**
   A pass over any list of files, with repetitions and failures anywhere, only appends to the outbox,
   marks only what it can vouch for, and counts what it added.
   */
  lemma {:induction false} PassMeaning(d: Disk, turns: seq<Turn>)
    ensures var (after, count) := ReconcileAll(d, turns);
      d.outbox <= after.outbox && |after.outbox| == |d.outbox| + count && OnlyMarks(d, after)
  {
    if turns == [] {
      hide Needs, KeyOf, Held;
    } else {
      var n := |turns| - 1;
      hide Needs, KeyOf, Held, OnlyMarks, ReconcileOne;
      PassMeaning(d, turns[..n]);
      OneMarks(d, ReconcileAll(d, turns[..n]).0, turns[n]);
    }
  }

  /** How many turns add a copy of the key. */
  function Additions(d: Disk, turns: seq<Turn>, key: string): nat {
    if turns == [] then 0
    else
      var n := |turns| - 1;
      Additions(d, turns[..n], key) + if Adds(Found(d, turns, n), turns[n], key) then 1 else 0
  }

  predicate DeliversAt(d: Disk, turns: seq<Turn>, i: nat, key: string)
    requires i < |turns|
  {
    Delivers(Found(d, turns, i), turns[i], key)
  }

  /** The turn adds the key when it is pending already. */
  predicate RepeatsAt(d: Disk, turns: seq<Turn>, i: nat, key: string)
    requires i < |turns|
  {
    Adds(Found(d, turns, i), turns[i], key) && Held(Found(d, turns, i).outbox, key)
  }

  lemma SameTurnEarlier(d: Disk, turns: seq<Turn>, n: nat, key: string)
    requires n <= |turns|
    ensures forall i | 0 <= i < n :: DeliversAt(d, turns[..n], i, key) <==> DeliversAt(d, turns, i, key)
    ensures forall i | 0 <= i < n :: RepeatsAt(d, turns[..n], i, key) <==> RepeatsAt(d, turns, i, key)
  {
    hide Held, Delivers, Adds, Found;
    FoundEarlier(d, turns, n);
  }

  /**
   A pass leaves a key pending if and only if it was pending before, or some turn over a file with that
   key could enqueue it and its scan did not stop at a temporary.
   */
  lemma {:induction false} PassLeavesPending(d: Disk, turns: seq<Turn>, key: string)
    ensures Held(ReconcileAll(d, turns).0.outbox, key)
        <==> Held(d.outbox, key) || exists i | 0 <= i < |turns| :: DeliversAt(d, turns, i, key)
  {
    if turns != [] {
      var n := |turns| - 1;
      SameTurnEarlier(d, turns, n, key);
      assert DeliversAt(d, turns, n, key) <==> Delivers(ReconcileAll(d, turns[..n]).0, turns[n], key);
      hide Held, Delivers, ReconcileOne, DeliversAt, RepeatsAt;
      PassLeavesPending(d, turns[..n], key);
      OneDelivers(ReconcileAll(d, turns[..n]).0, turns[n], key);
    }
  }

  /** This stop is committed in one of the files, whose status reads "stopped", and not marked as published. */
  predicate DueIn(files: map<string, StateFile>, e: Event) {
    exists x | x in files ::
      IsStopped(files[x].status) && !files[x].published && files[x].event == Some(e)
  }

  lemma OneAddsDue(d: Disk, found: Disk, t: Turn)
    requires OnlyMarks(d, found)
    ensures var after := ReconcileOne(found, t).0;
      forall e | e in after.outbox :: e in found.outbox || DueIn(d.files, e)
  {
    hide KeyOf, Sees, IsStopped, Held;
  }

  /** Whatever a pass adds to the outbox is a stop due in one of the files it started with. */
  lemma {:induction false} PassAddsOnlyDueStops(d: Disk, turns: seq<Turn>)
    ensures forall e | e in ReconcileAll(d, turns).0.outbox :: e in d.outbox || DueIn(d.files, e)
  {
    if turns != [] {
      var n := |turns| - 1;
      hide ReconcileOne, DueIn, OnlyMarks;
      PassAddsOnlyDueStops(d, turns[..n]);
      PassMeaning(d, turns[..n]);
      OneAddsDue(d, ReconcileAll(d, turns[..n]).0, turns[n]);
    }
  }

  lemma OneLeaves(d: Disk, t: Turn)
    requires t.staged ==> t.enqueued
    ensures ReconcileOne(d, t).0.temps == d.temps
  {
    hide Needs, KeyOf, Sees;
  }

  lemma DueEarlier(d: Disk, found: Disk, session: string, key: string)
    requires OnlyMarks(d, found)
    ensures Due(found.files, session, key) ==> Due(d.files, session, key)
    ensures Due(d.files, session, key) ==> Due(found.files, session, key) || Held(found.outbox, key)
  {
    assert forall file: StateFile :: !Needs(file.(published := true));
    hide Needs, KeyOf, Held;
  }

  /**
   In particular, if no temporary has the key and what is staged is renamed, a pass leaves the key
   pending if and only if it was, or some file with that key was due and could be enqueued.
   */
  lemma {:induction false} CleanPassLeavesPending(d: Disk, turns: seq<Turn>, key: string)
    requires forall e | e in d.temps :: KeyOf(e) != key
    requires forall t | t in turns :: t.staged ==> t.enqueued
    ensures var after := ReconcileAll(d, turns).0;
      && after.temps == d.temps
      && (Held(after.outbox, key)
          <==> Held(d.outbox, key) || exists t | t in turns :: t.staged && Due(d.files, t.session, key))
  {
    if turns != [] {
      var n := |turns| - 1;
      var found := ReconcileAll(d, turns[..n]).0;
      assert forall t :: t in turns <==> t in turns[..n] || t == turns[n];
      hide Held, Due, ReconcileOne, OnlyMarks, KeyOf;
      CleanPassLeavesPending(d, turns[..n], key);
      OneLeaves(found, turns[n]);
      OneDelivers(found, turns[n], key);
      PassMeaning(d, turns[..n]);
      DueEarlier(d, found, turns[n].session, key);
    }
  }

  /** Every copy a pass adds is one of its turns'. */
  lemma {:induction false} PassCopies(d: Disk, turns: seq<Turn>, key: string)
    ensures Copies(ReconcileAll(d, turns).0.outbox, key) == Copies(d.outbox, key) + Additions(d, turns, key)
  {
    if turns != [] {
      var n := |turns| - 1;
      hide Copies, Adds, ReconcileOne;
      PassCopies(d, turns[..n], key);
      OneCopies(ReconcileAll(d, turns[..n]).0, turns[n], key);
    }
  }

  predicate SomeTurnRepeats(d: Disk, turns: seq<Turn>, key: string) {
    exists i | 0 <= i < |turns| :: RepeatsAt(d, turns, i, key)
  }

  lemma SomeTurnOfMore(d: Disk, turns: seq<Turn>, key: string)
    requires turns != []
    ensures var n := |turns| - 1;
      SomeTurnRepeats(d, turns, key) <==> SomeTurnRepeats(d, turns[..n], key) || RepeatsAt(d, turns, n, key)
  {
    SameTurnEarlier(d, turns, |turns| - 1, key);
    hide RepeatsAt;
  }

  /**
   A pass makes a second pending copy of a key if and only if one of its turns adds the key while it
   is pending, because that turn's scan read no copy of it.
   */
  lemma {:induction false} PassCopiesExactly(d: Disk, turns: seq<Turn>, key: string)
    ensures var after := ReconcileAll(d, turns).0;
      Copies(after.outbox, key) > Copies(d.outbox, key) && Copies(after.outbox, key) >= 2
      <==> SomeTurnRepeats(d, turns, key)
  {
    if turns != [] {
      var n := |turns| - 1;
      var found := ReconcileAll(d, turns[..n]).0;
      assert RepeatsAt(d, turns, n, key) <==> Adds(found, turns[n], key) && Held(found.outbox, key);
      PassCopiesExactly(d, turns[..n], key);
      hide Copies, Held, Adds, ReconcileOne, RepeatsAt, SomeTurnRepeats;
      SomeTurnOfMore(d, turns, key);
      PassCopies(d, turns[..n], key);
      OneCopies(found, turns[n], key);
      CopiesHeld(found.outbox, key);
    }
  }

  /** Scans that can read the outbox let a pass make no second copy. */
  lemma PassAddsNoSecondCopy(d: Disk, turns: seq<Turn>, key: string)
    requires forall t | t in turns :: t.scan == Listed({})
    ensures var after := ReconcileAll(d, turns).0;
      Copies(after.outbox, key) <= Copies(d.outbox, key) || Copies(after.outbox, key) == 1
  {
    PassCopiesExactly(d, turns, key);
    hide Copies, ReconcileAll, Adds, Found, KeyOf;
    forall i | 0 <= i < |turns|
      ensures !RepeatsAt(d, turns, i, key)
    {
      assert turns[i] in turns;
      if RepeatsAt(d, turns, i, key) {
        AddsUnread(Found(d, turns, i), turns[i], key);
      }
    }
  }

  lemma EmptyPass(d: Disk)
    ensures ReconcileAll(d, []) == (d, 0)
  {
  }

  lemma PassSnoc(d: Disk, turns: seq<Turn>, i: nat)
    requires i < |turns|
    ensures var (before, count) := ReconcileAll(d, turns[..i]);
      var (after, more) := ReconcileOne(before, turns[i]);
      ReconcileAll(d, turns[..i + 1]) == (after, count + more)
  {
    assert turns[..i + 1][..i] == turns[..i];
    hide ReconcileOne;
  }

  /** The daemon's view of the state directory and the outbox. */
  class Reconciler {
    var files: map<string, StateFile>    // the readable state files
    var outbox: seq<Event>
    var temps: multiset<Event>

    constructor (files: map<string, StateFile>, outbox: seq<Event>, temps: multiset<Event>)
      ensures Now() == Disk(files, outbox, temps)
    {
      this.files, this.outbox, this.temps := files, outbox, temps;
    }

    function Now(): Disk
      reads this
    {
      Disk(files, outbox, temps)
    }

    /** The directory's entries come in any order. */
    method OutboxAlreadyHolds(scan: Scan, key: string) returns (held: bool)
      ensures held <==> Sees(outbox, temps, scan, key)
    {
      if scan.Unlisted? {
        return false;
      }
      var entries := multiset(outbox) + temps;
      var rest := entries;
      while rest != multiset{}
        invariant rest <= entries
        invariant forall e | e in entries && e !in rest :: e in scan.unread || KeyOf(e) != key
        decreases |rest|
      {
        var e :| e in rest;
        rest := rest - multiset{e};
        if e !in scan.unread && KeyOf(e) == key {
          return true;
        }
      }
      return false;
    }

    /** `publish_terminal_event`, down to the temporary and its rename. */
    method PublishTerminalEvent(e: Event, staged: bool, enqueued: bool) returns (ok: bool)
      modifies this`outbox, this`temps
      ensures ok == (staged && enqueued)
      ensures outbox == if ok then old(outbox) + [e] else old(outbox)
      ensures temps == if staged && !enqueued then old(temps) + multiset{e} else old(temps)
    {
      if !staged {
        return false;
      }
      temps := temps + multiset{e};
      if !enqueued {
        return false;
      }
      temps := temps - multiset{e};
      outbox := outbox + [e];
      return true;
    }

    /** The body of the loop below: one path. */
    method ReconcilePath(turn: Turn) returns (republished: nat)
      modifies this
      ensures (Now(), republished) == ReconcileOne(old(Now()), turn)
    {
      hide KeyOf, Sees;
      if turn.session !in files {
        return 0;
      }
      var file := files[turn.session];
      if !Needs(file) {
        return 0;
      }
      NeedsHasEvent(file);
      hide Needs;
      var held := OutboxAlreadyHolds(turn.scan, KeyOf(file.event.value));
      if held {
        return 0;
      }
      var ok := PublishTerminalEvent(file.event.value, turn.staged, turn.enqueued);
      if !ok {
        return 0;
      }
      if turn.marked {
        files := files[turn.session := file.(published := true)];
      }
      return 1;
    }

    method ReconcileTerminalEventPaths(turns: seq<Turn>) returns (republished: nat)
      modifies this
      ensures (Now(), republished) == ReconcileAll(old(Now()), turns)
    {
      republished := 0;
      ghost var start := Now();
      EmptyPass(start);
      hide ReconcileAll, ReconcileOne;
      for i := 0 to |turns|
        invariant (Now(), republished) == ReconcileAll(start, turns[..i])
      {
        PassSnoc(start, turns, i);
        var more := ReconcilePath(turns[i]);
        republished := republished + more;
      }
      assert turns[..|turns|] == turns;
    }
  }
}
