/**
 What a Claude monitor gets done by its own steps (engine/src/claude_print.rs, the three monitors).

 The safety results of `ProjectionRecovery` would hold of a monitor that does nothing. Here: a read
 queues what the file completed, a due checkpoint moves the claim to the last line boundary read, and
 once the provider has exited a monitor settles its run in a bounded number of steps, whatever fails.
 */
module MonitorProgress {
  import opened Wrappers
  import opened StreamLines
  import opened StreamProjection
  import opened ClaimWrites
  import opened ProjectionRecovery

  // ---------------------------------------------------------------------------------------------
  // Reads and checkpoints
  // ---------------------------------------------------------------------------------------------

  /** The monitor is between two batches of lines, and reads on. */
  predicate CanRead(w: World) {
    Free(w) && w.engine.queue == [] && !w.engine.owesCheckpoint && w.engine.phase != Ready
  }

  /**
   In every run a read that succeeds queues every complete line of the file not handled yet, and makes
   a checkpoint due exactly if there is one.
   */
  lemma ReadQueuesTheRest(dec: Decoder, expected: string, actions: seq<Action>, saved: bool)
    requires CanRead(Run(dec, expected, actions))
    ensures var w, w' := Run(dec, expected, actions), Run(dec, expected, actions + [Read(true, saved)]);
      var lines: seq<Bytes> := SplitOf(w.file).lines;
      && w.engine.learned.seqNo <= |lines|
      && w'.engine.Up? && w'.engine.queue == lines[w.engine.learned.seqNo..]
      && w'.engine.cursor.offset == |w.file|
      && (w'.engine.owesCheckpoint <==> w.engine.learned.seqNo < |lines|)
  {
    InvRun(dec, expected, actions);
    RunSnoc(dec, expected, actions, Read(true, saved));
    hide Run, Inv, CanRead, SplitOf, ReadStep;
    ReadQueues(dec, expected, Run(dec, expected, actions), saved);
  }

  lemma ReadQueues(dec: Decoder, expected: string, w: World, saved: bool)
    requires Inv(dec, expected, w) && CanRead(w)
    ensures var w' := ReadStep(w, true, saved);
      var lines: seq<Bytes> := SplitOf(w.file).lines;
      && w.engine.learned.seqNo <= |lines|
      && w'.engine.Up? && w'.engine.queue == lines[w.engine.learned.seqNo..]
      && w'.engine.cursor.offset == |w.file|
      && (w'.engine.owesCheckpoint <==> w.engine.learned.seqNo < |lines|)
  {
    ReadOnceTracks(w.engine.cursor, w.file, 0);
    hide SplitOf, Ingest, LastResult, AnyConfirms, LogAgrees, RecordsAgree, SignalsAgree, SettlementAgrees, ReadOnce;
  }

  lemma RecoverResumes(w: World)
    requires !w.claim.terminal
    ensures var w' := RecoverStep(CrashStep(w));
      && CanRead(w') && w'.file == w.file && w'.exit == w.exit
      && w'.engine.learned == Progress(w.claim.seqNo, None, w.claim.identityConfirmed)
      && w'.engine.mode == if w.exit.None? then RecoveredMonitor else RecoveredDead
  {
  }

  /**
   From every reachable state with an open claim, whether the provider still runs or not: a restarted
   engine resumes at the checkpoint, and its first read queues every complete line after it.
   */
  lemma RestartReadsOn(dec: Decoder, expected: string, actions: seq<Action>, saved: bool)
    requires !Run(dec, expected, actions).claim.terminal
    ensures var w := Run(dec, expected, actions);
      var w' := Run(dec, expected, actions + [Crash] + [Recover] + [Read(true, saved)]);
      && w.claim.seqNo <= |SplitOf(w.file).lines|
      && w'.engine.Up? && w'.engine.queue == SplitOf(w.file).lines[w.claim.seqNo..]
      && w'.engine.learned == Progress(w.claim.seqNo, None, w.claim.identityConfirmed)
      && w'.engine.mode == if w.exit.None? then RecoveredMonitor else RecoveredDead
  {
    var up := actions + [Crash] + [Recover];
    RestartIsUp(dec, expected, actions);
    RecoverResumes(Run(dec, expected, actions));
    RunSnoc(dec, expected, up, Read(true, saved));
    hide Run, CrashStep, RecoverStep, CanRead, SplitOf, Step;
    ReadQueuesTheRest(dec, expected, up, saved);
    ReadLearnsNothing(dec, expected, Run(dec, expected, up), saved);
  }

  lemma RestartIsUp(dec: Decoder, expected: string, actions: seq<Action>)
    ensures Run(dec, expected, actions + [Crash] + [Recover]) == RecoverStep(CrashStep(Run(dec, expected, actions)))
  {
    hide Run, CrashStep, RecoverStep;
    RunSnoc(dec, expected, actions, Crash);
    RunSnoc(dec, expected, actions + [Crash], Recover);
  }

  lemma ReadLearnsNothing(dec: Decoder, expected: string, w: World, saved: bool)
    requires CanRead(w)
    ensures var w' := Step(dec, expected, w, Read(true, saved));
      w'.engine.Up? && w'.engine.learned == w.engine.learned && w'.engine.mode == w.engine.mode
  {
    hide ReadOnce;
  }

  /** Nothing else can happen to the run before that checkpoint has been dealt with. */
  lemma DueCheckpointComesFirst(dec: Decoder, expected: string, w: World, a: Action)
    requires w.engine.Up? && w.engine.owesCheckpoint && w.engine.queue == []
    requires a.Read? || a.Settle? || a.ObserveExit? || a.WaitFails?
    ensures Step(dec, expected, w, a) == w
  {
  }

  lemma {:induction false} TailIsSuffix(file: Bytes)
    ensures var tail := SplitOf(file).tail;
      |tail| <= |file| && tail == file[|file| - |tail|..]
  {
    if file != [] {
      var n := |file| - 1;
      TailIsSuffix(file[..n]);
      if file[n] != NEWLINE {
        var tail := SplitOf(file[..n]).tail;
        assert file[n - |tail|..] == file[..n][n - |tail|..] + [file[n]];
      }
    }
  }

  /** Up to the last newline, if there is one. */
  predicate IsLastBoundary(read: Bytes, offset: nat) {
    && offset <= |read|
    && (offset == 0 || read[offset - 1] == NEWLINE)
    && NEWLINE !in read[offset..]
  }

  /**
   In every run a due checkpoint whose write succeeds moves the claim to the last line boundary of what
   was read, with the number of lines before it, and changes nothing else in it; an unterminated tail
   stays to be read again.
   */
  lemma CheckpointAdvances(dec: Decoder, expected: string, actions: seq<Action>)
    requires var w := Run(dec, expected, actions);
      Free(w) && w.engine.queue == [] && w.engine.owesCheckpoint
    ensures var w, w' := Run(dec, expected, actions), Run(dec, expected, actions + [Checkpoint(true)] + [Replace]);
      && w.engine.cursor.offset <= |w.file|
      && var read := w.file[..w.engine.cursor.offset];
      && IsLastBoundary(read, w'.claim.offset)
      && w'.claim.seqNo == |SplitOf(read).lines|
      && w'.claim == w.claim.(offset := w'.claim.offset, seqNo := w'.claim.seqNo)
  {
    CheckpointIsARun(dec, expected, actions);
    CheckpointSaves(dec, expected, actions);
    hide Run, SplitOf, CheckpointStep, ReplaceStep, IsLastBoundary;
  }

  lemma CheckpointIsARun(dec: Decoder, expected: string, actions: seq<Action>)
    ensures Run(dec, expected, actions + [Checkpoint(true)] + [Replace])
         == ReplaceStep(CheckpointStep(Run(dec, expected, actions), true))
  {
    hide Run, CheckpointStep, ReplaceStep;
    RunSnoc(dec, expected, actions, Checkpoint(true));
    RunSnoc(dec, expected, actions + [Checkpoint(true)], Replace);
  }

  lemma CheckpointSaves(dec: Decoder, expected: string, actions: seq<Action>)
    requires var w := Run(dec, expected, actions);
      Free(w) && w.engine.queue == [] && w.engine.owesCheckpoint
    ensures var w := Run(dec, expected, actions);
      var w' := ReplaceStep(CheckpointStep(w, true));
      && w.engine.cursor.offset <= |w.file|
      && var read := w.file[..w.engine.cursor.offset];
      && IsLastBoundary(read, w'.claim.offset)
      && w'.claim.seqNo == |SplitOf(read).lines|
      && w'.claim == w.claim.(offset := w'.claim.offset, seqNo := w'.claim.seqNo)
  {
    InvRun(dec, expected, actions);
    CheckpointMoves(dec, expected, actions);
    var w := Run(dec, expected, actions);
    hide Run, SplitOf, Inv, CheckpointStep, ReplaceStep, IsLastBoundary, SaveCheckpoint, CompleteOffset;
    BoundaryRead(dec, expected, w);
    DueCheckpointSaves(w);
  }

  /** Neither the saturating subtraction nor the check against moving backwards gets in the way. */
  lemma CheckpointMoves(dec: Decoder, expected: string, actions: seq<Action>)
    requires var w := Run(dec, expected, actions); w.engine.Up? && w.engine.queue == []
    ensures var w := Run(dec, expected, actions);
      var c := w.engine.cursor;
      && |c.pending| <= c.offset
      && SaveCheckpoint(w.claim, CompleteOffset(c), w.engine.learned.seqNo)
         == w.claim.(offset := c.offset - |c.pending|, seqNo := w.engine.learned.seqNo)
  {
    CheckpointsAreResumable(dec, expected, actions);
    hide Run, Resumable, SaveCheckpoint;
  }

  /** The record a due checkpoint puts in place, unless it would move backwards. */
  lemma DueCheckpointSaves(w: World)
    requires Free(w) && w.engine.queue == [] && w.engine.owesCheckpoint
    ensures var w' := ReplaceStep(CheckpointStep(w, true));
      w'.claim == SaveCheckpoint(w.claim, CompleteOffset(w.engine.cursor), w.engine.learned.seqNo)
  {
  }

  lemma CursorFacts(dec: Decoder, expected: string, w: World)
    requires Inv(dec, expected, w) && w.engine.Up? && w.engine.queue == []
    ensures var c := w.engine.cursor;
      && c.offset <= |w.file| && w.claim.offset <= c.offset
      && SplitOf(w.file[..w.claim.offset]).tail == []
      && c.pending == SplitOf(w.file[..c.offset]).tail
      && w.engine.learned.seqNo == |SplitOf(w.file[..c.offset]).lines|
  {
    hide SplitOf, Ingest, LastResult, AnyConfirms, LogAgrees, SignalsAgree, SettlementAgrees;
  }

  lemma BoundaryRead(dec: Decoder, expected: string, w: World)
    requires Inv(dec, expected, w) && w.engine.Up? && w.engine.queue == []
    ensures w.engine.cursor.offset <= |w.file| && |w.engine.cursor.pending| <= w.engine.cursor.offset
    ensures var read := w.file[..w.engine.cursor.offset];
      && IsLastBoundary(read, w.engine.cursor.offset - |w.engine.cursor.pending|)
      && w.engine.learned.seqNo == |SplitOf(read).lines|
  {
    CursorFacts(dec, expected, w);
    hide Inv, SplitOf, IsLastBoundary;
    TailFollowsBoundary(w.file, w.claim.offset, w.engine.cursor.offset);
  }

  lemma TailFollowsBoundary(file: Bytes, from: nat, end: nat)
    requires from <= end <= |file| && SplitOf(file[..from]).tail == []
    ensures |SplitOf(file[..end]).tail| <= end
    ensures IsLastBoundary(file[..end], end - |SplitOf(file[..end]).tail|)
  {
    TailIsSuffix(file[..end]);
    SplitMeaning(file[..end]);
    PendingFits(file, from, end);
    hide SplitOf;
  }

  /** In whichever monitor, an announcement at the front of the queue can be recorded in the claim, and only there. */
  lemma BindingIsRecorded(dec: Decoder, expected: string, w: World)
    requires Free(w) && w.engine.queue != [] && !w.engine.bound
    requires Announces(dec, w.engine.queue[0], expected)
    ensures var w' := Step(dec, expected, Step(dec, expected, w, Bind(true)), Replace);
      w' == w.(claim := w.claim.(identityConfirmed := true), writes := w.writes + [Write(|w.writes|, false)],
               engine := w.engine.(bound := true))
    ensures Step(dec, expected, w, PostSignal) == w && Step(dec, expected, w, Handle(true)) == w
  {
    IdentityMeaning(dec, expected, w.engine.queue[0]);
    AnnouncesOne(dec, expected, w.engine.queue[0]);
    hide NamesAnotherSession, ConfirmsIdentity, SignalOf;
  }

  lemma AnnouncesOne(dec: Decoder, expected: string, line: Bytes)
    requires Announces(dec, line, expected)
    ensures !NamesAnotherSession(dec, expected, line)
  {
  }

  // ---------------------------------------------------------------------------------------------
  // The provider and the interrupts
  // ---------------------------------------------------------------------------------------------

  /** What the provider wrote before it exited. */
  function Written(actions: seq<Action>): Bytes {
    if actions == [] then []
    else
      var n := |actions| - 1;
      match actions[n]
      case Append(bytes) => if ExitOf(actions[..n]).None? then Written(actions[..n]) + bytes else Written(actions[..n])
      case _ => Written(actions[..n])
  }

  /** Its exit, and whether that was a success. */
  function ExitOf(actions: seq<Action>): Option<bool> {
    if actions == [] then None
    else
      var before := ExitOf(actions[..|actions| - 1]);
      match actions[|actions| - 1]
      case ProviderExits(success) => if before.None? then Some(success) else before
      case _ => before
  }

  lemma MonitorLeavesOutput(dec: Decoder, expected: string, w: World, a: Action)
    requires !a.Append? && !a.ProviderExits?
    ensures Step(dec, expected, w, a).file == w.file && Step(dec, expected, w, a).exit == w.exit
  {
    hide ReadOnce, Report, NamesAnotherSession, ConfirmsIdentity, SignalOf, Entry, Advance, VerdictOf, CompleteOffset;
  }

  /** In every run output and exit are the provider's alone, and the first exit counts. */
  lemma {:induction false} OutputIsTheProviders(dec: Decoder, expected: string, actions: seq<Action>)
    ensures var w := Run(dec, expected, actions);
      w.file == Written(actions) && w.exit == ExitOf(actions)
  {
    if actions != [] {
      var n := |actions| - 1;
      assert actions == actions[..n] + [actions[n]];
      RunSnoc(dec, expected, actions[..n], actions[n]);
      hide Run;
      OutputIsTheProviders(dec, expected, actions[..n]);
      if !actions[n].Append? && !actions[n].ProviderExits? {
        hide Step;
        MonitorLeavesOutput(dec, expected, Run(dec, expected, actions[..n]), actions[n]);
      }
    }
  }

  /** The three steps of an interrupt: when it may begin, what it copies, and what it acknowledges. */
  lemma InterruptExactly(w: World, i: nat, ok: bool)
    ensures CancelCheckStep(w).checked == w.checked + if w.exit.None? && !w.claim.terminal then 1 else 0
    ensures CancelReadStep(w).interrupts ==
            if w.checked > 0 && !w.claim.terminal then
              w.interrupts + [Replacement(w.claim.(cancelRequested := true), |w.writes|)]
            else w.interrupts
    ensures i < |w.interrupts| ==>
              && CancelWriteStep(w, i, ok).claim == w.interrupts[i].claim
              && (CancelWriteStep(w, i, ok).acknowledged <==> w.acknowledged || ok)
  {
  }

  /** No interrupt is under way, and none can begin. */
  predicate NoInterrupts(w: World) {
    w.exit.Some? && w.checked == 0 && w.interrupts == []
  }

  lemma NoneBegins(dec: Decoder, expected: string, w: World, a: Action)
    requires NoInterrupts(w)
    ensures var w' := Step(dec, expected, w, a); NoInterrupts(w') && w'.acknowledged == w.acknowledged
  {
    hide ReadOnce, Report, NamesAnotherSession, ConfirmsIdentity, SignalOf, Entry, Advance, VerdictOf, CompleteOffset;
  }

  /** Once the provider has exited, interrupts that come later are refused, whatever else goes on. */
  lemma {:induction false} LateInterruptsAreRefused(
    dec: Decoder, expected: string, actions: seq<Action>, more: seq<Action>)
    requires NoInterrupts(Run(dec, expected, actions))
    ensures var w, w' := Run(dec, expected, actions), Run(dec, expected, actions + more);
      NoInterrupts(w') && w'.acknowledged == w.acknowledged
    decreases |more|
  {
    if more == [] {
      assert actions + more == actions;
    } else {
      RunSnoc(dec, expected, actions, more[0]);
      assert actions + more == actions + [more[0]] + more[1..];
      hide Run, Step, NoInterrupts;
      NoneBegins(dec, expected, Run(dec, expected, actions), more[0]);
      LateInterruptsAreRefused(dec, expected, actions + [more[0]], more[1..]);
    }
  }

  // ---------------------------------------------------------------------------------------------
  // The monitor finishes
  // ---------------------------------------------------------------------------------------------

  /** The monitor's next step; `ok` says whether the read or claim write it makes succeeds. */
  function OwnAction(dec: Decoder, expected: string, w: World, ok: bool): Action
    requires w.engine.Up?
  {
    var e := w.engine;
    if w.update.Some? then Replace
    else if e.queue != [] then FrontAction(dec, expected, w, ok)
    else if e.owesCheckpoint then Checkpoint(ok)
    else
      match e.phase
      case LastRead => Read(ok, ok)
      case Ready => Settle(ok, ok)
      case Polling =>
        if e.mode == Live then ObserveExit
        else if ok && e.cursor.offset < |w.file| then Read(true, true)
        else Settle(ok, ok)
  }

  function FrontAction(dec: Decoder, expected: string, w: World, ok: bool): Action
    requires w.engine.Up? && w.engine.queue != []
  {
    var line := w.engine.queue[0];
    if NamesAnotherSession(dec, expected, line) then Handle(ok)
    else if ConfirmsIdentity(dec, expected, line) && !w.engine.bound then Bind(ok)
    else if SignalOf(dec, expected, line).Some? && !w.engine.signalled then PostSignal
    else Handle(ok)
  }

  /** What is left to do in this state of the loop. */
  function PhaseRank(w: World): nat
    requires w.engine.Up?
  {
    match w.engine.phase
    case LastRead => 20
    case Ready => 10
    case Polling =>
      if w.engine.mode == Live then 30 else if w.engine.cursor.offset < |w.file| then 20 else 10
  }

  function LineRank(e: Engine): nat
    requires e.Up?
  {
    if e.queue == [] then 0 else (if e.bound then 0 else 2) + if e.signalled then 0 else 1
  }

  function Rank(w: World): nat {
    if w.engine.Down? then 0
    else
      var n := |SplitOf(w.file).lines|;
      var left := if w.engine.learned.seqNo <= n then n - w.engine.learned.seqNo else 0;
      10 * left + LineRank(w.engine) + (if w.engine.owesCheckpoint then 2 else 0)
      + (if w.update.Some? then 1 else 0) + PhaseRank(w)
  }

  /** A step either settles the run or brings its end closer. */
  predicate Advances(w: World, w': World) {
    && w'.file == w.file && w'.exit == w.exit
    && if w'.engine.Down? then |w'.settlements| == |w.settlements| + 1
       else w'.settlements == w.settlements && Rank(w') < Rank(w)
  }

  lemma HandleAdvances(dec: Decoder, expected: string, w: World, ok: bool)
    requires FrontCleared(dec, expected, w) && w.engine.learned.seqNo < |SplitOf(w.file).lines|
    requires SignalOf(dec, expected, w.engine.queue[0]).Some? ==> w.engine.signalled
    ensures Advances(w, HandleStep(dec, expected, w, ok))
  {
    hide SplitOf, NamesAnotherSession, ConfirmsIdentity, SignalOf, Entry, ResultOf;
  }

  lemma ForeignLineEnds(dec: Decoder, expected: string, w: World, ok: bool)
    requires Free(w) && w.engine.queue != [] && NamesAnotherSession(dec, expected, w.engine.queue[0])
    ensures Advances(w, HandleStep(dec, expected, w, ok))
  {
    hide SplitOf, NamesAnotherSession;
  }

  lemma BindAdvances(dec: Decoder, expected: string, w: World, ok: bool)
    requires Free(w) && w.engine.queue != [] && ConfirmsIdentity(dec, expected, w.engine.queue[0]) && !w.engine.bound
    ensures Advances(w, BindStep(dec, expected, w, ok))
  {
    hide SplitOf, ConfirmsIdentity;
  }

  lemma PostSignalAdvances(dec: Decoder, expected: string, w: World)
    requires FrontCleared(dec, expected, w) && !w.engine.signalled
    requires SignalOf(dec, expected, w.engine.queue[0]).Some?
    ensures Advances(w, PostSignalStep(dec, expected, w))
  {
    hide SplitOf, NamesAnotherSession, ConfirmsIdentity, SignalOf;
  }

  lemma FrontAdvances(dec: Decoder, expected: string, w: World, ok: bool)
    requires EngineAgrees(dec, expected, w) && w.engine.Up? && w.engine.queue != [] && w.update.None?
    ensures Advances(w, Step(dec, expected, w, FrontAction(dec, expected, w, ok)))
  {
    FrontIsALine(dec, expected, w);
    hide Advances, EngineAgrees, SplitOf, NamesAnotherSession, ConfirmsIdentity, SignalOf;
    hide HandleStep, BindStep, PostSignalStep;
    var line := w.engine.queue[0];
    if NamesAnotherSession(dec, expected, line) {
      ForeignLineEnds(dec, expected, w, ok);
    } else if ConfirmsIdentity(dec, expected, line) && !w.engine.bound {
      BindAdvances(dec, expected, w, ok);
    } else if SignalOf(dec, expected, line).Some? && !w.engine.signalled {
      PostSignalAdvances(dec, expected, w);
    } else {
      HandleAdvances(dec, expected, w, ok);
    }
  }

  lemma ReadAdvances(dec: Decoder, expected: string, w: World, ok: bool)
    requires Inv(dec, expected, w) && CanRead(w)
    requires w.engine.phase == LastRead || (ok && w.engine.mode != Live && w.engine.cursor.offset < |w.file|)
    ensures Advances(w, ReadStep(w, ok, ok))
  {
    if ok {
      ReadOnceTracks(w.engine.cursor, w.file, 0);
    }
    hide Ingest, LastResult, AnyConfirms, SplitOf, ReadOnce, LogAgrees, RecordsAgree, SignalsAgree, SettlementAgrees;
  }

  lemma CheckpointStepAdvances(w: World, ok: bool)
    requires Free(w) && w.engine.queue == [] && w.engine.owesCheckpoint
    ensures Advances(w, CheckpointStep(w, ok))
  {
    hide SplitOf, CompleteOffset;
  }

  lemma ObserveExitAdvances(w: World)
    requires Free(w) && w.engine.queue == [] && !w.engine.owesCheckpoint && w.exit.Some?
    requires w.engine.phase == Polling && w.engine.mode == Live
    ensures Advances(w, ObserveExitStep(w))
  {
    hide SplitOf;
  }

  lemma SettleAdvances(w: World, ok: bool)
    requires Free(w) && w.engine.queue == [] && !w.engine.owesCheckpoint && w.exit.Some?
    requires w.engine.phase == if w.engine.mode == RecoveredMonitor then Polling else Ready
    ensures Advances(w, SettleStep(w, ok, ok))
  {
    hide SplitOf, VerdictOf;
  }

  lemma RestAdvances(dec: Decoder, expected: string, w: World, ok: bool)
    requires EngineAgrees(dec, expected, w) && Free(w) && w.engine.queue == [] && w.exit.Some?
    requires w.engine.owesCheckpoint || w.engine.phase != LastRead
    requires w.engine.owesCheckpoint || w.engine.phase == Ready || w.engine.mode == Live
             || !ok || w.engine.cursor.offset >= |w.file|
    ensures Advances(w, Step(dec, expected, w, OwnAction(dec, expected, w, ok)))
  {
    hide SplitOf, Ingest, LastResult, AnyConfirms, Tracks, Advances, SettleStep, CheckpointStep, ObserveExitStep;
    if w.engine.owesCheckpoint {
      CheckpointStepAdvances(w, ok);
    } else if w.engine.phase == Polling && w.engine.mode == Live {
      ObserveExitAdvances(w);
    } else {
      SettleAdvances(w, ok);
    }
  }

  lemma ReplaceAdvances(w: World)
    requires w.update.Some? && w.engine.Up?
    ensures Advances(w, ReplaceStep(w))
  {
    hide SplitOf;
  }

  lemma OwnStepAdvances(dec: Decoder, expected: string, w: World, ok: bool)
    requires Inv(dec, expected, w) && w.engine.Up? && w.exit.Some?
    ensures Advances(w, Step(dec, expected, w, OwnAction(dec, expected, w, ok)))
  {
    hide Advances, ReadStep, FrontAction, ReplaceStep;
    if w.update.Some? {
      ReplaceAdvances(w);
    } else if w.engine.queue != [] {
      FrontAdvances(dec, expected, w, ok);
    } else if CanRead(w) && (w.engine.phase == LastRead
                             || (ok && w.engine.mode != Live && w.engine.cursor.offset < |w.file|)) {
      ReadAdvances(dec, expected, w, ok);
    } else {
      RestAdvances(dec, expected, w, ok);
    }
  }

  /** The monitor's own steps, with these answers. */
  function Drive(dec: Decoder, expected: string, w: World, answers: seq<bool>): World
    decreases |answers|
  {
    if answers == [] || w.engine.Down? then w
    else Drive(dec, expected, Step(dec, expected, w, OwnAction(dec, expected, w, answers[0])), answers[1..])
  }

  lemma {:induction false} DriveSettles(dec: Decoder, expected: string, w: World, answers: seq<bool>)
    requires Inv(dec, expected, w) && w.engine.Up? && w.exit.Some? && |answers| > Rank(w)
    ensures var w' := Drive(dec, expected, w, answers);
      w'.engine.Down? && w'.file == w.file && |w'.settlements| == |w.settlements| + 1
    decreases |answers|
  {
    hide Inv, Step, OwnAction, Rank;
    OwnStepAdvances(dec, expected, w, answers[0]);
    var a := OwnAction(dec, expected, w, answers[0]);
    var w' := Step(dec, expected, w, a);
    if w'.engine.Up? {
      InvStep(dec, expected, w, a);
      DriveSettles(dec, expected, w', answers[1..]);
    }
  }

  predicate IsOwn(a: Action) {
    a.Replace? || a.Handle? || a.Bind? || a.PostSignal? || a.Checkpoint? || a.Read? || a.Settle? || a.ObserveExit?
  }

  lemma {:induction false} DriveIsARun(dec: Decoder, expected: string, actions: seq<Action>, answers: seq<bool>)
      returns (more: seq<Action>)
    ensures Run(dec, expected, actions + more) == Drive(dec, expected, Run(dec, expected, actions), answers)
    ensures forall a | a in more :: IsOwn(a)
    decreases |answers|
  {
    hide Run, Step, IsOwn;
    if answers == [] || Run(dec, expected, actions).engine.Down? {
      more := [];
      assert actions + more == actions;
    } else {
      var a := OwnAction(dec, expected, Run(dec, expected, actions), answers[0]);
      OwnIsOwn(dec, expected, Run(dec, expected, actions), answers[0]);
      RunSnoc(dec, expected, actions, a);
      hide OwnAction;
      var rest := DriveIsARun(dec, expected, actions + [a], answers[1..]);
      more := [a] + rest;
      assert actions + more == actions + [a] + rest;
    }
  }

  lemma OwnIsOwn(dec: Decoder, expected: string, w: World, ok: bool)
    requires w.engine.Up?
    ensures IsOwn(OwnAction(dec, expected, w, ok))
  {
    hide NamesAnotherSession, ConfirmsIdentity, SignalOf;
  }

  /**
   From every reachable state with a monitor whose provider has exited, in whichever of the three
   monitors and wherever in its loop: its own steps settle the run once more, within a bound and whatever
   its reads and claim writes answer.
   */
  lemma MonitorSettles(dec: Decoder, expected: string, actions: seq<Action>, answers: seq<bool>)
      returns (more: seq<Action>)
    requires var w := Run(dec, expected, actions);
      w.engine.Up? && w.exit.Some? && |answers| > Rank(w)
    ensures var w, w' := Run(dec, expected, actions), Run(dec, expected, actions + more);
      w'.engine.Down? && w'.file == w.file && |w'.settlements| == |w.settlements| + 1
    ensures forall a | a in more :: IsOwn(a)
  {
    hide Run, Drive, Inv, Rank;
    InvRun(dec, expected, actions);
    DriveSettles(dec, expected, Run(dec, expected, actions), answers);
    more := DriveIsARun(dec, expected, actions, answers);
  }
}
