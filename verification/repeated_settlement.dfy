/**
 When a run is settled more than once (engine/src/claude_print.rs, the monitors and `post_terminal`;
 engine/src/turn_claims.rs).

 Every settlement is posted under the run's one terminal key, so a server that keeps the first event of
 a key can be told two verdicts. A settled claim is marked terminal, and recovery leaves terminal claims
 alone; this module says exactly which steps take that mark away, and what they lead to.
 */
module RepeatedSettlement {
  import opened Wrappers
  import opened StreamLines
  import opened StreamProjection
  import opened ClaimWrites
  import opened ProjectionRecovery

  /** The claim is terminal, or the write that makes it terminal is in flight. */
  predicate Ended(w: World) {
    w.claim.terminal || (w.update.Some? && w.update.value.claim.terminal)
  }

  /** What a step would save with the verdict, if it settles the run. */
  predicate SavesEnding(a: Action) {
    match a
    case Read(_, terminalSaved) => terminalSaved
    case Handle(terminalSaved) => terminalSaved
    case WaitFails(terminalSaved) => terminalSaved
    case Settle(_, terminalSaved) => terminalSaved
    case _ => true
  }

  predicate Settles(dec: Decoder, expected: string, w: World, a: Action) {
    |Step(dec, expected, w, a).settlements| > |w.settlements|
  }

  /** A crash before the terminal record is in place, or an interrupt's stale record put over it. */
  predicate Reopens(w: World, a: Action) {
    match a
    case Crash => w.update.Some?
    case CancelWrite(i, _) => i < |w.interrupts| && w.update.None?
    case _ => false
  }

  /** The three ways for a settled run not to stay settled. */
  predicate LosesEnding(dec: Decoder, expected: string, w: World, a: Action) {
    (Settles(dec, expected, w, a) && !SavesEnding(a)) || (Ended(w) && Reopens(w, a))
  }

  // ---------------------------------------------------------------------------------------------
  // What every run keeps
  // ---------------------------------------------------------------------------------------------

  /** A monitor runs only while the claim is open, and nobody but a settlement ends it. */
  ghost predicate EndingInv(w: World) {
    && (w.engine.Up? ==> !Ended(w))
    && (w.engine.Down? && w.update.Some? ==> w.update.value.claim.terminal)
    && (w.claim.terminal ==> w.update.None?)
    && (forall r | r in w.interrupts :: !r.claim.terminal)
    && (w.settlements == [] ==> !Ended(w))
  }

  /** What a step that keeps the claim's ending, and one that settles, look like. */
  predicate KeepsEnding(w: World, w': World) {
    w'.settlements == w.settlements && (Ended(w') <==> Ended(w))
  }

  predicate EndsNow(w: World, w': World, saved: bool) {
    && w.engine.Up? && w'.engine.Down?
    && |w'.settlements| == |w.settlements| + 1
    && w'.claim == w.claim && w'.interrupts == w.interrupts
    && (if saved then w'.update.Some? && w'.update.value.claim.terminal else w'.update.None?)
  }

  lemma ReadEnds(w: World, ok: bool, saved: bool)
    requires EndingInv(w)
    ensures var w' := ReadStep(w, ok, saved);
      EndingInv(w') && (KeepsEnding(w, w') || EndsNow(w, w', saved))
  {
    hide ReadOnce;
  }

  lemma HandleEnds(dec: Decoder, expected: string, w: World, saved: bool)
    requires EndingInv(w)
    ensures var w' := HandleStep(dec, expected, w, saved);
      EndingInv(w') && (KeepsEnding(w, w') || EndsNow(w, w', saved))
  {
    hide NamesAnotherSession, ConfirmsIdentity, SignalOf, Advance, Entry;
  }

  lemma WaitFailsEnds(w: World, saved: bool)
    requires EndingInv(w)
    ensures var w' := WaitFailsStep(w, saved);
      EndingInv(w') && (KeepsEnding(w, w') || EndsNow(w, w', saved))
  {
  }

  lemma SettleEnds(w: World, readable: bool, saved: bool)
    requires EndingInv(w)
    ensures var w' := SettleStep(w, readable, saved);
      EndingInv(w') && (KeepsEnding(w, w') || EndsNow(w, w', saved))
  {
    hide VerdictOf;
  }

  lemma QuietKeeps(dec: Decoder, expected: string, w: World, saved: bool)
    requires EndingInv(w)
    ensures var w' := BindStep(dec, expected, w, saved); EndingInv(w') && KeepsEnding(w, w')
    ensures var w' := PostSignalStep(dec, expected, w); EndingInv(w') && KeepsEnding(w, w')
  {
    hide NamesAnotherSession, ConfirmsIdentity, SignalOf;
  }

  lemma CheckpointKeeps(w: World, saved: bool)
    requires EndingInv(w)
    ensures var w' := CheckpointStep(w, saved); EndingInv(w') && KeepsEnding(w, w')
    ensures var w' := ObserveExitStep(w); EndingInv(w') && KeepsEnding(w, w')
  {
  }

  lemma ReplaceKeeps(w: World)
    requires EndingInv(w)
    ensures var w' := ReplaceStep(w); EndingInv(w') && KeepsEnding(w, w')
    ensures var w' := RecoverStep(w); EndingInv(w') && KeepsEnding(w, w')
  {
  }

  lemma CancelKeeps(w: World)
    requires EndingInv(w)
    ensures var w' := CancelCheckStep(w); EndingInv(w') && KeepsEnding(w, w')
    ensures var w' := CancelReadStep(w); EndingInv(w') && KeepsEnding(w, w')
  {
  }

  lemma CancelWriteReopens(w: World, i: nat, ok: bool)
    requires EndingInv(w)
    ensures var w' := CancelWriteStep(w, i, ok);
      && EndingInv(w') && w'.settlements == w.settlements
      && (Ended(w') <==> Ended(w) && !Reopens(w, CancelWrite(i, ok)))
  {
  }

  lemma CrashReopens(w: World)
    requires EndingInv(w)
    ensures var w' := CrashStep(w);
      EndingInv(w') && w'.settlements == w.settlements && (Ended(w') <==> Ended(w) && !Reopens(w, Crash))
  {
  }

  /**
   Exactly: a run is settled only while it has not ended; a settlement ends it if and only if its claim
   write is built; and what has ended is reopened by the two steps of `Reopens` alone.
   */
  lemma EndingExactly(dec: Decoder, expected: string, w: World, a: Action)
    requires EndingInv(w)
    ensures var w' := Step(dec, expected, w, a);
      && EndingInv(w')
      && (if Settles(dec, expected, w, a) then
            !Ended(w) && |w'.settlements| == |w.settlements| + 1 && (Ended(w') <==> SavesEnding(a))
          else
            w'.settlements == w.settlements && (Ended(w') <==> Ended(w) && !Reopens(w, a)))
  {
    hide EndingInv, AppendStep, ExitStep, ReadStep, BindStep, PostSignalStep, HandleStep, CheckpointStep, ReplaceStep;
    hide ObserveExitStep, WaitFailsStep, SettleStep, RecoverStep, CrashStep, CancelCheckStep, CancelReadStep,
      CancelWriteStep;
    match a
    case Read(ok, saved) => ReadEnds(w, ok, saved); UpIsOpen(w);
    case Handle(saved) => HandleEnds(dec, expected, w, saved); UpIsOpen(w);
    case WaitFails(saved) => WaitFailsEnds(w, saved); UpIsOpen(w);
    case Settle(readable, saved) => SettleEnds(w, readable, saved); UpIsOpen(w);
    case Bind(saved) => QuietKeeps(dec, expected, w, saved);
    case PostSignal => QuietKeeps(dec, expected, w, true);
    case Checkpoint(saved) => CheckpointKeeps(w, saved);
    case ObserveExit => CheckpointKeeps(w, true);
    case Replace => ReplaceKeeps(w);
    case Recover => ReplaceKeeps(w);
    case CancelCheck => CancelKeeps(w);
    case CancelRead => CancelKeeps(w);
    case CancelWrite(i, ok) => CancelWriteReopens(w, i, ok);
    case Crash => CrashReopens(w);
    case Append(bytes) => GrowthKeeps(w, bytes, true);
    case ProviderExits(success) => GrowthKeeps(w, [], success);
  }

  lemma UpIsOpen(w: World)
    requires EndingInv(w)
    ensures w.engine.Up? ==> !Ended(w)
  {
  }

  lemma GrowthKeeps(w: World, bytes: Bytes, success: bool)
    requires EndingInv(w)
    ensures var w' := AppendStep(w, bytes); EndingInv(w') && KeepsEnding(w, w')
    ensures var w' := ExitStep(w, success); EndingInv(w') && KeepsEnding(w, w')
  {
  }

  lemma {:induction false} EndingRun(dec: Decoder, expected: string, actions: seq<Action>)
    ensures EndingInv(Run(dec, expected, actions))
  {
    if actions != [] {
      hide EndingInv, Step;
      EndingRun(dec, expected, actions[..|actions| - 1]);
      EndingExactly(dec, expected, Run(dec, expected, actions[..|actions| - 1]), actions[|actions| - 1]);
    }
  }

  // ---------------------------------------------------------------------------------------------
  // Results
  // ---------------------------------------------------------------------------------------------

  /** No step of the run was one of the three. */
  predicate KeepsEndings(dec: Decoder, expected: string, actions: seq<Action>) {
    forall k | 0 <= k < |actions| :: !LosesEnding(dec, expected, Run(dec, expected, actions[..k]), actions[k])
  }

  /**
   Without those steps a run is settled at most once, whatever crashes and recoveries it goes through:
   its terminal key carries one verdict.
   */
  lemma {:induction false} SettlesOnce(dec: Decoder, expected: string, actions: seq<Action>)
    requires KeepsEndings(dec, expected, actions)
    ensures var w := Run(dec, expected, actions);
      |w.settlements| <= 1 && (Ended(w) <==> w.settlements != [])
  {
    if actions != [] {
      var n := |actions| - 1;
      KeepsEarlier(dec, expected, actions);
      EndingRun(dec, expected, actions[..n]);
      hide EndingInv, Step, Ended, LosesEnding, KeepsEndings;
      SettlesOnce(dec, expected, actions[..n]);
      hide Run;
      StillOnce(dec, expected, Run(dec, expected, actions[..n]), actions[n]);
    }
  }

  lemma KeepsEarlier(dec: Decoder, expected: string, actions: seq<Action>)
    requires actions != [] && KeepsEndings(dec, expected, actions)
    ensures var n := |actions| - 1;
      && KeepsEndings(dec, expected, actions[..n])
      && !LosesEnding(dec, expected, Run(dec, expected, actions[..n]), actions[n])
      && Run(dec, expected, actions) == Step(dec, expected, Run(dec, expected, actions[..n]), actions[n])
  {
    hide LosesEnding, Run, Step;
    var n := |actions| - 1;
    RunSnoc(dec, expected, actions[..n], actions[n]);
    assert actions[..n] + [actions[n]] == actions;
    assert forall k | 0 <= k < n :: actions[..n][..k] == actions[..k] && actions[..n][k] == actions[k];
  }

  lemma StillOnce(dec: Decoder, expected: string, w: World, a: Action)
    requires EndingInv(w) && |w.settlements| <= 1 && (Ended(w) <==> w.settlements != [])
    requires !LosesEnding(dec, expected, w, a)
    ensures var w' := Step(dec, expected, w, a);
      |w'.settlements| <= 1 && (Ended(w') <==> w'.settlements != [])
  {
    hide EndingInv, Step, Ended, Reopens, SavesEnding;
    EndingExactly(dec, expected, w, a);
  }

  /** The engine restarts once the provider is gone, cannot read its output, and settles the run. */
  const RESTART: seq<Action> := [Crash, ProviderExits(true), Recover, Read(false, true), Settle(true, true)]

  function DoRestart(dec: Decoder, expected: string, w: World): World {
    var w3 := Step(dec, expected, Step(dec, expected, Step(dec, expected, w, Crash), ProviderExits(true)), Recover);
    Step(dec, expected, Step(dec, expected, w3, Read(false, true)), Settle(true, true))
  }

  lemma RestartIsARun(dec: Decoder, expected: string, actions: seq<Action>)
    ensures Run(dec, expected, actions + RESTART) == DoRestart(dec, expected, Run(dec, expected, actions))
  {
    hide Step, Run;
    var a1 := actions + [Crash];
    var a2 := a1 + [ProviderExits(true)];
    var a3 := a2 + [Recover];
    var a4 := a3 + [Read(false, true)];
    RunSnoc(dec, expected, actions, Crash);
    RunSnoc(dec, expected, a1, ProviderExits(true));
    RunSnoc(dec, expected, a2, Recover);
    RunSnoc(dec, expected, a3, Read(false, true));
    RunSnoc(dec, expected, a4, Settle(true, true));
    assert actions + RESTART == a4 + [Settle(true, true)];
  }

  /** The same through the monitors' steps. */
  lemma RestartSteps(dec: Decoder, expected: string, w: World)
    ensures DoRestart(dec, expected, w)
         == SettleStep(ReadStep(RecoverStep(ExitStep(CrashStep(w), true)), false, true), true, true)
  {
    hide CrashStep, ExitStep, RecoverStep, ReadStep, SettleStep;
  }

  /** One more settlement, with this verdict. */
  predicate SettledAgain(w: World, w': World, verdict: Verdict) {
    && |w'.settlements| == |w.settlements| + 1 && w'.settlements[..|w.settlements|] == w.settlements
    && w'.settlements[|w.settlements|].verdict == verdict
  }

  /** What a restart makes of an open claim: a verdict that never is "completed". */
  lemma RestartSettles(dec: Decoder, expected: string, w: World)
    requires !w.claim.terminal
    ensures SettledAgain(w, DoRestart(dec, expected, w), if w.claim.cancelRequested then RunCancelled else RunFailed)
  {
    RestartSteps(dec, expected, w);
    var w2 := ExitStep(CrashStep(w), true);
    assert w2.claim == w.claim && w2.settlements == w.settlements && w2.exit.Some?;
    assert w2.engine.Down? && w2.update.None? && w2.checked == 0 && w2.interrupts == [];
    hide DoRestart, CrashStep, ExitStep, RecoverStep, ReadStep, SettleStep;
    RecoveredSettles(w2);
  }

  lemma RecoveredSettles(w: World)
    requires w.engine.Down? && w.update.None? && w.checked == 0 && w.interrupts == []
    requires !w.claim.terminal && w.exit.Some?
    ensures SettledAgain(w, SettleStep(ReadStep(RecoverStep(w), false, true), true, true),
                         if w.claim.cancelRequested then RunCancelled else RunFailed)
  {
    var w1 := RecoverStep(w);
    assert w1 == w.(engine := w1.engine) && w1.engine.Up? && w1.engine.mode == RecoveredDead;
    assert w1.engine.phase == LastRead && w1.engine.queue == [] && !w1.engine.owesCheckpoint;
    assert w1.engine.learned.result.None? && w1.engine.startCancelled == w.claim.cancelRequested;
    hide RecoverStep, ReadOnce;
    var w2 := ReadStep(w1, false, true);
    assert w2 == w1.(engine := w1.engine.(phase := Ready));
    hide ReadStep;
    ReadySettles(w2);
  }

  lemma ReadySettles(w: World)
    requires Free(w) && w.engine.mode == RecoveredDead && w.engine.phase == Ready && w.engine.queue == []
    requires !w.engine.owesCheckpoint && w.engine.learned.result.None? && w.exit.Some?
    ensures SettledAgain(w, SettleStep(w, true, true), if w.engine.startCancelled then RunCancelled else RunFailed)
  {
  }

  /**
   Otherwise, whatever verdict a run has been given, it can be given another: exactly while the terminal
   record is not in place, a restart of the engine settles the run once more, as cancelled or failed.
   */
  lemma SettledAgainExactly(dec: Decoder, expected: string, actions: seq<Action>)
    ensures var w := Run(dec, expected, actions);
      var w' := Run(dec, expected, actions + RESTART);
      if w.claim.terminal then w'.settlements == w.settlements
      else SettledAgain(w, w', if w.claim.cancelRequested then RunCancelled else RunFailed)
  {
    RestartIsARun(dec, expected, actions);
    var w := Run(dec, expected, actions);
    hide Run, DoRestart;
    if w.claim.terminal {
      RestartKeeps(dec, expected, w);
    } else {
      RestartSettles(dec, expected, w);
    }
  }

  lemma RestartKeeps(dec: Decoder, expected: string, w: World)
    requires w.claim.terminal
    ensures DoRestart(dec, expected, w).settlements == w.settlements
  {
    RestartSteps(dec, expected, w);
    var w2 := ExitStep(CrashStep(w), true);
    assert RecoverStep(w2) == w2 && w2.engine.Down?;
    hide DoRestart, CrashStep, ExitStep, RecoverStep;
  }
}
