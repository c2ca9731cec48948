/**
 Claude turns across engine crashes (engine/src/claude_print.rs).

 The world holds what survives a crash (the provider's output file, the turn claim, the events
 already handed to the outbox) and the engine that may die at any step. An action whose guard
 fails leaves the world unchanged, so a run is any sequence of actions.

 Claim writers read the record, change it and replace it, in two steps that anything may come between:
 the monitor for bindings, checkpoints and the end of the turn, interrupts for the cancel mark.
 */
module ProjectionRecovery {
  import opened Wrappers
  import opened StreamLines
  import opened StreamProjection
  import opened ClaimWrites

  /** The fields of the durable turn claim that recovery reads. */
  datatype Claim = Claim(
    offset: nat,
    seqNo: nat,
    identityConfirmed: bool,
    cancelRequested: bool,
    terminal: bool)

  /** A replacement built from the record read when the log of writes had `readAt` entries. */
  datatype Replacement = Replacement(claim: Claim, readAt: nat)

  /** Which of the three monitors is at work. */
  datatype Mode = Live | RecoveredMonitor | RecoveredDead

  /** Polling; or the exit was seen and one last read is due; or that read was made. */
  datatype Phase = Polling | LastRead | Ready

  datatype Engine =
    | Down
    | Up(
        mode: Mode,
        phase: Phase,
        cursor: Cursor,
        queue: seq<Bytes>,        // lines returned by the last read and not handled yet
        bound: bool,              // the front line's binding was written, or tried to be
        signalled: bool,          // the front line's signal was posted
        owesCheckpoint: bool,
        learned: Progress,
        drained: bool,            // the last read happened after the provider stopped and succeeded
        start: nat,               // sequence number this incarnation started from
        startConfirmed: bool,     // identity confirmation it started from
        startCancelled: bool,     // cancel mark in the claim it started from
        startVersion: nat)        // and that claim's version

  datatype Ending = Settled | IdentityMismatch | ReadFailed | WaitFailed

  /** A verdict handed to the outbox, with what it was based on. */
  datatype Settlement = Settlement(
    verdict: Verdict,
    ending: Ending,
    mode: Mode,
    drained: bool,
    acknowledged: bool,       // an interrupt had returned success
    cancelRequested: bool,    // the cancel mark in the claim that settlement reads, or would read
    version: nat,             // and that claim's version
    claimReadable: bool,
    start: nat,
    startConfirmed: bool,
    seqNo: nat)

  datatype World = World(
    file: Bytes,
    exit: Option<bool>,       // the provider's exit, and whether it reported success
    claim: Claim,
    writes: seq<Write>,       // history: every replacement of the claim
    update: Option<Replacement>,       // the monitor's claim write in flight
    checked: nat,             // interrupts that found the provider alive
    interrupts: seq<Replacement>,      // interrupts that read the claim to mark it
    acknowledged: bool,       // some interrupt returned success to its caller
    engine: Engine,
    posted: seq<Posted>,      // line events
    signals: seq<Signal>,     // bindings and phases
    signalled: nat,           // history: how many lines have had their signals posted
    settlements: seq<Settlement>)

  datatype Action =
    | Append(bytes: Bytes)
    | ProviderExits(success: bool)
    | CancelCheck
    | CancelRead
    | CancelWrite(i: nat, ok: bool)
    | Read(ok: bool, terminalSaved: bool)
    | Bind(saved: bool)
    | PostSignal
    | Handle(terminalSaved: bool)
    | Checkpoint(saved: bool)
    | Replace
    | ObserveExit
    | WaitFails(terminalSaved: bool)
    | Settle(claimReadable: bool, terminalSaved: bool)
    | Crash
    | Recover

  const FRESH_CLAIM := Claim(0, 0, false, false, false)

  /** The live monitor has posted its first phase. */
  const INITIAL := World(
    [], None, FRESH_CLAIM, [], None, 0, [], false,
    Up(Live, Polling, Cursor(0, []), [], false, false, false, Progress(0, None, false), false, 0, false, false, 0),
    [], [THINKING], 0, [])

  // ---------------------------------------------------------------------------------------------
  // Steps
  // ---------------------------------------------------------------------------------------------

  /** The monitor reads the claim and builds a replacement; `saved` is false when that fails. */
  function Update(w: World, claim: Claim, saved: bool): World {
    w.(update := if saved then Some(Replacement(claim, |w.writes|)) else None)
  }

  /** The engine can take a step of the monitor's own. */
  predicate Free(w: World) {
    w.engine.Up? && w.update.None?
  }

  function End(w: World, s: Settlement, terminalSaved: bool): World {
    Update(w.(engine := Down, settlements := w.settlements + [s]), w.claim.(terminal := true), terminalSaved)
  }

  /** The dead-claim path settles with the copy of the claim it started from. */
  function Report(w: World, verdict: Verdict, ending: Ending, claimReadable: bool): Settlement
    requires w.engine.Up?
  {
    var e := w.engine;
    var dead := e.mode == RecoveredDead;
    Settlement(verdict, ending, e.mode, e.drained, w.acknowledged,
               if dead then e.startCancelled else w.claim.cancelRequested,
               if dead then e.startVersion else |w.writes|,
               claimReadable || dead, e.start, e.startConfirmed, e.learned.seqNo)
  }

  function AppendStep(w: World, bytes: Bytes): World {
    if w.exit.None? then w.(file := w.file + bytes) else w
  }

  function ExitStep(w: World, success: bool): World {
    if w.exit.None? then w.(exit := Some(success)) else w
  }

  /** Monitors and interrupts are tasks of the engine. */
  function CrashStep(w: World): World {
    w.(engine := Down, update := None, checked := 0, interrupts := [])
  }

  function ReadStep(w: World, ok: bool, terminalSaved: bool): World {
    var e := w.engine;
    if !Free(w) || e.queue != [] || e.owesCheckpoint || e.phase == Ready then w
    else if ok then
      var (cursor, lines) := ReadOnce(e.cursor, w.file);
      w.(engine := e.(
           cursor := cursor, queue := lines, bound := false, signalled := false, owesCheckpoint := lines != [],
           phase := if e.phase == LastRead then Ready else Polling,
           drained := e.phase == LastRead))
    else if e.phase == LastRead then w.(engine := e.(phase := Ready))
    else if e.mode == Live then End(w, Report(w, RunFailed, ReadFailed, true), terminalSaved)
    else w
  }

  /** A line that confirms the identity is written to the claim before anything is posted for it. */
  function BindStep(dec: Decoder, expected: string, w: World, saved: bool): World {
    var e := w.engine;
    if !Free(w) || e.queue == [] || e.bound || !ConfirmsIdentity(dec, expected, e.queue[0]) then w
    else Update(w.(engine := e.(bound := true)), w.claim.(identityConfirmed := true), saved)
  }

  /** The front line can be posted: it stops nothing and its binding was dealt with. */
  predicate FrontCleared(dec: Decoder, expected: string, w: World) {
    && Free(w) && w.engine.queue != []
    && !NamesAnotherSession(dec, expected, w.engine.queue[0])
    && (ConfirmsIdentity(dec, expected, w.engine.queue[0]) ==> w.engine.bound)
  }

  function Max(a: nat, b: nat): nat {
    if a < b then b else a
  }

  function PostSignalStep(dec: Decoder, expected: string, w: World): World {
    if !FrontCleared(dec, expected, w) || w.engine.signalled then w
    else
      var signal := SignalOf(dec, expected, w.engine.queue[0]);
      if signal.None? then w
      else
        w.(signals := w.signals + [signal.value],
           signalled := Max(w.signalled, w.engine.learned.seqNo + 1),
           engine := w.engine.(signalled := true))
  }

  /** The world after a line that does not stop the run was handled and posted. */
  function Handled(dec: Decoder, expected: string, w: World): World
    requires w.engine.Up? && w.engine.queue != []
  {
    var e := w.engine;
    var line := e.queue[0];
    w.(posted := w.posted + [Entry(dec, e.learned.seqNo + 1, line)],
       signalled := Max(w.signalled, e.learned.seqNo + 1),
       engine := e.(queue := e.queue[1..], bound := false, signalled := false,
                    learned := Advance(dec, expected, e.learned, line)))
  }

  /** One line; a line naming another session ends the run as failed. */
  function HandleStep(dec: Decoder, expected: string, w: World, terminalSaved: bool): World {
    var e := w.engine;
    if !Free(w) || e.queue == [] then w
    else if NamesAnotherSession(dec, expected, e.queue[0]) then
      End(w, Report(w, RunFailed, IdentityMismatch, true), terminalSaved)
    else if FrontCleared(dec, expected, w) && (SignalOf(dec, expected, e.queue[0]).Some? ==> e.signalled) then
      Handled(dec, expected, w)
    else w
  }

  /** `mark_projection_checkpoint` refuses to move backwards. */
  function SaveCheckpoint(claim: Claim, offset: nat, seqNo: nat): Claim {
    if offset < claim.offset || seqNo < claim.seqNo then claim
    else claim.(offset := offset, seqNo := seqNo)
  }

  /** The saturating subtraction of `persist_projection_checkpoint`. */
  function CompleteOffset(c: Cursor): nat {
    if |c.pending| <= c.offset then c.offset - |c.pending| else 0
  }

  function CheckpointStep(w: World, saved: bool): World {
    var e := w.engine;
    if !Free(w) || e.queue != [] || !e.owesCheckpoint then w
    else
      var w' := w.(engine := e.(owesCheckpoint := false));
      if CompleteOffset(e.cursor) < w.claim.offset || e.learned.seqNo < w.claim.seqNo then w'
      else Update(w', SaveCheckpoint(w.claim, CompleteOffset(e.cursor), e.learned.seqNo), saved)
  }

  /** The monitor's replacement is renamed into place. */
  function ReplaceStep(w: World): World {
    match w.update
    case None => w
    case Some(r) => w.(claim := r.claim, writes := w.writes + [Write(r.readAt, false)], update := None)
  }

  function ObserveExitStep(w: World): World {
    var e := w.engine;
    if Free(w) && e.mode == Live && e.phase == Polling && e.queue == [] && !e.owesCheckpoint && w.exit.Some?
    then w.(engine := e.(phase := LastRead))
    else w
  }

  /** The live monitor cannot learn whether its child has exited. */
  function WaitFailsStep(w: World, terminalSaved: bool): World {
    var e := w.engine;
    if Free(w) && e.mode == Live && e.phase == Polling && e.queue == [] && !e.owesCheckpoint
    then End(w, Report(w, RunFailed, WaitFailed, true), terminalSaved)
    else w
  }

  function VerdictOf(w: World, claimReadable: bool): Verdict
    requires w.engine.Up?
  {
    var e := w.engine;
    var cancelled := if e.mode == RecoveredDead then e.startCancelled else claimReadable && w.claim.cancelRequested;
    if e.mode == Live then
      SettleLive(cancelled, w.exit == Some(true), e.learned.confirmed, e.learned.result)
    else
      SettleRecovered(cancelled, e.learned.confirmed, e.learned.result)
  }

  function SettleStep(w: World, claimReadable: bool, terminalSaved: bool): World {
    var e := w.engine;
    if !Free(w) || e.queue != [] || e.owesCheckpoint || w.exit.None? then w
    else if (if e.mode == RecoveredMonitor then e.phase == Polling else e.phase == Ready) then
      End(w, Report(w, VerdictOf(w, claimReadable), Settled, claimReadable), terminalSaved)
    else w
  }

  /** A new engine process; nothing of the old one is left. */
  function RecoverStep(w: World): World {
    if w.engine.Up? || w.update.Some? || w.checked > 0 || w.interrupts != [] || w.claim.terminal then w
    else
      var c := w.claim;
      var (mode, phase) :=
        if w.exit.None? then (RecoveredMonitor, Polling) else (RecoveredDead, LastRead);
      w.(engine := Up(
           mode, phase, Cursor(c.offset, []), [], false, false, false,
           Progress(c.seqNo, None, c.identityConfirmed), false,
           c.seqNo, c.identityConfirmed, c.cancelRequested, |w.writes|))
  }

  /** An interrupt first makes sure that the provider is alive, */
  function CancelCheckStep(w: World): World {
    if w.exit.Some? || w.claim.terminal then w else w.(checked := w.checked + 1)
  }

  /** then reads the claim to mark it, */
  function CancelReadStep(w: World): World {
    if w.checked == 0 || w.claim.terminal then w
    else
      w.(checked := w.checked - 1,
         interrupts := w.interrupts + [Replacement(w.claim.(cancelRequested := true), |w.writes|)])
  }

  /** then replaces it, and succeeds unless the signal it sends next fails. */
  function CancelWriteStep(w: World, i: nat, ok: bool): World {
    if i >= |w.interrupts| then w
    else
      var r := w.interrupts[i];
      w.(claim := r.claim, writes := w.writes + [Write(r.readAt, true)],
         interrupts := w.interrupts[..i] + w.interrupts[i + 1..],
         acknowledged := w.acknowledged || ok)
  }

  function Step(dec: Decoder, expected: string, w: World, a: Action): World {
    match a
    case Append(bytes) => AppendStep(w, bytes)
    case ProviderExits(success) => ExitStep(w, success)
    case CancelCheck => CancelCheckStep(w)
    case CancelRead => CancelReadStep(w)
    case CancelWrite(i, ok) => CancelWriteStep(w, i, ok)
    case Read(ok, terminalSaved) => ReadStep(w, ok, terminalSaved)
    case Bind(saved) => BindStep(dec, expected, w, saved)
    case PostSignal => PostSignalStep(dec, expected, w)
    case Handle(terminalSaved) => HandleStep(dec, expected, w, terminalSaved)
    case Checkpoint(saved) => CheckpointStep(w, saved)
    case Replace => ReplaceStep(w)
    case ObserveExit => ObserveExitStep(w)
    case WaitFails(terminalSaved) => WaitFailsStep(w, terminalSaved)
    case Settle(claimReadable, terminalSaved) => SettleStep(w, claimReadable, terminalSaved)
    case Crash => CrashStep(w)
    case Recover => RecoverStep(w)
  }

  function Run(dec: Decoder, expected: string, actions: seq<Action>): World {
    if actions == [] then INITIAL
    else Step(dec, expected, Run(dec, expected, actions[..|actions| - 1]), actions[|actions| - 1])
  }

  // ---------------------------------------------------------------------------------------------
  // The server's view: the first event under each key wins
  // ---------------------------------------------------------------------------------------------

  ghost predicate Holds(log: seq<Posted>, key: Key) {
    exists i :: 0 <= i < |log| && log[i].key == key
  }

  ghost function Ingest(posted: seq<Posted>): seq<Posted> {
    if posted == [] then []
    else
      var log := Ingest(posted[..|posted| - 1]);
      var last := posted[|posted| - 1];
      if Holds(log, last.key) then log else log + [last]
  }

  /** Posting the n-th line's event again changes nothing; posting the next one extends the log. */
  lemma IngestEntry(dec: Decoder, lines: seq<Bytes>, posted: seq<Posted>, k: nat)
    requires k < |lines|
    requires k <= |Ingest(posted)| <= |lines|
    requires Ingest(posted) == Pass(dec, lines)[..|Ingest(posted)|]
    ensures var n := |Ingest(posted)|;
            Ingest(posted + [Entry(dec, k + 1, lines[k])])
              == Pass(dec, lines)[..if k == n then n + 1 else n]
  {
    var n := |Ingest(posted)|;
    var e := Entry(dec, k + 1, lines[k]);
    assert (posted + [e])[..|posted|] == posted;
    assert Ingest(posted + [e]) == if Holds(Ingest(posted), e.key) then Ingest(posted) else Ingest(posted) + [e];
    hide Ingest;
    PassHolds(dec, lines, n, k);
    hide Holds;
    if k == n {
      assert Pass(dec, lines)[..n + 1] == Pass(dec, lines)[..n] + [e];
    }
  }

  lemma PassHolds(dec: Decoder, lines: seq<Bytes>, n: nat, k: nat)
    requires k < |lines| && n <= |lines|
    ensures Holds(Pass(dec, lines)[..n], Entry(dec, k + 1, lines[k]).key) <==> k < n
  {
    var log := Pass(dec, lines)[..n];
    assert forall i :: 0 <= i < n ==> log[i] == Entry(dec, i + 1, lines[i]) && log[i].key.seqNo == i + 1;
    if k < n {
      assert log[k].key == Entry(dec, k + 1, lines[k]).key;
    }
  }

  // ---------------------------------------------------------------------------------------------
  // Invariant
  // ---------------------------------------------------------------------------------------------

  /** The claim can be resumed from: a line boundary, and the number of lines before it. */
  ghost predicate Resumable(claim: Claim, file: Bytes) {
    && claim.offset <= |file|
    && (claim.offset == 0 || file[claim.offset - 1] == NEWLINE)
    && SplitOf(file[..claim.offset]).tail == []
    && claim.seqNo == |SplitOf(file[..claim.offset]).lines|
  }

  /** The log is a prefix of the pass over these lines, and nothing else was posted. */
  ghost predicate IsPrefixLog(dec: Decoder, expected: string, lines: seq<Bytes>, posted: seq<Posted>) {
    var n := |Ingest(posted)|;
    && n <= |lines|
    && Ingest(posted) == Pass(dec, lines)[..n]
    && NoneStops(dec, expected, lines[..n])
    && forall i :: 0 <= i < |posted| ==> posted[i] in Pass(dec, lines)
  }

  ghost predicate LogAgrees(dec: Decoder, expected: string, w: World) {
    IsPrefixLog(dec, expected, SplitOf(w.file).lines, w.posted)
  }

  /** A running monitor has handled lines `start..seqNo` and holds the next ones in its queue. */
  ghost predicate EngineAgrees(dec: Decoder, expected: string, w: World) {
    var lines: seq<Bytes> := SplitOf(w.file).lines;
    var e := w.engine;
    e.Up? ==>
      && Tracks(e.cursor, w.file, 0)
      && e.start <= e.learned.seqNo <= |Ingest(w.posted)|
      && e.learned.seqNo + |e.queue| == |SplitOf(w.file[..e.cursor.offset]).lines| <= |lines|
      && e.queue == lines[e.learned.seqNo..e.learned.seqNo + |e.queue|]
      && e.learned.result == LastResult(dec, lines[e.start..e.learned.seqNo])
      && e.learned.confirmed
         == (e.startConfirmed || AnyConfirms(dec, expected, lines[e.start..e.learned.seqNo]))
      && (e.startConfirmed ==> AnyConfirms(dec, expected, lines))
      && (e.phase != Polling ==> w.exit.Some?)
      && (e.mode == RecoveredDead ==> e.phase != Polling)
      && (e.mode == RecoveredMonitor ==> e.phase == Polling)
      && (e.drained ==> e.phase == Ready && e.cursor.offset == |w.file|)
  }

  /** A record of the claim: resumable, not ahead of what was posted nor of the running monitor. */
  ghost predicate RecordAgrees(dec: Decoder, expected: string, w: World, c: Claim) {
    && Resumable(c, w.file)
    && c.seqNo <= |Ingest(w.posted)|
    && (c.identityConfirmed ==> AnyConfirms(dec, expected, SplitOf(w.file).lines))
    && (w.engine.Up? ==> c.offset <= w.engine.cursor.offset && c.seqNo <= w.engine.learned.seqNo)
  }

  /** So are the claim and every replacement in flight. */
  ghost predicate RecordsAgree(dec: Decoder, expected: string, w: World) {
    && RecordAgrees(dec, expected, w, w.claim)
    && (w.update.Some? ==> RecordAgrees(dec, expected, w, w.update.value.claim))
    && forall i :: 0 <= i < |w.interrupts| ==> RecordAgrees(dec, expected, w, w.interrupts[i].claim)
  }

  /** The signals posted are the first phase and those of the first `signalled` lines. */
  ghost predicate SignalsAgree(dec: Decoder, expected: string, w: World) {
    var lines: seq<Bytes> := SplitOf(w.file).lines;
    && |Ingest(w.posted)| <= w.signalled <= |lines|
    && NoneStops(dec, expected, lines[..w.signalled])
    && (forall x :: x in w.signals <==>
          x == THINKING || SignalAmong(dec, expected, lines[..w.signalled], x))
    && (w.engine.Up? && w.engine.signalled ==> w.engine.learned.seqNo < w.signalled)
  }

  ghost predicate SignalAmong(dec: Decoder, expected: string, lines: seq<Bytes>, x: Signal) {
    exists k :: 0 <= k < |lines| && SignalOf(dec, expected, lines[k]) == Some(x)
  }

  /** What a recorded verdict says about the output file. */
  ghost predicate SettlementAgrees(dec: Decoder, expected: string, w: World, s: Settlement) {
    var lines: seq<Bytes> := SplitOf(w.file).lines;
    && s.start <= s.seqNo <= |Ingest(w.posted)| <= |lines|
    && (s.startConfirmed ==> AnyConfirms(dec, expected, lines))
    && (s.drained ==> w.exit.Some?)
    && (s.ending == Settled ==>
          && w.exit.Some?
          && (s.drained ==> s.seqNo == |lines|)
          && s.verdict == (
               var cancelled := s.cancelRequested && s.claimReadable;
               var handled := lines[s.start..s.seqNo];
               var confirmed := s.startConfirmed || AnyConfirms(dec, expected, handled);
               if s.mode == Live then
                 SettleLive(cancelled, w.exit == Some(true), confirmed, LastResult(dec, handled))
               else SettleRecovered(cancelled, confirmed, LastResult(dec, handled))))
    && (s.ending == IdentityMismatch ==>
          && s.verdict == RunFailed
          && s.seqNo < |lines|
          && NamesAnotherSession(dec, expected, lines[s.seqNo]))
    && (s.ending == ReadFailed || s.ending == WaitFailed ==> s.verdict == RunFailed && s.mode == Live)
  }

  ghost predicate Inv(dec: Decoder, expected: string, w: World) {
    && LogAgrees(dec, expected, w)
    && EngineAgrees(dec, expected, w)
    && RecordsAgree(dec, expected, w)
    && SignalsAgree(dec, expected, w)
    && forall i :: 0 <= i < |w.settlements| ==> SettlementAgrees(dec, expected, w, w.settlements[i])
  }

  lemma InvInitial(dec: Decoder, expected: string)
    ensures Inv(dec, expected, INITIAL)
  {
    assert INITIAL.file[..0] == [];
    assert SplitOf([]) == EMPTY_SPLIT;
    hide SignalOf;
  }

  lemma AppendLog(dec: Decoder, expected: string, w: World, bytes: Bytes)
    requires LogAgrees(dec, expected, w) && w.exit.None?
    ensures LogAgrees(dec, expected, AppendStep(w, bytes))
  {
    hide Ingest, Feed, Entry, NamesAnotherSession;
    var w' := AppendStep(w, bytes);
    assert w'.file[..|w.file|] == w.file;
    LinesGrow(w'.file, |w.file|);
    var was: seq<Bytes> := SplitOf(w.file).lines;
    var lines: seq<Bytes> := SplitOf(w'.file).lines;
    var n := |Ingest(w.posted)|;
    assert lines[..n] == was[..n];
    PassPrefix(dec, lines, |was|);
    assert Pass(dec, was)[..n] == Pass(dec, lines)[..n];
    assert forall p :: p in Pass(dec, was) ==> p in Pass(dec, lines);
  }

  lemma SliceOfPrefix(was: seq<Bytes>, lines: seq<Bytes>, i: nat, j: nat)
    requires i <= j <= |was| <= |lines| && was == lines[..|was|]
    ensures lines[i..j] == was[i..j]
  {
  }

  lemma AppendEngine(dec: Decoder, expected: string, w: World, bytes: Bytes)
    requires EngineAgrees(dec, expected, w) && w.exit.None? && w.engine.Up?
    ensures EngineAgrees(dec, expected, AppendStep(w, bytes))
  {
    hide Ingest, Feed, LastResult, AnyConfirms;
    var w' := AppendStep(w, bytes);
    var e := w.engine;
    assert w'.file[..|w.file|] == w.file;
    LinesGrow(w'.file, |w.file|);
    var was: seq<Bytes> := SplitOf(w.file).lines;
    var lines: seq<Bytes> := SplitOf(w'.file).lines;
    TracksGrow(e.cursor, w.file, bytes, 0);
    assert w'.file[..e.cursor.offset] == w.file[..e.cursor.offset];
    var m := e.learned.seqNo + |e.queue|;
    assert e.start <= e.learned.seqNo <= m <= |was|;
    SliceOfPrefix(was, lines, e.start, e.learned.seqNo);
    SliceOfPrefix(was, lines, e.learned.seqNo, m);
    AnyConfirmsGrows(dec, expected, was, lines);
  }

  lemma AppendRecord(dec: Decoder, expected: string, w: World, bytes: Bytes, c: Claim)
    requires w.exit.None? && RecordAgrees(dec, expected, w, c)
    ensures RecordAgrees(dec, expected, AppendStep(w, bytes), c)
  {
    hide Ingest, SplitOf, AnyConfirms;
    var w' := AppendStep(w, bytes);
    assert w'.file[..|w.file|] == w.file;
    assert w'.file[..c.offset] == w.file[..c.offset];
    LinesGrow(w'.file, |w.file|);
    AnyConfirmsGrows(dec, expected, SplitOf(w.file).lines, SplitOf(w'.file).lines);
  }

  lemma AppendSignals(dec: Decoder, expected: string, w: World, bytes: Bytes)
    requires w.exit.None? && SignalsAgree(dec, expected, w)
    ensures SignalsAgree(dec, expected, AppendStep(w, bytes))
  {
    hide Ingest, SplitOf, SignalAmong, NoneStops;
    var w' := AppendStep(w, bytes);
    assert w'.file[..|w.file|] == w.file;
    LinesGrow(w'.file, |w.file|);
    assert SplitOf(w'.file).lines[..w.signalled] == SplitOf(w.file).lines[..w.signalled];
  }

  /** Everything already known about a file stays true when the provider writes more. */
  lemma InvAppend(dec: Decoder, expected: string, w: World, bytes: Bytes)
    requires Inv(dec, expected, w)
    ensures Inv(dec, expected, AppendStep(w, bytes))
  {
    var w' := AppendStep(w, bytes);
    if w.exit.None? {
      hide Ingest, SettlementAgrees, LogAgrees, SignalsAgree, SplitOf, AnyConfirms, RecordAgrees;
      AppendLog(dec, expected, w, bytes);
      AppendSignals(dec, expected, w, bytes);
      if w.engine.Up? {
        AppendEngine(dec, expected, w, bytes);
      }
      AppendRecord(dec, expected, w, bytes, w.claim);
      if w.update.Some? {
        AppendRecord(dec, expected, w, bytes, w.update.value.claim);
      }
      forall i | 0 <= i < |w.interrupts|
        ensures RecordAgrees(dec, expected, w', w.interrupts[i].claim)
      {
        AppendRecord(dec, expected, w, bytes, w.interrupts[i].claim);
      }
      forall i | 0 <= i < |w.settlements|
        ensures SettlementAgrees(dec, expected, w', w.settlements[i])
      {
        SettlementGrows(dec, expected, w, bytes, w.settlements[i]);
      }
    }
  }

  lemma SettlementGrows(dec: Decoder, expected: string, w: World, bytes: Bytes, s: Settlement)
    requires w.exit.None? && SettlementAgrees(dec, expected, w, s)
    ensures SettlementAgrees(dec, expected, w.(file := w.file + bytes), s)
  {
    hide Ingest, LastResult, Feed;
    var file := w.file + bytes;
    assert file[..|w.file|] == w.file;
    LinesGrow(file, |w.file|);
    AnyConfirmsGrows(dec, expected, SplitOf(w.file).lines, SplitOf(file).lines);
  }

  lemma AnyConfirmsGrows(dec: Decoder, expected: string, part: seq<Bytes>, lines: seq<Bytes>)
    requires part <= lines
    ensures AnyConfirms(dec, expected, part) ==> AnyConfirms(dec, expected, lines)
  {
    if AnyConfirms(dec, expected, part) {
      var i :| 0 <= i < |part| && ConfirmsIdentity(dec, expected, part[i]);
      assert lines[i] == part[i];
    }
  }

  /** Settlements depend on the file, the exit and the growing log only. */
  lemma SettlementsKept(dec: Decoder, expected: string, w: World, w': World)
    requires forall i :: 0 <= i < |w.settlements| ==> SettlementAgrees(dec, expected, w, w.settlements[i])
    requires w'.file == w.file && w'.exit == w.exit
    requires |Ingest(w.posted)| <= |Ingest(w'.posted)| <= |SplitOf(w.file).lines|
    requires w.settlements <= w'.settlements
    requires |w'.settlements| <= |w.settlements| + 1
    requires |w'.settlements| == |w.settlements| + 1
             ==> SettlementAgrees(dec, expected, w', w'.settlements[|w.settlements|])
    ensures forall i :: 0 <= i < |w'.settlements| ==> SettlementAgrees(dec, expected, w', w'.settlements[i])
  {
    hide Ingest, LastResult, AnyConfirms, SplitOf;
    forall i | 0 <= i < |w'.settlements|
      ensures SettlementAgrees(dec, expected, w', w'.settlements[i])
    {
      if i < |w.settlements| {
        assert w'.settlements[i] == w.settlements[i];
      }
    }
  }

  /** Neither the log, the monitor nor the records move back. */
  ghost predicate Onward(w: World, w': World) {
    && w'.file == w.file
    && |Ingest(w.posted)| <= |Ingest(w'.posted)|
    && (w'.engine.Up? ==>
          && w.engine.Up?
          && w.engine.cursor.offset <= w'.engine.cursor.offset
          && w.engine.learned.seqNo <= w'.engine.learned.seqNo)
  }

  /** Then records that agreed still agree. */
  lemma RecordsKept(dec: Decoder, expected: string, w: World, w': World)
    requires RecordsAgree(dec, expected, w) && Onward(w, w')
    requires RecordAgrees(dec, expected, w, w'.claim)
    requires w'.update.Some? ==> RecordAgrees(dec, expected, w, w'.update.value.claim)
    requires forall i :: 0 <= i < |w'.interrupts| ==> RecordAgrees(dec, expected, w, w'.interrupts[i].claim)
    ensures RecordsAgree(dec, expected, w')
  {
    hide Ingest, Resumable, AnyConfirms, SplitOf;
    forall i | 0 <= i < |w'.interrupts|
      ensures RecordAgrees(dec, expected, w', w'.interrupts[i].claim)
    {
      assert RecordAgrees(dec, expected, w, w'.interrupts[i].claim);
    }
  }

  /** The engine ends; its last write of the claim is in flight. */
  lemma InvEnd(dec: Decoder, expected: string, w: World, s: Settlement, terminalSaved: bool)
    requires Inv(dec, expected, w) && SettlementAgrees(dec, expected, w, s)
    ensures Inv(dec, expected, End(w, s, terminalSaved))
  {
    hide Ingest, Pass, AnyConfirms, NoneStops, SplitOf, SignalAmong;
    var w' := End(w, s, terminalSaved);
    RecordsKept(dec, expected, w, w');
    assert SettlementAgrees(dec, expected, w', s);
    SettlementsKept(dec, expected, w, w');
  }

  lemma InvRead(dec: Decoder, expected: string, w: World, ok: bool, terminalSaved: bool)
    requires Inv(dec, expected, w)
    ensures Inv(dec, expected, ReadStep(w, ok, terminalSaved))
  {
    hide Ingest, LastResult, Pass, AnyConfirms, NoneStops, Feed, SignalAmong;
    var e := w.engine;
    var w' := ReadStep(w, ok, terminalSaved);
    if Free(w) && e.queue == [] && !e.owesCheckpoint && e.phase != Ready {
      if !ok && e.phase != LastRead && e.mode == Live {
        hide Inv;
        ReadFailureAgrees(dec, expected, w);
        InvEnd(dec, expected, w, Report(w, RunFailed, ReadFailed, true), terminalSaved);
      } else {
        ReadOnceTracks(e.cursor, w.file, 0);
        assert w.file[..|w.file|] == w.file;
        RecordsKept(dec, expected, w, w');
        SettlementsKept(dec, expected, w, w');
      }
    }
  }

  lemma ReadFailureAgrees(dec: Decoder, expected: string, w: World)
    requires Inv(dec, expected, w) && w.engine.Up? && w.engine.phase == Polling && w.engine.mode == Live
    ensures SettlementAgrees(dec, expected, w, Report(w, RunFailed, ReadFailed, true))
    ensures SettlementAgrees(dec, expected, w, Report(w, RunFailed, WaitFailed, true))
  {
    hide Ingest, LastResult, Pass, AnyConfirms, NoneStops, Feed;
  }

  lemma InvWaitFails(dec: Decoder, expected: string, w: World, terminalSaved: bool)
    requires Inv(dec, expected, w)
    ensures Inv(dec, expected, WaitFailsStep(w, terminalSaved))
  {
    hide Inv;
    if WaitFailsStep(w, terminalSaved) != w {
      ReadFailureAgrees(dec, expected, w);
      InvEnd(dec, expected, w, Report(w, RunFailed, WaitFailed, true), terminalSaved);
    }
  }

  lemma FrontIsALine(dec: Decoder, expected: string, w: World)
    requires EngineAgrees(dec, expected, w) && w.engine.Up? && w.engine.queue != []
    ensures var lines: seq<Bytes> := SplitOf(w.file).lines;
            w.engine.learned.seqNo < |lines| && w.engine.queue[0] == lines[w.engine.learned.seqNo]
  {
    hide Ingest, LastResult, AnyConfirms, SplitOf;
  }

  lemma InvBind(dec: Decoder, expected: string, w: World, saved: bool)
    requires Inv(dec, expected, w)
    ensures Inv(dec, expected, BindStep(dec, expected, w, saved))
  {
    var w' := BindStep(dec, expected, w, saved);
    if w != w' {
      FrontIsALine(dec, expected, w);
      assert AnyConfirms(dec, expected, SplitOf(w.file).lines);
      hide Ingest, LastResult, Pass, NoneStops, SplitOf, AnyConfirms, SignalAmong, Tracks, Resumable;
      hide SettlementAgrees, NamesAnotherSession, ConfirmsIdentity;
      RecordsKept(dec, expected, w, w');
      SettlementsKept(dec, expected, w, w');
    }
  }

  lemma SignalAmongSnoc(dec: Decoder, expected: string, lines: seq<Bytes>, n: nat, x: Signal)
    requires n < |lines|
    ensures SignalAmong(dec, expected, lines[..n + 1], x)
       <==> SignalAmong(dec, expected, lines[..n], x) || SignalOf(dec, expected, lines[n]) == Some(x)
  {
    hide SignalOf;
    assert lines[..n + 1] == lines[..n] + [lines[n]];
    assert forall k :: 0 <= k < n ==> lines[..n + 1][k] == lines[..n][k];
    assert lines[..n + 1][n] == lines[n];
  }

  /** Signals of a line already counted, or of the next one, extend what was posted correctly. */
  lemma SignalsExtend(dec: Decoder, expected: string, w: World, k: nat, signals: seq<Signal>)
    requires SignalsAgree(dec, expected, w)
    requires var lines: seq<Bytes> := SplitOf(w.file).lines;
             k < |lines| && k <= w.signalled && !NamesAnotherSession(dec, expected, lines[k])
    requires var signal := SignalOf(dec, expected, SplitOf(w.file).lines[k]);
             if signal.Some? then signals == w.signals + [signal.value] || (signals == w.signals && signal.value in w.signals)
             else signals == w.signals
    ensures var n := Max(w.signalled, k + 1);
            && |Ingest(w.posted)| <= n <= |SplitOf(w.file).lines|
            && NoneStops(dec, expected, SplitOf(w.file).lines[..n])
            && (forall x :: x in signals <==>
                  x == THINKING || SignalAmong(dec, expected, SplitOf(w.file).lines[..n], x))
  {
    hide Ingest, SplitOf, SignalOf, NamesAnotherSession;
    var lines: seq<Bytes> := SplitOf(w.file).lines;
    var n := w.signalled;
    assert forall i :: 0 <= i < n ==> lines[..n][i] == lines[i];
    forall x: Signal
      ensures SignalAmong(dec, expected, lines[..Max(n, k + 1)], x)
         <==> SignalAmong(dec, expected, lines[..n], x) || SignalOf(dec, expected, lines[k]) == Some(x)
    {
      if k < n {
        assert lines[..n][k] == lines[k];
      } else {
        SignalAmongSnoc(dec, expected, lines, n, x);
      }
    }
  }

  /** Signals and the flag of the front line matter to nothing else. */
  lemma SignalStepKeepsRest(dec: Decoder, expected: string, w: World, signals: seq<Signal>, n: nat)
    requires LogAgrees(dec, expected, w) && EngineAgrees(dec, expected, w) && w.engine.Up?
    ensures var w' := w.(signals := signals, signalled := n, engine := w.engine.(signalled := true));
            LogAgrees(dec, expected, w') && EngineAgrees(dec, expected, w')
  {
    hide Ingest, LastResult, Pass, NoneStops, SplitOf, AnyConfirms, Tracks;
  }

  lemma PostedSignalsAgree(dec: Decoder, expected: string, w: World)
    requires EngineAgrees(dec, expected, w) && SignalsAgree(dec, expected, w)
    ensures SignalsAgree(dec, expected, PostSignalStep(dec, expected, w))
  {
    var w' := PostSignalStep(dec, expected, w);
    if w != w' {
      FrontIsALine(dec, expected, w);
      assert w.engine.learned.seqNo <= |Ingest(w.posted)|;
      hide Ingest, SplitOf, SignalAmong, SignalOf, NamesAnotherSession, EngineAgrees;
      SignalsExtend(dec, expected, w, w.engine.learned.seqNo, w'.signals);
    }
  }

  lemma InvPostSignal(dec: Decoder, expected: string, w: World)
    requires Inv(dec, expected, w)
    ensures Inv(dec, expected, PostSignalStep(dec, expected, w))
  {
    var w' := PostSignalStep(dec, expected, w);
    if w != w' {
      FrontIsALine(dec, expected, w);
      PostedSignalsAgree(dec, expected, w);
      hide Ingest, SplitOf, SignalOf, NamesAnotherSession, SignalsAgree, RecordAgrees, SettlementAgrees;
      SignalStepKeepsRest(dec, expected, w, w'.signals, w'.signalled);
      hide LogAgrees, EngineAgrees;
      RecordsKept(dec, expected, w, w');
      InvLogBound(dec, expected, w);
      SettlementsKept(dec, expected, w, w');
    }
  }

  lemma InvLogBound(dec: Decoder, expected: string, w: World)
    requires Inv(dec, expected, w)
    ensures |Ingest(w.posted)| <= |SplitOf(w.file).lines|
  {
    hide Ingest, SplitOf;
  }

  lemma LogExtends(dec: Decoder, expected: string, lines: seq<Bytes>, posted: seq<Posted>, k: nat)
    requires IsPrefixLog(dec, expected, lines, posted)
    requires k <= |Ingest(posted)| && k < |lines| && !NamesAnotherSession(dec, expected, lines[k])
    ensures var posted' := posted + [Entry(dec, k + 1, lines[k])];
      && IsPrefixLog(dec, expected, lines, posted')
      && |Ingest(posted')| == Max(|Ingest(posted)|, k + 1)
  {
    var n := |Ingest(posted)|;
    var posted' := posted + [Entry(dec, k + 1, lines[k])];
    IngestEntry(dec, lines, posted, k);
    assert Entry(dec, k + 1, lines[k]) == Pass(dec, lines)[k];
    hide Ingest, Entry, NamesAnotherSession, Pass;
    assert NoneStops(dec, expected, lines[..|Ingest(posted')|]) by {
      assert forall i :: 0 <= i < n ==> lines[..|Ingest(posted')|][i] == lines[..n][i];
    }
  }

  lemma HandledLog(dec: Decoder, expected: string, w: World)
    requires LogAgrees(dec, expected, w) && EngineAgrees(dec, expected, w)
    requires w.engine.Up? && w.engine.queue != []
    requires !NamesAnotherSession(dec, expected, w.engine.queue[0])
    ensures var w' := Handled(dec, expected, w);
            && LogAgrees(dec, expected, w')
            && |Ingest(w.posted)| <= |Ingest(w'.posted)|
            && w.engine.learned.seqNo < |Ingest(w'.posted)| <= Max(|Ingest(w.posted)|, w.engine.learned.seqNo + 1)
  {
    FrontIsALine(dec, expected, w);
    HandledAtMost(dec, expected, w);
    LogExtends(dec, expected, SplitOf(w.file).lines, w.posted, w.engine.learned.seqNo);
    hide Ingest, EngineAgrees, IsPrefixLog, Advance, NamesAnotherSession, SplitOf, Entry;
  }

  lemma HandledAtMost(dec: Decoder, expected: string, w: World)
    requires EngineAgrees(dec, expected, w) && w.engine.Up?
    ensures w.engine.learned.seqNo <= |Ingest(w.posted)|
  {
    hide Ingest, SplitOf, Tracks, LastResult, AnyConfirms;
  }

  lemma AnyConfirmsSnoc(dec: Decoder, expected: string, lines: seq<Bytes>, line: Bytes)
    ensures AnyConfirms(dec, expected, lines + [line])
       <==> AnyConfirms(dec, expected, lines) || ConfirmsIdentity(dec, expected, line)
  {
    AnyConfirmsGrows(dec, expected, lines, lines + [line]);
    assert (lines + [line])[|lines|] == line;
    assert forall i :: 0 <= i < |lines| ==> (lines + [line])[i] == lines[i];
  }

  lemma LastResultSnoc(dec: Decoder, lines: seq<Bytes>, line: Bytes)
    ensures LastResult(dec, lines + [line])
         == if ResultOf(dec, line).Some? then ResultOf(dec, line) else LastResult(dec, lines)
  {
    assert (lines + [line])[..|lines|] == lines;
  }

  lemma HandledEngine(dec: Decoder, expected: string, w: World)
    requires EngineAgrees(dec, expected, w)
    requires w.engine.Up? && w.engine.queue != []
    requires w.engine.learned.seqNo < |Ingest(Handled(dec, expected, w).posted)|
    ensures EngineAgrees(dec, expected, Handled(dec, expected, w))
  {
    hide Ingest, SplitOf, Tracks, LastResult;
    var lines: seq<Bytes> := SplitOf(w.file).lines;
    var e := w.engine;
    var k := e.learned.seqNo;
    var before := lines[e.start..k];
    assert e.queue[0] == lines[k];
    assert lines[e.start..k + 1] == before + [lines[k]];
    LastResultSnoc(dec, before, lines[k]);
    AnyConfirmsSnoc(dec, expected, before, lines[k]);
    assert e.queue[1..] == lines[k + 1..k + |e.queue|];
  }

  lemma FrontIsSignalled(dec: Decoder, expected: string, w: World)
    requires SignalsAgree(dec, expected, w) && EngineAgrees(dec, expected, w)
    requires w.engine.Up? && w.engine.queue != []
    requires SignalOf(dec, expected, w.engine.queue[0]).Some? ==> w.engine.signalled
    ensures var signal := SignalOf(dec, expected, w.engine.queue[0]);
      && w.engine.learned.seqNo <= w.signalled
      && (signal.Some? ==> SignalAmong(dec, expected, SplitOf(w.file).lines[..w.signalled], signal.value))
  {
    FrontIsALine(dec, expected, w);
    hide Ingest, SplitOf, SignalOf, NoneStops;
    var lines: seq<Bytes> := SplitOf(w.file).lines;
    var k := w.engine.learned.seqNo;
    if SignalOf(dec, expected, lines[k]).Some? {
      assert lines[..w.signalled][k] == lines[k];
    }
  }

  lemma HandledSignals(dec: Decoder, expected: string, w: World)
    requires SignalsAgree(dec, expected, w) && EngineAgrees(dec, expected, w)
    requires w.engine.Up? && w.engine.queue != [] && !NamesAnotherSession(dec, expected, w.engine.queue[0])
    requires SignalOf(dec, expected, w.engine.queue[0]).Some? ==> w.engine.signalled
    requires |Ingest(Handled(dec, expected, w).posted)| <= Max(|Ingest(w.posted)|, w.engine.learned.seqNo + 1)
    ensures SignalsAgree(dec, expected, Handled(dec, expected, w))
  {
    FrontIsALine(dec, expected, w);
    FrontIsSignalled(dec, expected, w);
    var k := w.engine.learned.seqNo;
    hide Ingest, SplitOf, SignalOf, SignalAmong, EngineAgrees, NoneStops, Entry, Advance, NamesAnotherSession;
    SignalsExtend(dec, expected, w, k, w.signals);
  }

  lemma InvHandled(dec: Decoder, expected: string, w: World)
    requires Inv(dec, expected, w) && FrontCleared(dec, expected, w)
    requires SignalOf(dec, expected, w.engine.queue[0]).Some? ==> w.engine.signalled
    ensures Inv(dec, expected, Handled(dec, expected, w))
  {
    hide Ingest, SplitOf, SignalOf, SignalsAgree, EngineAgrees, RecordAgrees, NamesAnotherSession, ConfirmsIdentity;
    var w' := Handled(dec, expected, w);
    HandledLog(dec, expected, w);
    HandledEngine(dec, expected, w);
    HandledSignals(dec, expected, w);
    RecordsKept(dec, expected, w, w');
    SettlementsKept(dec, expected, w, w');
  }

  lemma MismatchAgrees(dec: Decoder, expected: string, w: World)
    requires Inv(dec, expected, w) && w.engine.Up? && w.engine.queue != []
    requires NamesAnotherSession(dec, expected, w.engine.queue[0])
    ensures SettlementAgrees(dec, expected, w, Report(w, RunFailed, IdentityMismatch, true))
  {
    FrontIsALine(dec, expected, w);
    hide Ingest, LastResult, Pass, AnyConfirms, NoneStops, Feed, Tracks, NamesAnotherSession;
  }

  lemma InvHandle(dec: Decoder, expected: string, w: World, terminalSaved: bool)
    requires Inv(dec, expected, w)
    ensures Inv(dec, expected, HandleStep(dec, expected, w, terminalSaved))
  {
    hide Inv, SignalOf;
    if Free(w) && w.engine.queue != [] {
      if NamesAnotherSession(dec, expected, w.engine.queue[0]) {
        MismatchAgrees(dec, expected, w);
        InvEnd(dec, expected, w, Report(w, RunFailed, IdentityMismatch, true), terminalSaved);
      } else if FrontCleared(dec, expected, w)
                && (SignalOf(dec, expected, w.engine.queue[0]).Some? ==> w.engine.signalled) {
        InvHandled(dec, expected, w);
      }
    }
  }

  /** A checkpoint is taken when every returned line was handled, so it is resumable. */
  lemma InvCheckpoint(dec: Decoder, expected: string, w: World, saved: bool)
    requires Inv(dec, expected, w)
    ensures Inv(dec, expected, CheckpointStep(w, saved))
  {
    hide Ingest, LastResult, Pass, AnyConfirms, NoneStops, Feed, SettlementAgrees, SignalAmong;
    var e := w.engine;
    var w' := CheckpointStep(w, saved);
    if w != w' {
      PendingFits(w.file, w.claim.offset, e.cursor.offset);
      RecordsKept(dec, expected, w, w');
      SettlementsKept(dec, expected, w, w');
    }
  }

  lemma SettleAgrees(dec: Decoder, expected: string, w: World, claimReadable: bool)
    requires Inv(dec, expected, w) && w.engine.Up? && w.engine.queue == [] && w.exit.Some?
    ensures SettlementAgrees(dec, expected, w, Report(w, VerdictOf(w, claimReadable), Settled, claimReadable))
  {
    hide Ingest, LastResult, Pass, AnyConfirms, NoneStops, Feed, Tracks;
    if w.engine.drained {
      assert w.file[..|w.file|] == w.file;
    }
  }

  lemma InvSettle(dec: Decoder, expected: string, w: World, claimReadable: bool, terminalSaved: bool)
    requires Inv(dec, expected, w)
    ensures Inv(dec, expected, SettleStep(w, claimReadable, terminalSaved))
  {
    hide Inv;
    if Free(w) && w.engine.queue == [] && w.exit.Some? {
      SettleAgrees(dec, expected, w, claimReadable);
      InvEnd(dec, expected, w, Report(w, VerdictOf(w, claimReadable), Settled, claimReadable), terminalSaved);
    }
  }

  lemma InvRecover(dec: Decoder, expected: string, w: World)
    requires Inv(dec, expected, w)
    ensures Inv(dec, expected, RecoverStep(w))
  {
    var w' := RecoverStep(w);
    if w != w' {
      hide Ingest, Pass, NoneStops, Feed, SettlementAgrees, SignalAmong;
      var lines: seq<Bytes> := SplitOf(w.file).lines;
      LinesGrow(w.file, w.claim.offset);
      assert w.file[..0] == [] && SplitOf([]).tail == [];
      assert EngineAgrees(dec, expected, w') by {
        assert lines[w.claim.seqNo..w.claim.seqNo] == [];
      }
      assert RecordAgrees(dec, expected, w', w.claim);
      SettlementsKept(dec, expected, w, w');
    }
  }

  lemma InvExit(dec: Decoder, expected: string, w: World, success: bool)
    requires Inv(dec, expected, w)
    ensures Inv(dec, expected, ExitStep(w, success))
  {
    hide Ingest, LastResult, Pass, NoneStops, AnyConfirms, SplitOf, Tracks, SignalAmong, Resumable;
    forall i | 0 <= i < |w.settlements|
      ensures SettlementAgrees(dec, expected, ExitStep(w, success), w.settlements[i])
    {
      assert SettlementAgrees(dec, expected, w, w.settlements[i]);
    }
  }

  lemma MarkedAgrees(dec: Decoder, expected: string, w: World, c: Claim)
    requires RecordAgrees(dec, expected, w, c)
    ensures RecordAgrees(dec, expected, w, c.(cancelRequested := true))
  {
    hide Ingest, SplitOf, AnyConfirms;
  }

  /** Steps that only handle records of the claim keep the invariant if the records agree. */
  lemma InvClaimStep(dec: Decoder, expected: string, w: World, w': World)
    requires Inv(dec, expected, w)
    requires w' == w.(claim := w'.claim, writes := w'.writes, update := w'.update, checked := w'.checked,
                      interrupts := w'.interrupts, acknowledged := w'.acknowledged)
    requires RecordAgrees(dec, expected, w, w'.claim)
    requires w'.update.Some? ==> RecordAgrees(dec, expected, w, w'.update.value.claim)
    requires forall i :: 0 <= i < |w'.interrupts| ==> RecordAgrees(dec, expected, w, w'.interrupts[i].claim)
    ensures Inv(dec, expected, w')
  {
    hide Ingest, LastResult, Pass, AnyConfirms, NoneStops, SplitOf, Tracks, SignalAmong, RecordAgrees;
    RecordsKept(dec, expected, w, w');
    hide SettlementAgrees;
    SettlementsKept(dec, expected, w, w');
  }

  lemma InvCancelRead(dec: Decoder, expected: string, w: World)
    requires Inv(dec, expected, w)
    ensures Inv(dec, expected, CancelCheckStep(w))
    ensures Inv(dec, expected, CancelReadStep(w))
  {
    assert RecordsAgree(dec, expected, w);
    hide Inv, RecordAgrees;
    MarkedAgrees(dec, expected, w, w.claim);
    InvClaimStep(dec, expected, w, CancelCheckStep(w));
    InvClaimStep(dec, expected, w, CancelReadStep(w));
  }

  lemma InvCancelWrite(dec: Decoder, expected: string, w: World, i: nat, ok: bool)
    requires Inv(dec, expected, w)
    ensures Inv(dec, expected, CancelWriteStep(w, i, ok))
  {
    assert RecordsAgree(dec, expected, w);
    hide Inv, RecordAgrees;
    InvClaimStep(dec, expected, w, CancelWriteStep(w, i, ok));
  }

  lemma InvReplace(dec: Decoder, expected: string, w: World)
    requires Inv(dec, expected, w)
    ensures Inv(dec, expected, ReplaceStep(w))
  {
    assert RecordsAgree(dec, expected, w);
    hide Inv, RecordAgrees;
    InvClaimStep(dec, expected, w, ReplaceStep(w));
  }

  lemma InvBystander(dec: Decoder, expected: string, w: World)
    requires Inv(dec, expected, w)
    ensures Inv(dec, expected, ObserveExitStep(w))
    ensures Inv(dec, expected, CrashStep(w))
  {
    hide Ingest, LastResult, Pass, AnyConfirms, NoneStops, SplitOf, Tracks, SettlementAgrees, SignalAmong, Resumable;
    SettlementsKept(dec, expected, w, ObserveExitStep(w));
    SettlementsKept(dec, expected, w, CrashStep(w));
  }

  lemma InvStep(dec: Decoder, expected: string, w: World, a: Action)
    requires Inv(dec, expected, w)
    ensures Inv(dec, expected, Step(dec, expected, w, a))
  {
    hide Inv, AppendStep, ExitStep, ReadStep, BindStep, PostSignalStep, HandleStep, CheckpointStep, ReplaceStep;
    hide ObserveExitStep, WaitFailsStep, SettleStep, RecoverStep, CrashStep, CancelCheckStep, CancelReadStep,
      CancelWriteStep;
    match a
    case Append(bytes) => InvAppend(dec, expected, w, bytes);
    case ProviderExits(success) => InvExit(dec, expected, w, success);
    case CancelCheck => InvCancelRead(dec, expected, w);
    case CancelRead => InvCancelRead(dec, expected, w);
    case CancelWrite(i, ok) => InvCancelWrite(dec, expected, w, i, ok);
    case Read(ok, terminalSaved) => InvRead(dec, expected, w, ok, terminalSaved);
    case Bind(saved) => InvBind(dec, expected, w, saved);
    case PostSignal => InvPostSignal(dec, expected, w);
    case Handle(terminalSaved) => InvHandle(dec, expected, w, terminalSaved);
    case Checkpoint(saved) => InvCheckpoint(dec, expected, w, saved);
    case Replace => InvReplace(dec, expected, w);
    case ObserveExit => InvBystander(dec, expected, w);
    case WaitFails(terminalSaved) => InvWaitFails(dec, expected, w, terminalSaved);
    case Settle(claimReadable, terminalSaved) => InvSettle(dec, expected, w, claimReadable, terminalSaved);
    case Crash => InvBystander(dec, expected, w);
    case Recover => InvRecover(dec, expected, w);
  }

  lemma {:induction false} InvRun(dec: Decoder, expected: string, actions: seq<Action>)
    ensures Inv(dec, expected, Run(dec, expected, actions))
  {
    if actions == [] {
      InvInitial(dec, expected);
    } else {
      hide Inv, Step;
      InvRun(dec, expected, actions[..|actions| - 1]);
      InvStep(dec, expected, Run(dec, expected, actions[..|actions| - 1]), actions[|actions| - 1]);
    }
  }

  lemma RunSnoc(dec: Decoder, expected: string, actions: seq<Action>, a: Action)
    ensures Run(dec, expected, actions + [a]) == Step(dec, expected, Run(dec, expected, actions), a)
  {
    hide Step;
    assert (actions + [a])[..|actions|] == actions;
  }

  // ---------------------------------------------------------------------------------------------
  // The steps and the monitors' loop
  // ---------------------------------------------------------------------------------------------

  /** The front line without a crash: its binding, its signal and its event, as far as it has them. */
  function HandleLine(dec: Decoder, expected: string, w: World): World {
    HandleStep(dec, expected, PostSignalStep(dec, expected, ReplaceStep(BindStep(dec, expected, w, true))), true)
  }

  /** The whole queue. */
  function HandleAll(dec: Decoder, expected: string, w: World): World
    requires Free(w)
    decreases |w.engine.queue|
  {
    if w.engine.queue == [] then w
    else
      var w' := HandleLine(dec, expected, w);
      if Free(w') && |w'.engine.queue| < |w.engine.queue| then HandleAll(dec, expected, w') else w'
  }

  lemma {:induction false} AdvanceAllFront(dec: Decoder, expected: string, p: Progress, line: Bytes, rest: seq<Bytes>)
    ensures AdvanceAll(dec, expected, Advance(dec, expected, p, line), rest)
         == AdvanceAll(dec, expected, p, [line] + rest)
  {
    if rest == [] {
      assert [line] + rest == [line] && [line][..0] == [];
    } else {
      AdvanceAllFront(dec, expected, p, line, rest[..|rest| - 1]);
      assert ([line] + rest)[..|rest|] == [line] + rest[..|rest| - 1];
    }
  }

  function AsSeq(signal: Option<Signal>): seq<Signal> {
    if signal.Some? then [signal.value] else []
  }

  lemma {:induction false} SignalsFront(dec: Decoder, expected: string, line: Bytes, rest: seq<Bytes>)
    ensures Signals(dec, expected, [line] + rest) == AsSeq(SignalOf(dec, expected, line)) + Signals(dec, expected, rest)
  {
    hide SignalOf;
    if rest == [] {
      assert [line] + rest == [line] && [line][..0] == [];
    } else {
      SignalsFront(dec, expected, line, rest[..|rest| - 1]);
      assert ([line] + rest)[..|rest|] == [line] + rest[..|rest| - 1];
    }
  }

  lemma AdvanceCounts(dec: Decoder, expected: string, p: Progress, line: Bytes)
    ensures Advance(dec, expected, p, line).seqNo == p.seqNo + 1
  {
  }

  /** The monitor at a line boundary. */
  predicate AtLine(w: World) {
    Free(w) && !w.engine.bound && !w.engine.signalled
  }

  /** The front line is as it was and may be posted. */
  ghost predicate Prepared(dec: Decoder, expected: string, w: World, w': World)
    requires w.engine.Up?
  {
    && FrontCleared(dec, expected, w')
    && w'.engine.queue == w.engine.queue
    && w'.engine.learned == w.engine.learned
    && w'.posted == w.posted
  }

  lemma FrontBound(dec: Decoder, expected: string, w: World)
    requires AtLine(w) && w.engine.queue != []
    requires !NamesAnotherSession(dec, expected, w.engine.queue[0])
    ensures var w' := ReplaceStep(BindStep(dec, expected, w, true));
            Prepared(dec, expected, w, w') && !w'.engine.signalled && w'.signals == w.signals
  {
    hide ConfirmsIdentity, NamesAnotherSession;
  }

  lemma FrontSignalled(dec: Decoder, expected: string, w: World)
    requires FrontCleared(dec, expected, w) && !w.engine.signalled
    ensures var w' := PostSignalStep(dec, expected, w);
            var signal := SignalOf(dec, expected, w.engine.queue[0]);
            && Prepared(dec, expected, w, w')
            && (signal.Some? ==> w'.engine.signalled)
            && w'.signals == w.signals + AsSeq(signal)
  {
    hide ConfirmsIdentity, NamesAnotherSession, SignalOf;
  }

  lemma FrontPosted(dec: Decoder, expected: string, w: World)
    requires FrontCleared(dec, expected, w)
    requires SignalOf(dec, expected, w.engine.queue[0]).Some? ==> w.engine.signalled
    ensures var w' := HandleStep(dec, expected, w, true);
            && AtLine(w')
            && w'.engine.queue == w.engine.queue[1..]
            && w'.engine.learned == Advance(dec, expected, w.engine.learned, w.engine.queue[0])
            && w'.posted == w.posted + [Entry(dec, w.engine.learned.seqNo + 1, w.engine.queue[0])]
            && w'.signals == w.signals
  {
    hide ConfirmsIdentity, NamesAnotherSession, SignalOf, Entry, Advance;
  }

  lemma HandleOne(dec: Decoder, expected: string, w: World)
    requires AtLine(w) && w.engine.queue != []
    requires !NamesAnotherSession(dec, expected, w.engine.queue[0])
    ensures var w1 := HandleLine(dec, expected, w);
            var line := w.engine.queue[0];
            && AtLine(w1)
            && w1.engine.queue == w.engine.queue[1..]
            && w1.engine.learned == Advance(dec, expected, w.engine.learned, line)
            && w1.posted == w.posted + [Entry(dec, w.engine.learned.seqNo + 1, line)]
            && w1.signals == w.signals + AsSeq(SignalOf(dec, expected, line))
  {
    FrontBound(dec, expected, w);
    var bound := ReplaceStep(BindStep(dec, expected, w, true));
    FrontSignalled(dec, expected, bound);
    FrontPosted(dec, expected, PostSignalStep(dec, expected, bound));
    hide Entry, Advance, ConfirmsIdentity, SignalOf, NamesAnotherSession, AsSeq, FrontCleared, AtLine;
    hide BindStep, ReplaceStep, PostSignalStep, HandleStep;
  }

  /** So the queue is handled front to back. */
  lemma HandleRest(dec: Decoder, expected: string, w: World)
    requires AtLine(w) && w.engine.queue != []
    requires !NamesAnotherSession(dec, expected, w.engine.queue[0])
    ensures var w1 := HandleLine(dec, expected, w);
            && AtLine(w1) && |w1.engine.queue| < |w.engine.queue|
            && HandleAll(dec, expected, w) == HandleAll(dec, expected, w1)
  {
    HandleOne(dec, expected, w);
    hide HandleLine, Entry, Advance, SignalOf, NamesAnotherSession, AsSeq;
  }

  /** A line naming another session ends the run before anything is posted for it. */
  lemma HandleForeign(dec: Decoder, expected: string, w: World)
    requires AtLine(w) && w.engine.queue != []
    requires NamesAnotherSession(dec, expected, w.engine.queue[0])
    ensures var w1 := HandleLine(dec, expected, w);
            !w1.engine.Up? && w1.posted == w.posted && w1.signals == w.signals
    ensures HandleAll(dec, expected, w) == HandleLine(dec, expected, w)
  {
    assert !ConfirmsIdentity(dec, expected, w.engine.queue[0]);
    hide ConfirmsIdentity, SignalOf, NamesAnotherSession;
  }

  lemma EntriesFront(dec: Decoder, from: nat, line: Bytes, rest: seq<Bytes>)
    ensures Entries(dec, from, [line] + rest) == [Entry(dec, from + 1, line)] + Entries(dec, from + 1, rest)
  {
  }

  lemma FirstStopFront(dec: Decoder, expected: string, lines: seq<Bytes>)
    requires lines != []
    ensures FirstStop(dec, expected, lines)
         == if NamesAnotherSession(dec, expected, lines[0]) then 0 else 1 + FirstStop(dec, expected, lines[1..])
  {
    hide NamesAnotherSession;
  }

  lemma EntriesPrepend(
    dec: Decoder, from: nat, lines: seq<Bytes>, n: nat, before: seq<Posted>, one: seq<Posted>)
    requires n < |lines| && one == before + [Entry(dec, from + 1, lines[0])]
    ensures one + Entries(dec, from + 1, lines[1..][..n]) == before + Entries(dec, from, lines[..n + 1])
  {
    hide Entries, Entry;
    assert lines[..n + 1] == [lines[0]] + lines[1..][..n];
    EntriesFront(dec, from, lines[0], lines[1..][..n]);
  }

  lemma SignalsPrepend(dec: Decoder, expected: string, lines: seq<Bytes>, n: nat, before: seq<Signal>, one: seq<Signal>)
    requires lines != [] && n < |lines| && one == before + AsSeq(SignalOf(dec, expected, lines[0]))
    ensures one + Signals(dec, expected, lines[1..][..n]) == before + Signals(dec, expected, lines[..n + 1])
  {
    hide SignalOf, AsSeq, Signals;
    assert lines[..n + 1] == [lines[0]] + lines[1..][..n];
    SignalsFront(dec, expected, lines[0], lines[1..][..n]);
  }

  /**
   The steps agree with the code. What `Monitor.ProjectGrowth` ensures about the events posted for
   one read is what handling the lines one by one does here, and so is what it ensures about the
   signals posted and the knowledge gained.
   */
  lemma {:induction false} StepsPostLikeTheLoop(dec: Decoder, expected: string, w: World)
    requires AtLine(w)
    ensures var lines := w.engine.queue;
            var n := FirstStop(dec, expected, lines);
            && n <= |lines|
            && HandleAll(dec, expected, w).posted
               == w.posted + Entries(dec, w.engine.learned.seqNo, lines[..n])
    decreases |w.engine.queue|
  {
    hide Entries, Signals, NoneStops, Advance, Entry, SignalOf, HandleLine, NamesAnotherSession, AsSeq;
    var lines := w.engine.queue;
    FirstStopMeaning(dec, expected, lines);
    NothingYet(dec, expected, w.engine.learned, w.engine.learned.seqNo, lines);
    if lines != [] {
      FirstStopFront(dec, expected, lines);
      hide HandleAll, FirstStop;
      if NamesAnotherSession(dec, expected, lines[0]) {
        HandleForeign(dec, expected, w);
      } else {
        HandleOne(dec, expected, w);
        HandleRest(dec, expected, w);
        var w1 := HandleLine(dec, expected, w);
        StepsPostLikeTheLoop(dec, expected, w1);
        assert w1.engine.learned.seqNo == w.engine.learned.seqNo + 1 by { AdvanceCounts(dec, expected, w.engine.learned, lines[0]); }
        EntriesPrepend(dec, w.engine.learned.seqNo, lines, FirstStop(dec, expected, lines[1..]), w.posted, w1.posted);
      }
    }
  }

  lemma {:induction false} StepsSignalLikeTheLoop(dec: Decoder, expected: string, w: World)
    requires AtLine(w)
    ensures var lines := w.engine.queue;
            var n := FirstStop(dec, expected, lines);
            && n <= |lines|
            && HandleAll(dec, expected, w).signals == w.signals + Signals(dec, expected, lines[..n])
    decreases |w.engine.queue|
  {
    hide Entries, Signals, NoneStops, Advance, Entry, SignalOf, HandleLine, NamesAnotherSession, AsSeq;
    var lines := w.engine.queue;
    FirstStopMeaning(dec, expected, lines);
    NothingYet(dec, expected, w.engine.learned, w.engine.learned.seqNo, lines);
    if lines != [] {
      FirstStopFront(dec, expected, lines);
      hide HandleAll, FirstStop;
      if NamesAnotherSession(dec, expected, lines[0]) {
        HandleForeign(dec, expected, w);
      } else {
        HandleOne(dec, expected, w);
        HandleRest(dec, expected, w);
        var w1 := HandleLine(dec, expected, w);
        StepsSignalLikeTheLoop(dec, expected, w1);
        SignalsPrepend(dec, expected, lines, FirstStop(dec, expected, lines[1..]), w.signals, w1.signals);
      }
    }
  }

  lemma {:induction false} StepsLearnLikeTheLoop(dec: Decoder, expected: string, w: World)
    requires AtLine(w)
    ensures var lines := w.engine.queue;
            var w' := HandleAll(dec, expected, w);
            && w'.engine.Up? == (FirstStop(dec, expected, lines) == |lines|)
            && (w'.engine.Up? ==> w'.engine.learned == AdvanceAll(dec, expected, w.engine.learned, lines))
    decreases |w.engine.queue|
  {
    var lines := w.engine.queue;
    hide Advance, Entry, SignalOf, HandleLine, NamesAnotherSession;
    if lines != [] {
      if NamesAnotherSession(dec, expected, lines[0]) {
        HandleForeign(dec, expected, w);
      } else {
        hide HandleAll;
        HandleOne(dec, expected, w);
        HandleRest(dec, expected, w);
        StepsLearnLikeTheLoop(dec, expected, HandleLine(dec, expected, w));
        AdvanceAllFront(dec, expected, w.engine.learned, lines[0], lines[1..]);
        assert lines == [lines[0]] + lines[1..];
      }
    }
  }

  // ---------------------------------------------------------------------------------------------
  // Replay
  // ---------------------------------------------------------------------------------------------

  lemma {:induction false} IngestHolds(posted: seq<Posted>, i: nat)
    requires i < |posted|
    ensures Holds(Ingest(posted), posted[i].key)
  {
    var n := |posted| - 1;
    var log := Ingest(posted[..n]);
    if i < n {
      IngestHolds(posted[..n], i);
      var k :| 0 <= k < |log| && log[k].key == posted[i].key;
      assert Ingest(posted)[k] == log[k];
    } else if !Holds(log, posted[n].key) {
      assert Ingest(posted)[|log|] == posted[n];
    }
  }

  /** An event of the pass whose key the log holds is the log's own event. */
  lemma PostedIsInLog(dec: Decoder, lines: seq<Bytes>, posted: seq<Posted>, i: nat)
    requires i < |posted| && posted[i] in Pass(dec, lines)
    requires |Ingest(posted)| <= |lines|
    requires Ingest(posted) == Pass(dec, lines)[..|Ingest(posted)|]
    ensures posted[i] in Ingest(posted)
  {
    hide Ingest;
    IngestHolds(posted, i);
    var log, all := Ingest(posted), Pass(dec, lines);
    var k :| 0 <= k < |log| && log[k].key == posted[i].key;
    assert log[k] == all[k] && log[k] in log && all[k] in all;
    hide Holds, Pass;
    PassKeysDiffer(dec, lines, posted[i], log[k]);
  }

  /**
   Replay is idempotent: whatever crashes, is lost or is replayed, the server's log of line events
   is a prefix of what one uninterrupted monitor posts over the same file, in the same order, and
   every line event ever posted is one of those.
   */
  lemma ReplayRefinesOnePass(dec: Decoder, expected: string, actions: seq<Action>)
    ensures var w := Run(dec, expected, actions);
            var once := UninterruptedPass(dec, expected, SplitOf(w.file).lines);
            && Ingest(w.posted) <= once
            && forall i :: 0 <= i < |w.posted| ==> w.posted[i] in once
  {
    var w := Run(dec, expected, actions);
    InvRun(dec, expected, actions);
    LogRefinesOnePass(dec, expected, w);
  }

  lemma LogRefinesOnePass(dec: Decoder, expected: string, w: World)
    requires LogAgrees(dec, expected, w)
    ensures var once := UninterruptedPass(dec, expected, SplitOf(w.file).lines);
            && Ingest(w.posted) <= once
            && forall i :: 0 <= i < |w.posted| ==> w.posted[i] in once
  {
    var lines: seq<Bytes> := SplitOf(w.file).lines;
    var log := Ingest(w.posted);
    var once := UninterruptedPass(dec, expected, lines);
    FirstStopMeaning(dec, expected, lines);
    StopBound(dec, expected, lines, |log|);
    assert once == Pass(dec, lines)[..FirstStop(dec, expected, lines)];
    assert log == once[..|log|];
    forall i | 0 <= i < |w.posted| ensures w.posted[i] in once {
      PostedIsInLog(dec, lines, w.posted, i);
    }
  }

  lemma StopBound(dec: Decoder, expected: string, lines: seq<Bytes>, n: nat)
    requires n <= |lines| && NoneStops(dec, expected, lines[..n])
    ensures n <= FirstStop(dec, expected, lines)
  {
    FirstStopMeaning(dec, expected, lines);
    assert forall i :: 0 <= i < n ==> lines[..n][i] == lines[i];
  }

  /** The entries of a pass have pairwise different keys. */
  lemma PassKeysDiffer(dec: Decoder, lines: seq<Bytes>, p: Posted, q: Posted)
    requires p in Pass(dec, lines) && q in Pass(dec, lines) && p.key == q.key
    ensures p == q
  {
    var all := Pass(dec, lines);
    var a :| 0 <= a < |all| && all[a] == p;
    var b :| 0 <= b < |all| && all[b] == q;
    assert all[a].key.seqNo == a + 1 && all[b].key.seqNo == b + 1;
  }

  /** No numbered dedupe key ever carries two different lines. */
  lemma NoKeyCarriesTwoLines(dec: Decoder, expected: string, actions: seq<Action>, i: nat, j: nat)
    requires var posted := Run(dec, expected, actions).posted;
             i < |posted| && j < |posted| && posted[i].key == posted[j].key
    ensures var posted := Run(dec, expected, actions).posted; posted[i] == posted[j]
  {
    hide Run, Ingest, SplitOf, Pass;
    ReplayRefinesOnePass(dec, expected, actions);
    var w := Run(dec, expected, actions);
    var lines: seq<Bytes> := SplitOf(w.file).lines;
    FirstStopMeaning(dec, expected, lines);
    PassKeysDiffer(dec, lines[..FirstStop(dec, expected, lines)], w.posted[i], w.posted[j]);
  }

  /**
   Once a verdict was reached after a last read that followed the provider's exit, or because a
   line named another session, the server has everything an uninterrupted monitor would post.
   */
  lemma SettledMeansComplete(dec: Decoder, expected: string, actions: seq<Action>, i: nat)
    requires var w := Run(dec, expected, actions);
             && i < |w.settlements|
             && (w.settlements[i].ending == IdentityMismatch
                 || (w.settlements[i].ending == Settled && w.settlements[i].drained))
    ensures var w := Run(dec, expected, actions);
            var lines: seq<Bytes> := SplitOf(w.file).lines;
            && Ingest(w.posted) == UninterruptedPass(dec, expected, lines)
            && (forall k :: 0 <= k < FirstStop(dec, expected, lines) <= |lines| ==>
                  forall x :: SignalOf(dec, expected, lines[k]) == Some(x) ==> x in w.signals)
  {
    var w := Run(dec, expected, actions);
    InvRun(dec, expected, actions);
    ReplayRefinesOnePass(dec, expected, actions);
    var lines: seq<Bytes> := SplitOf(w.file).lines;
    assert SettlementAgrees(dec, expected, w, w.settlements[i]);
    var n := |Ingest(w.posted)|;
    StopBound(dec, expected, lines, n);
    FirstStopMeaning(dec, expected, lines);
    var stop := FirstStop(dec, expected, lines);
    assert forall k :: 0 <= k < stop ==> lines[..stop][k] == lines[k];
    HandledLinesAreSignalled(dec, expected, w);
  }

  lemma HandledLinesAreSignalled(dec: Decoder, expected: string, w: World)
    requires SignalsAgree(dec, expected, w)
    ensures forall k, x :: 0 <= k < |Ingest(w.posted)| && SignalOf(dec, expected, SplitOf(w.file).lines[k]) == Some(x)
              ==> x in w.signals
  {
    hide Ingest, SplitOf, SignalOf;
    var lines: seq<Bytes> := SplitOf(w.file).lines;
    assert forall k :: 0 <= k < w.signalled ==> lines[..w.signalled][k] == lines[k];
  }

  /** The dead-claim path always makes such a last read when the file can be opened. */
  lemma DeadClaimReadsEverything(dec: Decoder, expected: string, w: World, terminalSaved: bool)
    requires Inv(dec, expected, w) && w.exit.Some? && RecoverStep(w) != w
    ensures var w' := ReadStep(RecoverStep(w), true, terminalSaved);
            && w'.engine.Up? && w'.engine.drained
            && w'.engine.queue == SplitOf(w.file).lines[w.claim.seqNo..]
  {
    InvRecover(dec, expected, w);
    InvRead(dec, expected, RecoverStep(w), true, terminalSaved);
    assert w.file[..|w.file|] == w.file;
  }

  // ---------------------------------------------------------------------------------------------
  // Checkpoints
  // ---------------------------------------------------------------------------------------------

  /**
   Every persisted checkpoint is resumable over any chain of recoveries, even one that a stale claim
   write puts back, and never runs ahead of what was posted; when one is due neither the saturating
   subtraction nor the registry's check against moving backwards has anything to do.
   */
  lemma CheckpointsAreResumable(dec: Decoder, expected: string, actions: seq<Action>)
    ensures var w := Run(dec, expected, actions);
            && Resumable(w.claim, w.file)
            && w.claim.seqNo <= |Ingest(w.posted)|
            && (w.update.Some? ==> Resumable(w.update.value.claim, w.file))
            && (forall i :: 0 <= i < |w.interrupts| ==> Resumable(w.interrupts[i].claim, w.file))
            && (w.engine.Up? && w.engine.queue == [] ==>
                  var e := w.engine;
                  && |e.cursor.pending| <= e.cursor.offset
                  && SaveCheckpoint(w.claim, CompleteOffset(e.cursor), e.learned.seqNo)
                     == w.claim.(offset := e.cursor.offset - |e.cursor.pending|, seqNo := e.learned.seqNo))
  {
    var w := Run(dec, expected, actions);
    InvRun(dec, expected, actions);
    if w.engine.Up? {
      PendingFits(w.file, w.claim.offset, w.engine.cursor.offset);
    }
  }

  // ---------------------------------------------------------------------------------------------
  // Settlement
  // ---------------------------------------------------------------------------------------------

  /**
   A completed verdict means: no cancel in the claim that was read, the requested session was
   announced, none of the lines handled named another one, the last result line handled was a
   success, and a live monitor saw a clean exit.
   */
  lemma CompletedIsEarned(dec: Decoder, expected: string, actions: seq<Action>, i: nat)
    requires var w := Run(dec, expected, actions);
             i < |w.settlements| && w.settlements[i].verdict == RunCompleted
    ensures var w := Run(dec, expected, actions);
            var s := w.settlements[i];
            var lines: seq<Bytes> := SplitOf(w.file).lines;
            && s.ending == Settled
            && !(s.cancelRequested && s.claimReadable)
            && AnyConfirms(dec, expected, lines)
            && s.start <= s.seqNo <= |lines|
            && NoneStops(dec, expected, lines[..s.seqNo])
            && LastResult(dec, lines[s.start..s.seqNo]) == Some(Success)
            && (s.mode == Live ==> w.exit == Some(true))
  {
    hide Run, Ingest, Feed, LastResult, Pass;
    var w := Run(dec, expected, actions);
    InvRun(dec, expected, actions);
    var s := w.settlements[i];
    var lines: seq<Bytes> := SplitOf(w.file).lines;
    assert SettlementAgrees(dec, expected, w, s);
    var n := |Ingest(w.posted)|;
    assert forall k :: 0 <= k < s.seqNo ==> lines[..s.seqNo][k] == lines[..n][k];
    if !s.startConfirmed {
      var handled := lines[s.start..s.seqNo];
      var k :| 0 <= k < |handled| && ConfirmsIdentity(dec, expected, handled[k]);
      assert lines[s.start + k] == handled[k];
    }
  }

  // ---------------------------------------------------------------------------------------------
  // Signals
  // ---------------------------------------------------------------------------------------------

  /**
   However crashes and replays fall, the signals posted are the first phase and those of the lines
   signalled so far: all lines handled, at most one more than an uninterrupted monitor's lines allow.
   */
  lemma SignalsRefineOnePass(dec: Decoder, expected: string, actions: seq<Action>, x: Signal)
    ensures var w := Run(dec, expected, actions);
            var lines: seq<Bytes> := SplitOf(w.file).lines;
            && |Ingest(w.posted)| <= w.signalled <= FirstStop(dec, expected, lines) <= |lines|
            && (x in w.signals <==> x == THINKING || SignalAmong(dec, expected, lines[..w.signalled], x))
  {
    var w := Run(dec, expected, actions);
    InvRun(dec, expected, actions);
    FirstStopMeaning(dec, expected, SplitOf(w.file).lines);
    StopBound(dec, expected, SplitOf(w.file).lines, w.signalled);
  }

  /** Two signals that a server keeping the first event of a key cannot both keep. */
  ghost predicate SignalKeyClashes(signals: seq<Signal>) {
    exists x, y :: x in signals && y in signals && KeyOfSignal(x) == KeyOfSignal(y) && x != y
  }

  ghost predicate RunsTwoTools(dec: Decoder, lines: seq<Bytes>) {
    exists a, b ::
      && 0 <= a < |lines| && 0 <= b < |lines|
      && ToolOf(dec, lines[a]).Some? && ToolOf(dec, lines[b]).Some?
      && ToolOf(dec, lines[a]) != ToolOf(dec, lines[b])
  }

  lemma TwoToolsClash(dec: Decoder, expected: string, lines: seq<Bytes>, signals: seq<Signal>)
    requires forall x :: x in signals <==> x == THINKING || SignalAmong(dec, expected, lines, x)
    ensures RunsTwoTools(dec, lines) ==> SignalKeyClashes(signals)
  {
    hide SignalAmong, ToolOf, KeyOfSignal;
    if RunsTwoTools(dec, lines) {
      var a, b :| 0 <= a < |lines| && 0 <= b < |lines| && ToolOf(dec, lines[a]).Some? && ToolOf(dec, lines[b]).Some?
        && ToolOf(dec, lines[a]) != ToolOf(dec, lines[b]);
      ToolsAreSignalled(dec, expected, lines, a);
      ToolsAreSignalled(dec, expected, lines, b);
      var x, y := Phase("running", ToolOf(dec, lines[a])), Phase("running", ToolOf(dec, lines[b]));
      RunningSharesAKey(ToolOf(dec, lines[a]), ToolOf(dec, lines[b]));
      assert x in signals && y in signals;
    }
  }

  lemma RunningSharesAKey(a: Option<string>, b: Option<string>)
    ensures KeyOfSignal(Phase("running", a)) == KeyOfSignal(Phase("running", b))
  {
  }

  lemma ClashNamesTwoTools(dec: Decoder, expected: string, lines: seq<Bytes>, signals: seq<Signal>)
    requires forall x :: x in signals <==> x == THINKING || SignalAmong(dec, expected, lines, x)
    ensures SignalKeyClashes(signals) ==> RunsTwoTools(dec, lines)
  {
    if SignalKeyClashes(signals) {
      var x, y :| x in signals && y in signals && KeyOfSignal(x) == KeyOfSignal(y) && x != y;
      RunningSignalsNameTools(dec, expected, lines, x);
      RunningSignalsNameTools(dec, expected, lines, y);
    }
  }

  /**
   A signal's key carries two different signals in a run exactly when two of the lines signalled run
   different tools: the phase's key names the phase and not the tool.
   */
  lemma SignalKeysClashExactly(dec: Decoder, expected: string, actions: seq<Action>)
    ensures var w := Run(dec, expected, actions);
            var lines: seq<Bytes> := SplitOf(w.file).lines;
            && w.signalled <= |lines|
            && (SignalKeyClashes(w.signals) <==> RunsTwoTools(dec, lines[..w.signalled]))
  {
    var w := Run(dec, expected, actions);
    InvRun(dec, expected, actions);
    var lines: seq<Bytes> := SplitOf(w.file).lines[..w.signalled];
    assert forall x :: x in w.signals <==> x == THINKING || SignalAmong(dec, expected, lines, x);
    hide Run, SplitOf, Ingest, SignalKeyClashes, RunsTwoTools, Inv;
    TwoToolsClash(dec, expected, lines, w.signals);
    ClashNamesTwoTools(dec, expected, lines, w.signals);
  }

  lemma ToolsAreSignalled(dec: Decoder, expected: string, lines: seq<Bytes>, k: nat)
    requires k < |lines| && ToolOf(dec, lines[k]).Some?
    ensures SignalAmong(dec, expected, lines, Phase("running", ToolOf(dec, lines[k])))
  {
    assert SignalOf(dec, expected, lines[k]) == Some(Phase("running", ToolOf(dec, lines[k])));
  }

  /** Only a running phase can differ from another signal of its key, and it names a line's tool. */
  lemma RunningSignalsNameTools(dec: Decoder, expected: string, lines: seq<Bytes>, x: Signal)
    requires x == THINKING || SignalAmong(dec, expected, lines, x)
    ensures || x == THINKING || x == Binding
            || (x.Phase? && x.name == "running"
                && exists k :: 0 <= k < |lines| && ToolOf(dec, lines[k]).Some? && x.tool == ToolOf(dec, lines[k]))
  {
    hide ToolOf, ConfirmsIdentity;
  }

  // ---------------------------------------------------------------------------------------------
  // Cancellation
  // ---------------------------------------------------------------------------------------------

  /** The cancel mark in every record is what the log of claim writes says. */
  ghost predicate WritesAgree(w: World) {
    && ReadsPrecede(w.writes) && TakeTurns(w.writes)
    && w.claim.cancelRequested == Marked(w.writes, |w.writes|)
    && (w.update.Some? ==> UpdateAgrees(w.writes, w.update.value))
    && (forall r :: r in w.interrupts ==> r.readAt <= |w.writes| && r.claim.cancelRequested)
    && (w.acknowledged ==> exists m :: 0 <= m < |w.writes| && w.writes[m].marks)
    && (w.engine.Up? ==> VersionAgrees(w.writes, w.engine.startVersion, w.engine.startCancelled))
    && (forall s :: s in w.settlements ==> VersionAgrees(w.writes, s.version, s.cancelRequested))
  }

  ghost predicate VersionAgrees(log: seq<Write>, version: nat, marked: bool)
    requires ReadsPrecede(log)
  {
    version <= |log| && marked == Marked(log, version)
  }

  /** A replacement in flight of the monitor's: no other write of its own came after its read. */
  ghost predicate UpdateAgrees(log: seq<Write>, r: Replacement)
    requires ReadsPrecede(log)
  {
    && VersionAgrees(log, r.readAt, r.claim.cancelRequested)
    && (forall j :: 0 <= j < |log| && !log[j].marks ==> j < r.readAt)
  }

  lemma VersionsKept(log: seq<Write>, x: Write, version: nat, marked: bool)
    requires ReadsPrecede(log) && x.readAt <= |log|
    requires VersionAgrees(log, version, marked)
    ensures ReadsPrecede(log + [x]) && VersionAgrees(log + [x], version, marked)
  {
    MarkedPrefix(log, x, version);
  }

  lemma CancelWriteAgrees(w: World, i: nat, ok: bool)
    requires WritesAgree(w)
    ensures WritesAgree(CancelWriteStep(w, i, ok))
  {
    if i < |w.interrupts| {
      var x := Write(w.interrupts[i].readAt, true);
      assert w.interrupts[i] in w.interrupts;
      var log := w.writes + [x];
      hide Marked;
      forall version: nat, marked: bool | VersionAgrees(w.writes, version, marked)
        ensures VersionAgrees(log, version, marked)
      {
        VersionsKept(w.writes, x, version, marked);
      }
      assert log[|w.writes|] == x;
      LastMarks(log);
    }
  }

  lemma LastMarks(log: seq<Write>)
    requires ReadsPrecede(log) && log != []
    ensures Marked(log, |log|) == (log[|log| - 1].marks || Marked(log, log[|log| - 1].readAt))
  {
  }

  lemma ReplaceAgrees(w: World)
    requires WritesAgree(w)
    ensures WritesAgree(ReplaceStep(w))
  {
    if w.update.Some? {
      var r := w.update.value;
      var x := Write(r.readAt, false);
      var log := w.writes + [x];
      hide Marked;
      forall version: nat, marked: bool | VersionAgrees(w.writes, version, marked)
        ensures VersionAgrees(log, version, marked)
      {
        VersionsKept(w.writes, x, version, marked);
      }
      assert forall m :: 0 <= m < |w.writes| ==> log[m] == w.writes[m];
      LastMarks(log);
    }
  }

  /** Monitor steps touch the claim's marks only through a replacement of what they read. */
  ghost predicate SameMarks(w: World, w': World) {
    && w'.writes == w.writes && w'.claim == w.claim && w'.interrupts == w.interrupts && w'.acknowledged == w.acknowledged
    && (w'.update == w.update
        || w'.update.None?
        || (w.update.None? && w'.update.value.readAt == |w.writes|
            && w'.update.value.claim.cancelRequested == w.claim.cancelRequested))
    && (w'.engine.Up? ==>
          && w.engine.Up?
          && w'.engine.startVersion == w.engine.startVersion && w'.engine.startCancelled == w.engine.startCancelled)
    && (w'.settlements == w.settlements
        || (exists s :: w'.settlements == w.settlements + [s] && SettlesFrom(w, s)))
  }

  ghost predicate SettlesFrom(w: World, s: Settlement) {
    || (w.engine.Up? && s.version == w.engine.startVersion && s.cancelRequested == w.engine.startCancelled)
    || (s.version == |w.writes| && s.cancelRequested == w.claim.cancelRequested)
  }

  lemma SameMarksAgree(w: World, w': World)
    requires WritesAgree(w) && SameMarks(w, w')
    ensures WritesAgree(w')
  {
    hide Marked, TakeTurns;
    forall s | s in w'.settlements
      ensures VersionAgrees(w'.writes, s.version, s.cancelRequested)
    {
      if s !in w.settlements {
        assert SettlesFrom(w, s);
      }
    }
  }

  lemma EndSameMarks(w: World, verdict: Verdict, ending: Ending, claimReadable: bool, terminalSaved: bool)
    requires Free(w)
    ensures SameMarks(w, End(w, Report(w, verdict, ending, claimReadable), terminalSaved))
  {
    var s := Report(w, verdict, ending, claimReadable);
    assert SettlesFrom(w, s) && End(w, s, terminalSaved).settlements == w.settlements + [s];
  }

  lemma ReadSameMarks(w: World, ok: bool, terminalSaved: bool)
    ensures SameMarks(w, ReadStep(w, ok, terminalSaved))
  {
    if Free(w) {
      EndSameMarks(w, RunFailed, ReadFailed, true, terminalSaved);
    }
    hide End, Report, ReadOnce;
  }

  lemma WaitFailsSameMarks(w: World, terminalSaved: bool)
    ensures SameMarks(w, WaitFailsStep(w, terminalSaved))
  {
    if Free(w) {
      EndSameMarks(w, RunFailed, WaitFailed, true, terminalSaved);
    }
    hide End, Report;
  }

  lemma HandleSameMarks(dec: Decoder, expected: string, w: World, terminalSaved: bool)
    ensures SameMarks(w, HandleStep(dec, expected, w, terminalSaved))
  {
    if Free(w) {
      EndSameMarks(w, RunFailed, IdentityMismatch, true, terminalSaved);
    }
    hide End, Report, Advance, Entry, NamesAnotherSession, ConfirmsIdentity, SignalOf;
  }

  lemma SettleSameMarks(w: World, claimReadable: bool, terminalSaved: bool)
    ensures SameMarks(w, SettleStep(w, claimReadable, terminalSaved))
  {
    if Free(w) {
      EndSameMarks(w, VerdictOf(w, claimReadable), Settled, claimReadable, terminalSaved);
    }
    hide End, Report, VerdictOf;
  }

  lemma QuietSameMarks(dec: Decoder, expected: string, w: World, saved: bool)
    ensures SameMarks(w, BindStep(dec, expected, w, saved))
    ensures SameMarks(w, PostSignalStep(dec, expected, w))
    ensures SameMarks(w, CheckpointStep(w, saved))
    ensures SameMarks(w, ObserveExitStep(w))
  {
    hide NamesAnotherSession, ConfirmsIdentity, SignalOf;
  }

  lemma MonitorSameMarks(dec: Decoder, expected: string, w: World, a: Action)
    requires !a.CancelWrite? && !a.Replace? && !a.CancelRead? && !a.Recover? && !a.Crash?
    ensures SameMarks(w, Step(dec, expected, w, a))
  {
    hide ReadStep, HandleStep, SettleStep, WaitFailsStep, BindStep, CheckpointStep, PostSignalStep, ObserveExitStep;
    match a
    case Read(ok, saved) => ReadSameMarks(w, ok, saved);
    case Handle(saved) => HandleSameMarks(dec, expected, w, saved);
    case Settle(readable, saved) => SettleSameMarks(w, readable, saved);
    case WaitFails(saved) => WaitFailsSameMarks(w, saved);
    case Bind(saved) => QuietSameMarks(dec, expected, w, saved);
    case Checkpoint(saved) => QuietSameMarks(dec, expected, w, saved);
    case PostSignal => QuietSameMarks(dec, expected, w, true);
    case ObserveExit => QuietSameMarks(dec, expected, w, true);
    case _ =>
  }

  lemma WritesStep(dec: Decoder, expected: string, w: World, a: Action)
    requires WritesAgree(w)
    ensures WritesAgree(Step(dec, expected, w, a))
  {
    hide WritesAgree, SameMarks, CancelWriteStep, ReplaceStep, CancelReadStep, RecoverStep, CrashStep;
    match a
    case CancelWrite(i, ok) => CancelWriteAgrees(w, i, ok);
    case Replace => ReplaceAgrees(w);
    case CancelRead => BystandersAgree(w);
    case Recover => BystandersAgree(w);
    case Crash => BystandersAgree(w);
    case _ =>
      hide Step;
      MonitorSameMarks(dec, expected, w, a);
      SameMarksAgree(w, Step(dec, expected, w, a));
  }

  lemma BystandersAgree(w: World)
    requires WritesAgree(w)
    ensures WritesAgree(CancelReadStep(w)) && WritesAgree(RecoverStep(w)) && WritesAgree(CrashStep(w))
  {
    hide Marked, TakeTurns;
  }

  lemma {:induction false} WritesRun(dec: Decoder, expected: string, actions: seq<Action>)
    ensures WritesAgree(Run(dec, expected, actions))
  {
    if actions != [] {
      hide WritesAgree, Step;
      WritesRun(dec, expected, actions[..|actions| - 1]);
      WritesStep(dec, expected, Run(dec, expected, actions[..|actions| - 1]), actions[|actions| - 1]);
    }
  }

  /**
   The mark of an acknowledged interrupt is missing from the claim if and only if every mark ever
   written was overwritten by a claim write of the monitor that had read the claim before it.
   */
  lemma AcknowledgedIsRecorded(dec: Decoder, expected: string, actions: seq<Action>)
    ensures var w := Run(dec, expected, actions);
            && (w.acknowledged ==> exists m :: 0 <= m < |w.writes| && w.writes[m].marks)
            && (!w.claim.cancelRequested <==> AllOverwritten(w.writes, |w.writes|))
  {
    WritesRun(dec, expected, actions);
    var w := Run(dec, expected, actions);
    MarkMissingExactly(w.writes, |w.writes|);
  }

  // ---------------------------------------------------------------------------------------------
  // Verdicts
  // ---------------------------------------------------------------------------------------------

  /** Exactly when a verdict, however the run ended, is cancelled or completed. */
  lemma VerdictExact(dec: Decoder, expected: string, actions: seq<Action>, i: nat)
    requires i < |Run(dec, expected, actions).settlements|
    ensures var w := Run(dec, expected, actions);
            var s := w.settlements[i];
            var lines: seq<Bytes> := SplitOf(w.file).lines;
            && s.start <= s.seqNo <= |lines|
            && (s.verdict == RunCancelled <==> s.ending == Settled && s.cancelRequested && s.claimReadable)
            && (s.verdict == RunCompleted <==>
                  && s.ending == Settled
                  && !(s.cancelRequested && s.claimReadable)
                  && (s.startConfirmed || AnyConfirms(dec, expected, lines[s.start..s.seqNo]))
                  && LastResult(dec, lines[s.start..s.seqNo]) == Some(Success)
                  && (s.mode == Live ==> w.exit == Some(true)))
  {
    InvRun(dec, expected, actions);
    var w := Run(dec, expected, actions);
    assert SettlementAgrees(dec, expected, w, w.settlements[i]);
    hide Run, Ingest, SplitOf, LastResult, AnyConfirms;
  }

  /**
   A verdict is not "cancelled" if and only if the run ended on a failed read, a failed wait for the
   child or a foreign line, or the claim could not be read at settlement, or every mark written before
   settlement read the claim had been overwritten by then.
   */
  lemma CancelIsLostExactly(dec: Decoder, expected: string, actions: seq<Action>, i: nat)
    requires i < |Run(dec, expected, actions).settlements|
    ensures var w := Run(dec, expected, actions);
            var s := w.settlements[i];
            && s.version <= |w.writes|
            && (s.verdict != RunCancelled <==>
                  s.ending != Settled || !s.claimReadable || AllOverwritten(w.writes, s.version))
  {
    VerdictExact(dec, expected, actions, i);
    WritesRun(dec, expected, actions);
    var w := Run(dec, expected, actions);
    assert w.settlements[i] in w.settlements;
    hide Run;
    MarkMissingExactly(w.writes, w.settlements[i].version);
  }

  /** So a run completed with its claim readable only if every mark before settlement was overwritten. */
  lemma CompletedWasNotInterrupted(dec: Decoder, expected: string, actions: seq<Action>, i: nat, m: nat)
    requires var w := Run(dec, expected, actions);
             && i < |w.settlements|
             && w.settlements[i].claimReadable
             && w.settlements[i].verdict == RunCompleted
             && m < w.settlements[i].version <= |w.writes|
             && w.writes[m].marks
    ensures var w := Run(dec, expected, actions); Overwritten(w.writes, m, w.settlements[i].version)
  {
    VerdictExact(dec, expected, actions, i);
    CancelIsLostExactly(dec, expected, actions, i);
  }

  /**
   When a verdict recovered after the provider stopped is the one a live monitor would have reached
   over the same lines after a clean exit: exactly when the run was cancelled, or the stream does not
   amount to a completed run, or a result line comes after the checkpoint it resumed from and the
   announced identity is known.
   */
  lemma RecoveredVerdictExact(dec: Decoder, expected: string, actions: seq<Action>, i: nat)
    requires var w := Run(dec, expected, actions);
             && i < |w.settlements|
             && w.settlements[i].ending == Settled && w.settlements[i].drained && w.settlements[i].mode != Live
    ensures var w := Run(dec, expected, actions);
            var s := w.settlements[i];
            var lines: seq<Bytes> := SplitOf(w.file).lines;
            var cancelled := s.cancelRequested && s.claimReadable;
            && s.start <= |lines|
            && (s.verdict == SettleLive(cancelled, true, AnyConfirms(dec, expected, lines), LastResult(dec, lines))
                <==>
                || cancelled
                || LastResult(dec, lines) != Some(Success)
                || !AnyConfirms(dec, expected, lines)
                || (LastResult(dec, lines[s.start..]).Some?
                    && (s.startConfirmed || AnyConfirms(dec, expected, lines[s.start..]))))
  {
    InvRun(dec, expected, actions);
    var w := Run(dec, expected, actions);
    var s := w.settlements[i];
    var lines: seq<Bytes> := SplitOf(w.file).lines;
    assert SettlementAgrees(dec, expected, w, s);
    assert lines[s.start..|lines|] == lines[s.start..];
    hide Run, Ingest, SplitOf;
    SuffixVerdict(dec, expected, lines, s.start, s.startConfirmed);
  }

  /** The same for the two settle functions over any lines. */
  lemma SuffixVerdict(dec: Decoder, expected: string, lines: seq<Bytes>, k: nat, savedConfirmed: bool)
    requires k <= |lines|
    requires savedConfirmed ==> AnyConfirms(dec, expected, lines)
    ensures var rest := lines[k..];
            var known := savedConfirmed || AnyConfirms(dec, expected, rest);
            SettleRecovered(false, known, LastResult(dec, rest))
              == SettleLive(false, true, AnyConfirms(dec, expected, lines), LastResult(dec, lines))
            <==>
            || LastResult(dec, lines) != Some(Success)
            || !AnyConfirms(dec, expected, lines)
            || (LastResult(dec, rest).Some? && known)
  {
    var rest := lines[k..];
    assert lines == lines[..k] + rest;
    LastResultAppend(dec, lines[..k], rest);
    assert AnyConfirms(dec, expected, rest) ==> AnyConfirms(dec, expected, lines) by {
      if AnyConfirms(dec, expected, rest) {
        var i :| 0 <= i < |rest| && ConfirmsIdentity(dec, expected, rest[i]);
        assert lines[k + i] == rest[i];
      }
    }
    hide LastResult, AnyConfirms;
  }

  lemma SuffixSuffices(dec: Decoder, expected: string, lines: seq<Bytes>, k: nat, savedConfirmed: bool)
    requires k <= |lines| && LastResult(dec, lines[..k]).None?
    requires AnyConfirms(dec, expected, lines[..k]) ==> savedConfirmed
    ensures LastResult(dec, lines[k..]) == LastResult(dec, lines)
    ensures AnyConfirms(dec, expected, lines) ==> savedConfirmed || AnyConfirms(dec, expected, lines[k..])
  {
    assert lines == lines[..k] + lines[k..];
    hide LastResult, AnyConfirms;
    LastResultAppend(dec, lines[..k], lines[k..]);
    if AnyConfirms(dec, expected, lines) {
      ConfirmedSomewhere(dec, expected, lines, k);
    }
  }

  lemma ConfirmedSomewhere(dec: Decoder, expected: string, lines: seq<Bytes>, k: nat)
    requires k <= |lines| && AnyConfirms(dec, expected, lines)
    ensures AnyConfirms(dec, expected, lines[..k]) || AnyConfirms(dec, expected, lines[k..])
  {
    hide ConfirmsIdentity;
    var j :| 0 <= j < |lines| && ConfirmsIdentity(dec, expected, lines[j]);
    assert if j < k then lines[..k][j] == lines[j] else lines[k..][j - k] == lines[j];
  }

  /** In particular they agree when no result line precedes the checkpoint and no binding was lost. */
  lemma RecoveredVerdictAgrees(dec: Decoder, expected: string, actions: seq<Action>, i: nat)
    requires var w := Run(dec, expected, actions);
             && i < |w.settlements|
             && w.settlements[i].ending == Settled && w.settlements[i].drained && w.settlements[i].mode != Live
             && w.settlements[i].start <= |SplitOf(w.file).lines|
             && LastResult(dec, SplitOf(w.file).lines[..w.settlements[i].start]).None?
             && (AnyConfirms(dec, expected, SplitOf(w.file).lines[..w.settlements[i].start]) ==>
                   w.settlements[i].startConfirmed)
    ensures var w := Run(dec, expected, actions);
            var s := w.settlements[i];
            var lines: seq<Bytes> := SplitOf(w.file).lines;
            s.verdict == SettleLive(s.cancelRequested && s.claimReadable, true,
                                    AnyConfirms(dec, expected, lines), LastResult(dec, lines))
  {
    hide Run, SplitOf, LastResult, AnyConfirms;
    RecoveredVerdictExact(dec, expected, actions, i);
    var w := Run(dec, expected, actions);
    hide SettleLive;
    SuffixSuffices(dec, expected, SplitOf(w.file).lines, w.settlements[i].start, w.settlements[i].startConfirmed);
  }
}
