/**
 Concrete Claude turns (engine/src/claude_print.rs, engine/src/turn_claims.rs): one that completes, and
 the ones that show where a verdict, a cancel or a phase goes astray.
 */
module RecoveryRuns {
  import opened Wrappers
  import opened StreamLines
  import opened StreamProjection
  import opened ClaimWrites
  import opened ProjectionRecovery
  import opened RepeatedSettlement

  /** A line of one byte: an init line, a result, a foreign init line, or a message running a tool. */
  const SAMPLE: Decoder :=
    line =>
      if line == [1] then Parsed(StreamEvent(Some("system"), Some("init"), None, Some("s"), None))
      else if line == [2] then Parsed(StreamEvent(Some("result"), Some("success"), None, None, None))
      else if line == [3] then Parsed(StreamEvent(Some("system"), Some("init"), None, Some("t"), None))
      else if line == [4] then Parsed(StreamEvent(Some("assistant"), None, None, None, Some("a")))
      else if line == [5] then Parsed(StreamEvent(Some("assistant"), None, None, None, Some("b")))
      else Undecodable

  lemma TwoLines(a: Byte, b: Byte)
    requires a != NEWLINE && b != NEWLINE
    ensures SplitOf([a, 10, b, 10]) == Split([[a], [b]], [])
  {
    FeedLast(EMPTY_SPLIT, [], a);
    FeedLast(EMPTY_SPLIT, [a], 10);
    FeedLast(EMPTY_SPLIT, [a, 10], b);
    FeedLast(EMPTY_SPLIT, [a, 10, b], 10);
    assert [] + [a] == [a] && [a] + [10] == [a, 10] && [a, 10] + [b] == [a, 10, b] && [a, 10, b] + [10] == [a, 10, b, 10];
    assert Feed(EMPTY_SPLIT, []) == EMPTY_SPLIT;
    hide Feed;
    assert [a] + [] == [a] && [] + [b] == [b];
    assert Feed(EMPTY_SPLIT, [a]) == Split([], [a]);
    assert Feed(EMPTY_SPLIT, [a, 10]) == Split([[a]], []);
    assert Feed(EMPTY_SPLIT, [a, 10, b]) == Split([[a]], [b]);
    assert [[a]] + [[b]] == [[a], [b]];
  }

  lemma OneLine(a: Byte)
    requires a != NEWLINE
    ensures SplitOf([a, 10]) == Split([[a]], [])
  {
    LineAlone([a]);
    assert [a] + [NEWLINE] == [a, 10];
  }

  /** What each kind of line means to a turn for session "s". */
  lemma Meanings()
    ensures ConfirmsIdentity(SAMPLE, "s", [1]) && !NamesAnotherSession(SAMPLE, "s", [1])
    ensures ResultOf(SAMPLE, [1]) == None && SignalOf(SAMPLE, "s", [1]) == Some(Binding)
    ensures !ConfirmsIdentity(SAMPLE, "s", [2]) && !NamesAnotherSession(SAMPLE, "s", [2])
    ensures ResultOf(SAMPLE, [2]) == Some(Success) && SignalOf(SAMPLE, "s", [2]) == None
    ensures NamesAnotherSession(SAMPLE, "s", [3])
  {
  }

  lemma ToolMeanings()
    ensures !ConfirmsIdentity(SAMPLE, "s", [4]) && !NamesAnotherSession(SAMPLE, "s", [4])
    ensures SignalOf(SAMPLE, "s", [4]) == Some(Phase("running", Some("a")))
    ensures !ConfirmsIdentity(SAMPLE, "s", [5]) && !NamesAnotherSession(SAMPLE, "s", [5])
    ensures SignalOf(SAMPLE, "s", [5]) == Some(Phase("running", Some("b")))
  {
  }

  lemma SampleEntries(n: nat)
    ensures Entry(SAMPLE, n, [1]) == Posted(Stdout(n), [1]) && Entry(SAMPLE, n, [2]) == Posted(Stdout(n), [2])
  {
  }

  function Do(w: World, a: Action): World {
    Step(SAMPLE, "s", w, a)
  }

  lemma RunDo(actions: seq<Action>, a: Action)
    ensures Run(SAMPLE, "s", actions + [a]) == Do(Run(SAMPLE, "s", actions), a)
  {
    RunSnoc(SAMPLE, "s", actions, a);
  }

  // ---------------------------------------------------------------------------------------------
  // A turn whose two lines are projected
  // ---------------------------------------------------------------------------------------------

  const FILE: Bytes := [1, 10, 2, 10]

  /** Both lines were handled; the write of the checkpoint is in flight. */
  const PROJECTED: seq<Action> :=
    [Append(FILE)] + [Read(true, true)] + [Bind(true)] + [Replace] + [PostSignal] + [Handle(true)]
    + [Handle(true)] + [Checkpoint(true)]

  function MonitorAfter(n: nat, bound: bool, signalled: bool, owes: bool): Engine
    requires n <= 2
  {
    var queue: seq<Bytes> := [[1], [2]];
    Up(Live, Polling, Cursor(4, []), queue[n..], bound, signalled, owes,
       Progress(n, if n == 2 then Some(Success) else None, n > 0), false, 0, false, false, 0)
  }

  const BOUND := FRESH_CLAIM.(identityConfirmed := true)
  const SAVED := BOUND.(offset := 4, seqNo := 2)

  /** The world at that point. */
  function Projected(): World {
    World(FILE, None, BOUND, [Write(0, false)], Some(Replacement(SAVED, 1)), 0, [], false,
          MonitorAfter(2, false, false, false),
          [Posted(Stdout(1), [1]), Posted(Stdout(2), [2])], [THINKING, Binding], 2, [])
  }

  lemma ReadsBothLines()
    ensures Do(Do(INITIAL, Append(FILE)), Read(true, true))
         == INITIAL.(file := FILE, engine := MonitorAfter(0, false, false, true))
  {
    TwoLines(1, 2);
    hide SplitOf;
    assert [] + FILE == FILE && FILE[0..] == FILE;
    assert [[1], [2]][0..] == [[1], [2]];
  }

  lemma BindsFirstLine(w: World)
    requires w == INITIAL.(file := FILE, engine := MonitorAfter(0, false, false, true))
    ensures Do(Do(w, Bind(true)), Replace)
         == w.(engine := MonitorAfter(0, true, false, true), claim := BOUND, writes := [Write(0, false)])
  {
    Meanings();
    hide ConfirmsIdentity, NamesAnotherSession, ResultOf, SignalOf, SAMPLE;
    var line: Bytes := [1];
    assert w.engine.queue[0] == line;
    var w1 := Do(w, Bind(true));
    assert w1 == w.(engine := MonitorAfter(0, true, false, true), update := Some(Replacement(BOUND, 0)));
  }

  lemma PostsFirstLine(w: World)
    requires w == INITIAL.(file := FILE, engine := MonitorAfter(0, true, false, true), claim := BOUND, writes := [Write(0, false)])
    ensures Do(Do(w, PostSignal), Handle(true))
         == w.(engine := MonitorAfter(1, false, false, true), posted := [Posted(Stdout(1), [1])],
               signals := [THINKING, Binding], signalled := 1)
  {
    Meanings();
    SampleEntries(1);
    hide ConfirmsIdentity, NamesAnotherSession, ResultOf, SignalOf, Entry, SAMPLE;
    var line: Bytes := [1];
    assert w.engine.queue[0] == line;
    var w3 := Do(w, PostSignal);
    assert w3 == w.(signals := [THINKING, Binding], signalled := 1, engine := MonitorAfter(0, true, true, true));
    assert [[1], [2]][0..][1..] == [[1], [2]][1..];
  }

  lemma HandlesFirstLine(w: World)
    requires w == INITIAL.(file := FILE, engine := MonitorAfter(0, false, false, true))
    ensures Do(Do(Do(Do(w, Bind(true)), Replace), PostSignal), Handle(true))
         == w.(claim := BOUND, writes := [Write(0, false)], engine := MonitorAfter(1, false, false, true),
               posted := [Posted(Stdout(1), [1])], signals := [THINKING, Binding], signalled := 1)
  {
    hide Do, MonitorAfter;
    BindsFirstLine(w);
    PostsFirstLine(Do(Do(w, Bind(true)), Replace));
  }

  lemma HandlesSecondLine(w: World)
    requires w.file == FILE && w.exit == None && w.claim == BOUND && w.writes == [Write(0, false)] && w.update == None
    requires w.engine == MonitorAfter(1, false, false, true) && w.signalled == 1
    ensures Do(Do(w, Handle(true)), Checkpoint(true))
         == w.(update := Some(Replacement(SAVED, 1)), engine := MonitorAfter(2, false, false, false),
               posted := w.posted + [Posted(Stdout(2), [2])], signalled := 2)
  {
    Meanings();
    SampleEntries(2);
    hide ConfirmsIdentity, NamesAnotherSession, ResultOf, SignalOf, Entry, SAMPLE;
    var line: Bytes := [2];
    assert w.engine.queue[0] == line;
    var w1 := Do(w, Handle(true));
    assert [[1], [2]][1..][1..] == [[1], [2]][2..];
    assert w1.engine == MonitorAfter(2, false, false, true);
  }

  lemma SampleProjected()
    ensures Run(SAMPLE, "s", PROJECTED) == Projected()
  {
    var a1 := [Append(FILE)];
    var a2 := a1 + [Read(true, true)];
    var a3 := a2 + [Bind(true)];
    var a4 := a3 + [Replace];
    var a5 := a4 + [PostSignal];
    var a6 := a5 + [Handle(true)];
    var a7 := a6 + [Handle(true)];
    assert Run(SAMPLE, "s", []) == INITIAL && [] + a1 == a1;
    hide Run, Do, MonitorAfter;
    RunDo([], Append(FILE));
    RunDo(a1, Read(true, true));
    RunDo(a2, Bind(true));
    RunDo(a3, Replace);
    RunDo(a4, PostSignal);
    RunDo(a5, Handle(true));
    RunDo(a6, Handle(true));
    RunDo(a7, Checkpoint(true));
    ReadsBothLines();
    HandlesFirstLine(Run(SAMPLE, "s", a2));
    HandlesSecondLine(Run(SAMPLE, "s", a6));
  }

  // ---------------------------------------------------------------------------------------------
  // Continuations
  // ---------------------------------------------------------------------------------------------

  function DoAll(w: World, actions: seq<Action>): World
    decreases |actions|
  {
    if actions == [] then w else DoAll(Do(w, actions[0]), actions[1..])
  }

  lemma {:induction false} RunDoAll(before: seq<Action>, after: seq<Action>)
    ensures DoAll(Run(SAMPLE, "s", before), after) == Run(SAMPLE, "s", before + after)
    decreases |after|
  {
    hide Do, Run;
    if after == [] {
      assert before + after == before;
    } else {
      RunDo(before, after[0]);
      assert before + after == before + [after[0]] + after[1..];
      RunDoAll(before + [after[0]], after[1..]);
    }
  }

  lemma Next(w: World, actions: seq<Action>, w': World)
    requires actions != [] && Do(w, actions[0]) == w'
    ensures DoAll(w, actions) == DoAll(w', actions[1..])
  {
  }

  /** The run ended with exactly one verdict, this one; was an interrupt acknowledged and recorded? */
  ghost predicate EndsWith(w: World, verdict: Verdict, acknowledged: bool, recorded: bool) {
    && |w.settlements| == 1
    && w.settlements[0].verdict == verdict
    && w.settlements[0].acknowledged == acknowledged
    && w.settlements[0].cancelRequested == recorded
  }

  const SETTLING: seq<Action> := [ProviderExits(true), ObserveExit, Read(true, true), Settle(true, true)]

  lemma NothingMoreToRead()
    ensures ReadOnce(Cursor(4, []), FILE) == (Cursor(4, []), [])
  {
    assert FILE[4..] == [] && SplitOf([]) == EMPTY_SPLIT;
    var none: Bytes := [];
    assert none + none == none;
  }

  /** What becomes of a live monitor that handled both lines, after a clean exit. */
  function SettledAs(w: World, readable: bool, saved: bool): World {
    var verdict := if readable && w.claim.cancelRequested then RunCancelled else RunCompleted;
    w.(exit := Some(true), engine := Down,
       settlements := [Settlement(verdict, Settled, Live, true, w.acknowledged, w.claim.cancelRequested,
                                  |w.writes|, readable, 0, false, 2)],
       update := if saved then Some(Replacement(w.claim.(terminal := true), |w.writes|)) else None)
  }

  lemma SettlesCleanly(w: World, readable: bool, saved: bool)
    requires w.file == FILE && w.exit == None && w.update == None && w.engine == MonitorAfter(2, false, false, false)
    requires w.settlements == []
    ensures DoAll(w, SETTLING[..3] + [Settle(readable, saved)]) == SettledAs(w, readable, saved)
  {
    var actions := SETTLING[..3] + [Settle(readable, saved)];
    var none: seq<Bytes> := [];
    assert w.engine.queue == none;
    NothingMoreToRead();
    hide ReadOnce;
    var w1 := w.(exit := Some(true));
    Next(w, actions, w1);
    var w2 := w1.(engine := w.engine.(phase := LastRead));
    Next(w1, actions[1..], w2);
    var w3 := w1.(engine := w.engine.(queue := none, phase := Ready, drained := true));
    Next(w2, actions[1..][1..], w3);
    Next(w3, actions[1..][1..][1..], Do(w3, Settle(readable, saved)));
    SettlesReady(w3, readable, saved);
  }

  lemma SettlesReady(w: World, readable: bool, saved: bool)
    requires w.exit == Some(true) && w.update == None && w.settlements == []
    requires w.engine == Up(Live, Ready, Cursor(4, []), [], false, false, false, Progress(2, Some(Success), true), true,
                            0, false, false, 0)
    ensures Do(w, Settle(readable, saved)) == SettledAs(w, readable, saved)
  {
  }

  /** Undisturbed, the turn completes. */
  lemma UncrashedRunCompletes()
    ensures EndsWith(Run(SAMPLE, "s", PROJECTED + [Replace] + SETTLING), RunCompleted, false, false)
  {
    SampleProjected();
    RunDo(PROJECTED, Replace);
    var w := Do(Projected(), Replace);
    SettlesCleanly(w, true, true);
    assert SETTLING[..3] + [Settle(true, true)] == SETTLING;
    RunDoAll(PROJECTED + [Replace], SETTLING);
  }

  /**
   A crash after the checkpoint passed the result line turns that completed run into a failed one:
   the last result is not part of the claim.
   */
  lemma CrashAfterCheckpointLosesCompletion()
    ensures EndsWith(
      Run(SAMPLE, "s", PROJECTED + [Replace, ProviderExits(true), Crash, Recover, Read(true, true), Settle(true, true)]),
      RunFailed, false, false)
  {
    var actions := [ProviderExits(true), Crash, Recover, Read(true, true), Settle(true, true)];
    SampleProjected();
    RunDo(PROJECTED, Replace);
    RunDoAll(PROJECTED + [Replace], actions);
    assert PROJECTED + [Replace] + actions == PROJECTED + ([Replace] + actions);
    assert [Replace] + actions == [Replace, ProviderExits(true), Crash, Recover, Read(true, true), Settle(true, true)];
    hide Run, PROJECTED;
    CrashesAndRecovers(Do(Projected(), Replace));
  }

  lemma CrashesAndRecovers(w: World)
    requires w.file == FILE && w.exit == None && w.claim == SAVED && |w.writes| == 2 && w.settlements == []
    ensures EndsWith(DoAll(w, [ProviderExits(true), Crash, Recover, Read(true, true), Settle(true, true)]),
                     RunFailed, w.acknowledged, false)
  {
    DoThreeThenTwo(w, ProviderExits(true), Crash, Recover, Read(true, true), Settle(true, true));
    var w2 := Do(Do(w, ProviderExits(true)), Crash);
    assert Do(w2, Recover) == Recovered(w2);
    hide Do, Recovered, DoAll, EndsWith;
    RecoveredFails(w2);
  }

  lemma DoThreeThenTwo(w: World, a: Action, b: Action, c: Action, d: Action, e: Action)
    ensures DoAll(w, [a, b, c, d, e]) == DoAll(Do(Do(Do(w, a), b), c), [d, e])
  {
    hide Do;
    assert [a, b, c, d, e][1..] == [b, c, d, e] && [b, c, d, e][1..] == [c, d, e] && [c, d, e][1..] == [d, e];
    assert DoAll(w, [a, b, c, d, e]) == DoAll(Do(w, a), [b, c, d, e]);
    assert DoAll(Do(w, a), [b, c, d, e]) == DoAll(Do(Do(w, a), b), [c, d, e]);
  }

  /** A monitor that resumes behind both lines. */
  function Recovered(w: World): World {
    w.(engine := Up(RecoveredDead, LastRead, Cursor(4, []), [], false, false, false,
                    Progress(2, None, true), false, 2, true, false, 2))
  }

  lemma RecoveredFails(w: World)
    requires w.file == FILE && w.exit.Some? && w.update == None && w.settlements == []
    ensures var end := DoAll(Recovered(w), [Read(true, true), Settle(true, true)]);
      EndsWith(end, RunFailed, w.acknowledged, false)
  {
    NothingMoreToRead();
    hide ReadOnce;
    var actions := [Read(true, true), Settle(true, true)];
    var w4 := Recovered(w);
    var w5 := w4.(engine := w4.engine.(phase := Ready, drained := true));
    Next(w4, actions, w5);
    Next(w5, actions[1..], Do(w5, Settle(true, true)));
  }

  const INTERRUPT: seq<Action> := [CancelCheck, CancelRead, CancelWrite(0, true)]

  /** An undisturbed interrupt marks the claim. */
  lemma Interrupts(w: World)
    requires w.exit == None && !w.claim.terminal && w.checked == 0 && w.interrupts == []
    ensures DoAll(w, INTERRUPT)
         == w.(claim := w.claim.(cancelRequested := true), writes := w.writes + [Write(|w.writes|, true)],
               acknowledged := true)
  {
    var w1 := w.(checked := 1);
    Next(w, INTERRUPT, w1);
    var r := Replacement(w.claim.(cancelRequested := true), |w.writes|);
    var w2 := w.(interrupts := [r]);
    assert [] + [r] == [r];
    Next(w1, INTERRUPT[1..], w2);
    assert [r][..0] + [r][1..] == [];
    Next(w2, INTERRUPT[2..], Do(w2, CancelWrite(0, true)));
  }

  /** An interrupt recorded in a claim that cannot be read at settlement does not cancel the run. */
  lemma UnreadableClaimHidesCancel()
    ensures EndsWith(
      Run(SAMPLE, "s", PROJECTED + [Replace] + INTERRUPT + (SETTLING[..3] + [Settle(false, true)])),
      RunCompleted, true, true)
  {
    SampleProjected();
    RunDo(PROJECTED, Replace);
    var w1 := Do(Projected(), Replace);
    Interrupts(w1);
    RunDoAll(PROJECTED + [Replace], INTERRUPT);
    hide Run, INTERRUPT, PROJECTED;
    SettlesCleanly(DoAll(w1, INTERRUPT), false, true);
    RunDoAll(PROJECTED + [Replace] + INTERRUPT, SETTLING[..3] + [Settle(false, true)]);
  }

  /** Nor does one that comes while the checkpoint's write is in flight: that write puts back the record. */
  lemma OverwrittenCancelIsLost()
    ensures EndsWith(Run(SAMPLE, "s", PROJECTED + INTERRUPT + [Replace] + SETTLING), RunCompleted, true, false)
  {
    var w1 := DoAll(Projected(), INTERRUPT);
    InterruptsCheckpoint();
    SampleProjected();
    hide Run, INTERRUPT, PROJECTED, Do, DoAll, Projected, SETTLING;
    RunDoAll(PROJECTED, INTERRUPT);
    RunDo(PROJECTED + INTERRUPT, Replace);
    RunDoAll(PROJECTED + INTERRUPT + [Replace], SETTLING);
  }

  lemma InterruptsCheckpoint()
    ensures EndsWith(DoAll(Do(DoAll(Projected(), INTERRUPT), Replace), SETTLING), RunCompleted, true, false)
  {
    Interrupts(Projected());
    var w1 := DoAll(Projected(), INTERRUPT);
    hide INTERRUPT, DoAll;
    SettlesCleanly(Do(w1, Replace), true, true);
    assert SETTLING[..3] + [Settle(true, true)] == SETTLING;
  }

  /** A run that ends because its output cannot be read fails, its recorded cancel notwithstanding. */
  lemma FailedReadHidesCancel()
    ensures EndsWith(Run(SAMPLE, "s", INTERRUPT + [Read(false, true)]), RunFailed, true, true)
  {
    assert [] + INTERRUPT == INTERRUPT && Run(SAMPLE, "s", []) == INITIAL;
    RunDoAll([], INTERRUPT);
    Interrupts(INITIAL);
    RunDo(INTERRUPT, Read(false, true));
    hide Run;
  }

  /** So does one whose monitor cannot learn whether the provider has exited. */
  lemma FailedWaitHidesCancel()
    ensures EndsWith(Run(SAMPLE, "s", INTERRUPT + [WaitFails(true)]), RunFailed, true, true)
  {
    assert [] + INTERRUPT == INTERRUPT && Run(SAMPLE, "s", []) == INITIAL;
    RunDoAll([], INTERRUPT);
    Interrupts(INITIAL);
    RunDo(INTERRUPT, WaitFails(true));
    hide Run;
  }

  /** So does one that ends because a line names another session. */
  lemma ForeignLineHidesCancel()
    ensures EndsWith(Run(SAMPLE, "s", INTERRUPT + [Append([3, 10]), Read(true, true), Handle(true)]),
                     RunFailed, true, true)
  {
    assert [] + INTERRUPT == INTERRUPT && Run(SAMPLE, "s", []) == INITIAL;
    RunDoAll([], INTERRUPT);
    Interrupts(INITIAL);
    var actions := [Append([3, 10]), Read(true, true), Handle(true)];
    RunDoAll(INTERRUPT, actions);
    hide Run, INTERRUPT;
    StopsAtForeignLine(DoAll(INITIAL, INTERRUPT));
  }

  lemma StopsAtForeignLine(w: World)
    requires w.file == [] && w.exit == None && w.engine == INITIAL.engine && w.update == None && w.settlements == []
    ensures var end := DoAll(w, [Append([3, 10]), Read(true, true), Handle(true)]);
      EndsWith(end, RunFailed, w.acknowledged, w.claim.cancelRequested)
  {
    var actions := [Append([3, 10]), Read(true, true), Handle(true)];
    var w1, w2 := Do(w, Append([3, 10])), Do(Do(w, Append([3, 10])), Read(true, true));
    Next(w, actions, w1);
    Next(w1, actions[1..], w2);
    Next(w2, actions[2..], Do(w2, Handle(true)));
    QueuesForeignLine(w);
    hide Do;
    HandlesForeignLine(w2);
  }

  lemma QueuesForeignLine(w: World)
    requires w.file == [] && w.exit == None && w.engine == INITIAL.engine && w.update == None
    ensures Do(Do(w, Append([3, 10])), Read(true, true))
      == w.(file := [3, 10], engine := w.engine.(cursor := Cursor(2, []), queue := [[3]], owesCheckpoint := true))
  {
    OneLine(3);
    hide SplitOf;
    var file: Bytes := [3, 10];
    assert [] + file == file && file[0..] == file;
  }

  lemma HandlesForeignLine(w: World)
    requires w.engine.Up? && w.engine.mode == Live && w.engine.queue == [[3]] && w.update == None && w.settlements == []
    ensures EndsWith(Do(w, Handle(true)), RunFailed, w.acknowledged, w.claim.cancelRequested)
  {
    Meanings();
    hide NamesAnotherSession, ConfirmsIdentity, SignalOf, ResultOf, SAMPLE;
  }

  lemma PostsSignal(w: World, x: Signal)
    requires AtLine(w) && w.engine.queue != []
    requires !ConfirmsIdentity(SAMPLE, "s", w.engine.queue[0]) && !NamesAnotherSession(SAMPLE, "s", w.engine.queue[0])
    requires SignalOf(SAMPLE, "s", w.engine.queue[0]) == Some(x)
    ensures var w1 := Do(w, PostSignal); var w2 := Do(w1, Handle(true));
      && w1.signals == w.signals + [x]
      && AtLine(w2) && w2.engine.queue == w.engine.queue[1..] && w2.signals == w1.signals
  {
    hide SAMPLE, NamesAnotherSession, ConfirmsIdentity, SignalOf, Entry, Advance;
  }

  lemma QueuesToolLines()
    ensures var w := Run(SAMPLE, "s", [Append([4, 10, 5, 10]), Read(true, true)]);
      AtLine(w) && w.engine.queue == [[4], [5]] && w.signals == [THINKING]
  {
    var file: Bytes := [4, 10, 5, 10];
    assert [] + [Append(file)] == [Append(file)] && Run(SAMPLE, "s", []) == INITIAL;
    RunDo([], Append(file));
    RunDo([Append(file)], Read(true, true));
    assert [Append(file)] + [Read(true, true)] == [Append(file), Read(true, true)];
    hide Run;
    TwoLines(4, 5);
    hide SplitOf;
    assert [] + file == file && file[0..] == file;
  }

  /** Two messages that run different tools: a server that keeps one event of a key keeps the first. */
  lemma TwoToolsShareAPhaseKey()
    ensures Run(SAMPLE, "s", [Append([4, 10, 5, 10]), Read(true, true)] + [PostSignal] + [Handle(true)] + [PostSignal]).signals
      == [THINKING, Phase("running", Some("a")), Phase("running", Some("b"))]
  {
    var read := [Append([4, 10, 5, 10]), Read(true, true)];
    QueuesToolLines();
    RunDo(read, PostSignal);
    RunDo(read + [PostSignal], Handle(true));
    RunDo(read + [PostSignal] + [Handle(true)], PostSignal);
    var w := Run(SAMPLE, "s", read);
    ToolMeanings();
    hide Run, Do, NamesAnotherSession, ConfirmsIdentity, SignalOf, SAMPLE;
    PostsSignal(w, Phase("running", Some("a")));
    PostsSignal(Do(Do(w, PostSignal), Handle(true)), Phase("running", Some("b")));
  }

  // ---------------------------------------------------------------------------------------------
  // Two verdicts under the terminal key
  // ---------------------------------------------------------------------------------------------

  ghost predicate EndsTwice(w: World, first: Verdict, second: Verdict) {
    |w.settlements| == 2 && w.settlements[0].verdict == first && w.settlements[1].verdict == second
  }

  lemma SettlesTwice(actions: seq<Action>, first: Verdict, second: Verdict)
    requires var w := Run(SAMPLE, "s", actions);
      && |w.settlements| == 1 && w.settlements[0].verdict == first && !w.claim.terminal
      && second == if w.claim.cancelRequested then RunCancelled else RunFailed
    ensures EndsTwice(Run(SAMPLE, "s", actions + RESTART), first, second)
  {
    hide Run, SAMPLE, RESTART;
    SettledAgainExactly(SAMPLE, "s", actions);
    var w, w' := Run(SAMPLE, "s", actions), Run(SAMPLE, "s", actions + RESTART);
    assert w'.settlements[..1][0] == w'.settlements[0];
  }

  const UNSAVED: seq<Action> := PROJECTED + [Replace] + (SETTLING[..3] + [Settle(true, false)])

  /** The turn completes, the claim write of its settlement fails, and the next engine reports a failure. */
  lemma UnsavedEndingSettlesTwice()
    ensures EndsTwice(Run(SAMPLE, "s", UNSAVED + RESTART), RunCompleted, RunFailed)
  {
    SampleProjected();
    RunDo(PROJECTED, Replace);
    var w := Do(Projected(), Replace);
    SettlesCleanly(w, true, false);
    RunDoAll(PROJECTED + [Replace], SETTLING[..3] + [Settle(true, false)]);
    hide Run, PROJECTED, SETTLING, DoAll;
    SettlesTwice(UNSAVED, RunCompleted, RunFailed);
  }

  const LATE: seq<Action> := [CancelCheck, CancelRead]
  const OVERTAKEN: seq<Action> := PROJECTED + [Replace] + LATE + SETTLING + [Replace] + [CancelWrite(0, true)]

  /** An interrupt that read the claim before the settlement's write puts it back after it. */
  lemma StaleInterruptSettlesTwice()
    ensures EndsTwice(Run(SAMPLE, "s", OVERTAKEN + RESTART), RunCompleted, RunCancelled)
  {
    var a2 := PROJECTED + [Replace] + LATE;
    var a3 := a2 + SETTLING;
    SampleProjected();
    RunDo(PROJECTED, Replace);
    var w1 := Do(Projected(), Replace);
    ReadsForInterrupt(w1);
    RunDoAll(PROJECTED + [Replace], LATE);
    var w2 := DoAll(w1, LATE);
    assert SETTLING[..3] + [Settle(true, true)] == SETTLING;
    hide Run, PROJECTED, LATE;
    SettlesCleanly(w2, true, true);
    RunDoAll(a2, SETTLING);
    hide SETTLING, DoAll;
    var w3 := SettledAs(w2, true, true);
    RunDo(a3, Replace);
    RunDo(a3 + [Replace], CancelWrite(0, true));
    PutsBack(w3);
    SettlesTwice(OVERTAKEN, RunCompleted, RunCancelled);
  }

  lemma ReadsForInterrupt(w: World)
    requires w.exit == None && !w.claim.terminal && w.checked == 0 && w.interrupts == []
    ensures DoAll(w, LATE) == w.(interrupts := [Replacement(w.claim.(cancelRequested := true), |w.writes|)])
  {
    var w1 := w.(checked := 1);
    Next(w, LATE, w1);
    Next(w1, LATE[1..], Do(w1, CancelRead));
  }

  lemma PutsBack(w: World)
    requires w.update.Some? && |w.interrupts| == 1
    ensures var w' := Do(Do(w, Replace), CancelWrite(0, true));
      w'.claim == w.interrupts[0].claim && w'.settlements == w.settlements
  {
  }
}
