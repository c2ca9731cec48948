/**
 What the Claude monitors do with each line of provider output (engine/src/claude_print.rs).

 A decoder stands for the JSON parser: it is a parameter, so everything below holds for every
 parser that gives the same answer for the same bytes.
 */
module StreamProjection {
  import opened Wrappers
  import opened StreamLines

  /** The fields of a stream-json event that drive decisions. */
  datatype StreamEvent = StreamEvent(
    kind: Option<string>,
    subtype: Option<string>,
    isError: Option<bool>,
    sessionId: Option<string>,
    tool: Option<string>)          // the name in the first `tool_use` block of a message

  datatype Decoded = Undecodable | Parsed(event: StreamEvent)

  type Decoder = Bytes -> Decoded

  datatype ProviderResult = Success | Error

  datatype Verdict = RunCompleted | RunFailed | RunCancelled

  function TerminalResult(event: StreamEvent): Option<ProviderResult> {
    if event.kind != Some("result") then None
    else if event.subtype == Some("success") && event.isError != Some(true) then Some(Success)
    else Some(Error)
  }

  function StreamIdentity(event: StreamEvent): Option<string> {
    if event.kind == Some("system") && event.subtype == Some("init") then event.sessionId else None
  }

  function SettleLive(
    cancelRequested: bool, exitSuccess: bool, identityConfirmed: bool, result: Option<ProviderResult>): Verdict
  {
    if cancelRequested then RunCancelled
    else if exitSuccess && identityConfirmed && result == Some(Success) then RunCompleted
    else RunFailed
  }

  function SettleRecovered(
    cancelRequested: bool, identityConfirmed: bool, result: Option<ProviderResult>): Verdict
  {
    if cancelRequested then RunCancelled
    else if identityConfirmed && result == Some(Success) then RunCompleted
    else RunFailed
  }

  // ---------------------------------------------------------------------------------------------
  // Lines
  // ---------------------------------------------------------------------------------------------

  /** The line announces a session other than the requested one. */
  predicate NamesAnotherSession(dec: Decoder, expected: string, line: Bytes) {
    var d := dec(line);
    d.Parsed? && StreamIdentity(d.event).Some? && StreamIdentity(d.event).value != expected
  }

  /** The line announces the requested session. */
  predicate ConfirmsIdentity(dec: Decoder, expected: string, line: Bytes) {
    var d := dec(line);
    d.Parsed? && StreamIdentity(d.event) == Some(expected)
  }

  function ResultOf(dec: Decoder, line: Bytes): Option<ProviderResult> {
    var d := dec(line);
    if d.Parsed? then TerminalResult(d.event) else None
  }

  /** The line announces this session, in the event's own fields. */
  predicate Announces(dec: Decoder, line: Bytes, session: string) {
    && dec(line).Parsed?
    && dec(line).event.kind == Some("system")
    && dec(line).event.subtype == Some("init")
    && dec(line).event.sessionId == Some(session)
  }

  predicate IsResultLine(dec: Decoder, line: Bytes) {
    dec(line).Parsed? && dec(line).event.kind == Some("result")
  }

  /** The provider says that it succeeded, and does not flag an error. */
  predicate IsSuccessLine(dec: Decoder, line: Bytes) {
    IsResultLine(dec, line) && dec(line).event.subtype == Some("success") && dec(line).event.isError != Some(true)
  }

  /** Among these lines there is a result, and the last one is a success. */
  ghost predicate EndsInSuccess(dec: Decoder, lines: seq<Bytes>) {
    exists k | 0 <= k < |lines| ::
      IsSuccessLine(dec, lines[k]) && forall j | k < j < |lines| :: !IsResultLine(dec, lines[j])
  }

  lemma IdentityMeaning(dec: Decoder, expected: string, line: Bytes)
    ensures ConfirmsIdentity(dec, expected, line) <==> Announces(dec, line, expected)
    ensures NamesAnotherSession(dec, expected, line) <==> exists other | other != expected :: Announces(dec, line, other)
  {
    if NamesAnotherSession(dec, expected, line) {
      assert Announces(dec, line, StreamIdentity(dec(line).event).value);
    }
  }

  lemma ResultMeaning(dec: Decoder, line: Bytes)
    ensures ResultOf(dec, line).Some? <==> IsResultLine(dec, line)
    ensures ResultOf(dec, line) == Some(Success) <==> IsSuccessLine(dec, line)
  {
  }

  ghost predicate AnyConfirms(dec: Decoder, expected: string, lines: seq<Bytes>) {
    exists i :: 0 <= i < |lines| && ConfirmsIdentity(dec, expected, lines[i])
  }

  ghost predicate NoneStops(dec: Decoder, expected: string, lines: seq<Bytes>) {
    forall i :: 0 <= i < |lines| ==> !NamesAnotherSession(dec, expected, lines[i])
  }

  /** The last result line, if there is one. */
  function LastResult(dec: Decoder, lines: seq<Bytes>): Option<ProviderResult> {
    if lines == [] then None
    else OrElse(ResultOf(dec, lines[|lines| - 1]), LastResult(dec, lines[..|lines| - 1]))
  }

  /** Number of lines before the first one that names another session. */
  function FirstStop(dec: Decoder, expected: string, lines: seq<Bytes>): nat {
    if lines == [] || NamesAnotherSession(dec, expected, lines[0]) then 0
    else 1 + FirstStop(dec, expected, lines[1..])
  }

  lemma {:induction false} FirstStopMeaning(dec: Decoder, expected: string, lines: seq<Bytes>)
    ensures var n := FirstStop(dec, expected, lines);
            && n <= |lines|
            && NoneStops(dec, expected, lines[..n])
            && (n < |lines| ==> NamesAnotherSession(dec, expected, lines[n]))
  {
    if lines != [] && !NamesAnotherSession(dec, expected, lines[0]) {
      var rest := lines[1..];
      FirstStopMeaning(dec, expected, rest);
      var n := FirstStop(dec, expected, lines);
      assert forall i :: 0 < i <= |rest| ==> lines[i] == rest[i - 1];
      assert lines[..n] == [lines[0]] + rest[..n - 1];
    }
  }

  lemma {:induction false} LastResultMeaning(dec: Decoder, lines: seq<Bytes>)
    ensures LastResult(dec, lines).Some? <==> exists k | 0 <= k < |lines| :: IsResultLine(dec, lines[k])
    ensures LastResult(dec, lines) == Some(Success) <==> EndsInSuccess(dec, lines)
  {
    if lines != [] {
      var n := |lines| - 1;
      hide ResultOf, IsResultLine, IsSuccessLine;
      LastResultMeaning(dec, lines[..n]);
      ResultMeaning(dec, lines[n]);
      SuccessIsResult(dec, lines);
      assert forall k | 0 <= k < n :: lines[..n][k] == lines[k];
    }
  }

  lemma SuccessIsResult(dec: Decoder, lines: seq<Bytes>)
    ensures forall k | 0 <= k < |lines| :: IsSuccessLine(dec, lines[k]) ==> IsResultLine(dec, lines[k])
  {
  }

  lemma {:induction false} LastResultAppend(dec: Decoder, a: seq<Bytes>, b: seq<Bytes>)
    ensures LastResult(dec, a + b) == OrElse(LastResult(dec, b), LastResult(dec, a))
  {
    if b == [] {
      assert a + b == a;
    } else {
      LastResultAppend(dec, a, b[..|b| - 1]);
      assert (a + b)[..|a + b| - 1] == a + b[..|b| - 1];
    }
  }

  // ---------------------------------------------------------------------------------------------
  // Signals
  // ---------------------------------------------------------------------------------------------

  /** What a line posts besides its own event: the binding, or a phase. */
  datatype Signal = Binding | Phase(name: string, tool: Option<string>)

  /** The part of a signal's dedupe key that varies within one run: a phase's tool is not in it. */
  datatype SignalKey = BindingKey | PhaseKey(name: string)

  function KeyOfSignal(s: Signal): SignalKey {
    match s
    case Binding => BindingKey
    case Phase(name, _) => PhaseKey(name)
  }

  const THINKING := Phase("thinking", None)

  /** The tool an assistant message runs. */
  function ToolOf(dec: Decoder, line: Bytes): Option<string> {
    var d := dec(line);
    if d.Parsed? && d.event.kind == Some("assistant") then d.event.tool else None
  }

  function SignalOf(dec: Decoder, expected: string, line: Bytes): Option<Signal> {
    var d := dec(line);
    if ConfirmsIdentity(dec, expected, line) then Some(Binding)
    else if ToolOf(dec, line).Some? then Some(Phase("running", ToolOf(dec, line)))
    else if d.Parsed? && d.event.kind == Some("user") then Some(THINKING)
    else None
  }

  /** The signals of consecutive lines. */
  function Signals(dec: Decoder, expected: string, lines: seq<Bytes>): seq<Signal> {
    if lines == [] then []
    else
      var rest := Signals(dec, expected, lines[..|lines| - 1]);
      var last := SignalOf(dec, expected, lines[|lines| - 1]);
      if last.Some? then rest + [last.value] else rest
  }

  lemma SignalsSnoc(dec: Decoder, expected: string, lines: seq<Bytes>, i: nat)
    requires i < |lines|
    ensures Signals(dec, expected, lines[..i + 1])
         == Signals(dec, expected, lines[..i])
            + (if SignalOf(dec, expected, lines[i]).Some? then [SignalOf(dec, expected, lines[i]).value] else [])
  {
    hide SignalOf;
    assert lines[..i + 1][..i] == lines[..i] && lines[..i + 1][i] == lines[i];
  }

  // ---------------------------------------------------------------------------------------------
  // Line events
  // ---------------------------------------------------------------------------------------------

  /** The part of a line event's dedupe key that varies within one run. */
  datatype Key = Stdout(seqNo: nat) | DecodeGap(seqNo: nat)

  datatype Posted = Posted(key: Key, line: Bytes)

  /** The event posted for the n-th line. */
  function Entry(dec: Decoder, n: nat, line: Bytes): Posted {
    Posted(if dec(line).Undecodable? then DecodeGap(n) else Stdout(n), line)
  }

  /** The events posted for consecutive lines, the first of which has number `from + 1`. */
  function Entries(dec: Decoder, from: nat, lines: seq<Bytes>): seq<Posted> {
    seq(|lines|, i requires 0 <= i < |lines| => Entry(dec, from + i + 1, lines[i]))
  }

  /** One uninterrupted pass: the n-th line is posted under sequence number n. */
  function Pass(dec: Decoder, lines: seq<Bytes>): seq<Posted> {
    seq(|lines|, i requires 0 <= i < |lines| => Entry(dec, i + 1, lines[i]))
  }

  /** What one uninterrupted monitor posts: it stops at a line that names another session. */
  function UninterruptedPass(dec: Decoder, expected: string, lines: seq<Bytes>): seq<Posted> {
    FirstStopMeaning(dec, expected, lines);
    Pass(dec, lines[..FirstStop(dec, expected, lines)])
  }

  // ---------------------------------------------------------------------------------------------
  // The monitors' loop body
  // ---------------------------------------------------------------------------------------------

  /** What a monitor learned from the lines it has handled. */
  datatype Progress = Progress(seqNo: nat, result: Option<ProviderResult>, confirmed: bool)

  /** Handles one line that does not stop the run. */
  function Advance(dec: Decoder, expected: string, p: Progress, line: Bytes): Progress {
    Progress(
      p.seqNo + 1,
      OrElse(ResultOf(dec, line), p.result),
      p.confirmed || ConfirmsIdentity(dec, expected, line))
  }

  function AdvanceAll(dec: Decoder, expected: string, p: Progress, lines: seq<Bytes>): Progress {
    if lines == [] then p
    else Advance(dec, expected, AdvanceAll(dec, expected, p, lines[..|lines| - 1]), lines[|lines| - 1])
  }

  lemma AdvanceAllSnoc(dec: Decoder, expected: string, p: Progress, lines: seq<Bytes>, i: nat)
    requires i < |lines|
    ensures AdvanceAll(dec, expected, p, lines[..i + 1])
         == Advance(dec, expected, AdvanceAll(dec, expected, p, lines[..i]), lines[i])
  {
    assert lines[..i + 1][..i] == lines[..i] && lines[..i + 1][i] == lines[i];
  }

  lemma EntriesSnoc(dec: Decoder, from: nat, lines: seq<Bytes>, i: nat)
    requires i < |lines|
    ensures Entries(dec, from, lines[..i + 1])
         == Entries(dec, from, lines[..i]) + [Entry(dec, from + i + 1, lines[i])]
  {
  }

  /** More lines leave the entries of the earlier ones as they are. */
  lemma PassPrefix(dec: Decoder, lines: seq<Bytes>, n: nat)
    requires n <= |lines|
    ensures Pass(dec, lines)[..n] == Pass(dec, lines[..n])
  {
  }

  lemma {:induction false} AdvanceAllMeaning(dec: Decoder, expected: string, p: Progress, lines: seq<Bytes>)
    ensures AdvanceAll(dec, expected, p, lines)
         == Progress(
              p.seqNo + |lines|,
              OrElse(LastResult(dec, lines), p.result),
              p.confirmed || AnyConfirms(dec, expected, lines))
  {
    if lines != [] {
      var n := |lines| - 1;
      AdvanceAllMeaning(dec, expected, p, lines[..n]);
      assert forall i :: 0 <= i < n ==> lines[..n][i] == lines[i];
    }
  }

  lemma NothingYet(dec: Decoder, expected: string, p: Progress, from: nat, lines: seq<Bytes>)
    ensures AdvanceAll(dec, expected, p, lines[..0]) == p
    ensures Entries(dec, from, lines[..0]) == []
    ensures Signals(dec, expected, lines[..0]) == []
    ensures NoneStops(dec, expected, lines[..0])
  {
  }

  lemma NoneStopsSnoc(dec: Decoder, expected: string, lines: seq<Bytes>, i: nat)
    requires i < |lines| && NoneStops(dec, expected, lines[..i])
    ensures NamesAnotherSession(dec, expected, lines[i]) || NoneStops(dec, expected, lines[..i + 1])
  {
    hide NamesAnotherSession;
    assert forall k | 0 <= k < i :: lines[..i + 1][k] == lines[..i][k];
  }

  /** The fields a monitor keeps between reads, and the events it has handed to its sink. */
  class Monitor {
    const reader: StreamReader
    const expected: string
    var seqNo: nat
    var terminal: Option<ProviderResult>
    var identityConfirmed: bool
    var posted: seq<Posted>
    var signals: seq<Signal>

    /** A fresh turn starts at 0; recovery starts at what the claim recorded. */
    constructor (expected: string, offset: nat, projectedSeq: nat, providerIdentityConfirmed: bool)
      ensures fresh(reader) && reader.At() == Cursor(offset, [])
      ensures this.expected == expected && posted == [] && signals == []
      ensures Learned() == Progress(projectedSeq, None, providerIdentityConfirmed)
    {
      this.reader := new StreamReader(offset);
      this.expected := expected;
      this.seqNo := projectedSeq;
      this.terminal := None;
      this.identityConfirmed := providerIdentityConfirmed;
      this.posted := [];
      this.signals := [];
    }

    function Learned(): Progress
      reads this
    {
      Progress(seqNo, terminal, identityConfirmed)
    }

    /** The binding of the requested session, then the phase; a line has one of them at most. */
    method PostSignals(event: StreamEvent)
      modifies `signals
      ensures forall dec: Decoder, line: Bytes | dec(line) == Parsed(event) ::
        var signal := SignalOf(dec, expected, line);
        signals == old(signals) + if signal.Some? then [signal.value] else []
    {
      if StreamIdentity(event) == Some(expected) {
        signals := signals + [Binding];
      }
      if event.kind == Some("assistant") {
        if event.tool.Some? {
          signals := signals + [Phase("running", event.tool)];
        }
      } else if event.kind == Some("user") {
        signals := signals + [THINKING];
      }
    }

    /** One line: stop before posting anything if it names another session. */
    method ProjectLine(dec: Decoder, line: Bytes) returns (mismatch: bool)
      modifies this
      ensures mismatch == NamesAnotherSession(dec, expected, line)
      ensures mismatch <==> exists other | other != expected :: Announces(dec, line, other)
      ensures mismatch ==> posted == old(posted) && signals == old(signals)
      ensures !mismatch ==>
        && Learned() == Advance(dec, expected, old(Learned()), line)
        && posted == old(posted) + [Entry(dec, old(seqNo) + 1, line)]
        && signals == old(signals) + (if SignalOf(dec, expected, line).Some? then [SignalOf(dec, expected, line).value] else [])
      ensures !mismatch && IsResultLine(dec, line) ==>
        terminal == Some(if IsSuccessLine(dec, line) then Success else Error)
      ensures !mismatch && !IsResultLine(dec, line) ==> terminal == old(terminal)
    {
      IdentityMeaning(dec, expected, line);
      seqNo := seqNo + 1;
      var decoded := dec(line);
      match decoded {
        case Parsed(event) =>
          var identity := StreamIdentity(event);
          if identity.Some? && identity.value != expected {
            return true;
          }
          if identity.Some? {
            identityConfirmed := true;
          }
          var result := TerminalResult(event);
          if result.Some? {
            terminal := result;
          }
          PostSignals(event);
          posted := posted + [Posted(Stdout(seqNo), line)];
        case Undecodable =>
          posted := posted + [Posted(DecodeGap(seqNo), line)];
      }
      return false;
    }

    /**
     Reads the growth of the file and handles every line, unless one names another session: then
     the lines before it have been posted and nothing after it is looked at.
     */
    method ProjectGrowth(dec: Decoder, file: Bytes) returns (hadLines: bool, mismatch: bool)
      modifies this, reader
      ensures var (at, lines) := ReadOnce(old(reader.At()), file);
              var n := FirstStop(dec, expected, lines);
              && reader.At() == at
              && hadLines == (lines != [])
              && mismatch == (n < |lines|)
              && n <= |lines|
              && posted == old(posted) + Entries(dec, old(seqNo), lines[..n])
              && signals == old(signals) + Signals(dec, expected, lines[..n])
              && (!mismatch ==> Learned() == AdvanceAll(dec, expected, old(Learned()), lines))
    {
      var lines := reader.ReadGrowth(file);
      hide AdvanceAll, Advance, Entries, Entry, Signals, SignalOf, ReadOnce, FirstStop, NamesAnotherSession, NoneStops;
      hadLines, mismatch := lines != [], false;
      ghost var start := seqNo;
      var i: nat := 0;
      NothingYet(dec, expected, Learned(), start, lines);
      while i < |lines|
        invariant i <= |lines|
        invariant NoneStops(dec, expected, lines[..i])
        invariant Learned() == AdvanceAll(dec, expected, old(Learned()), lines[..i])
        invariant seqNo == start + i
        invariant posted == old(posted) + Entries(dec, start, lines[..i])
        invariant signals == old(signals) + Signals(dec, expected, lines[..i])
        invariant reader.At() == ReadOnce(old(reader.At()), file).0
      {
        NoneStopsSnoc(dec, expected, lines, i);
        AdvanceAllSnoc(dec, expected, old(Learned()), lines, i);
        EntriesSnoc(dec, start, lines, i);
        SignalsSnoc(dec, expected, lines, i);
        mismatch := ProjectLine(dec, lines[i]);
        if mismatch {
          StopsAt(dec, expected, lines, i);
          return;
        }
        i := i + 1;
      }
      assert lines[..i] == lines;
      StopsAt(dec, expected, lines, i);
    }
  }

  lemma {:induction false} StopsAt(dec: Decoder, expected: string, lines: seq<Bytes>, n: nat)
    requires n <= |lines| && NoneStops(dec, expected, lines[..n])
    requires n < |lines| ==> NamesAnotherSession(dec, expected, lines[n])
    ensures FirstStop(dec, expected, lines) == n
  {
    if n > 0 {
      assert lines[..n][0] == lines[0];
      assert lines[1..][..n - 1] == lines[..n][1..];
      StopsAt(dec, expected, lines[1..], n - 1);
    }
  }
}
