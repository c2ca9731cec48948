/**
 What a run tells the server, in the fields of the provider's own lines (engine/src/claude_print.rs).

 `ProjectionRecovery` compares runs with one uninterrupted pass over the same lines. Here the verdict,
 the signals and the line events of every run are read off the lines directly: which line says what is
 stated on the decoded event, without the functions the monitors use.
 */
module RunEvidence {
  import opened Wrappers
  import opened StreamLines
  import opened StreamProjection
  import opened ProjectionRecovery

  /** The requested session was announced on one of these lines. */
  ghost predicate Announced(dec: Decoder, expected: string, lines: seq<Bytes>) {
    exists k | 0 <= k < |lines| :: Announces(dec, lines[k], expected)
  }

  lemma AnnouncedMeaning(dec: Decoder, expected: string, lines: seq<Bytes>)
    ensures AnyConfirms(dec, expected, lines) <==> Announced(dec, expected, lines)
  {
    forall k | 0 <= k < |lines|
      ensures ConfirmsIdentity(dec, expected, lines[k]) <==> Announces(dec, lines[k], expected)
    {
      IdentityMeaning(dec, expected, lines[k]);
    }
  }

  /** What a settlement went by, other than its lines. */
  predicate CancelSeen(s: Settlement) {
    s.cancelRequested && s.claimReadable
  }

  /**
   Every verdict of every run. It is "completed" exactly if the run was settled on its lines, no cancel
   was seen, the requested session was announced, the last result among the lines handled says success
   without an error flag, and a live monitor saw a clean exit; "cancelled" exactly if it was settled and
   the cancel was seen; "failed" otherwise.
   */
  lemma VerdictFromLines(dec: Decoder, expected: string, actions: seq<Action>, i: nat)
    requires i < |Run(dec, expected, actions).settlements|
    ensures var w := Run(dec, expected, actions);
      var s := w.settlements[i];
      var lines: seq<Bytes> := SplitOf(w.file).lines;
      && s.start <= s.seqNo <= |lines|
      && (s.verdict == RunCompleted <==>
            && s.ending == Settled && !CancelSeen(s)
            && (s.startConfirmed || Announced(dec, expected, lines[s.start..s.seqNo]))
            && EndsInSuccess(dec, lines[s.start..s.seqNo])
            && (s.mode == Live ==> w.exit == Some(true)))
      && (s.verdict == RunCancelled <==> s.ending == Settled && CancelSeen(s))
  {
    VerdictExact(dec, expected, actions, i);
    var w := Run(dec, expected, actions);
    hide Run, SplitOf, EndsInSuccess, Announced, AnyConfirms, LastResult;
    var s := w.settlements[i];
    var handled := SplitOf(w.file).lines[s.start..s.seqNo];
    LastResultMeaning(dec, handled);
    AnnouncedMeaning(dec, expected, handled);
  }

  /** No line that was posted announces another session, and a run ended by one stops right before it. */
  lemma ForeignLinesStop(dec: Decoder, expected: string, actions: seq<Action>, k: nat, other: string)
    requires k < |Ingest(Run(dec, expected, actions).posted)| && other != expected
    ensures k < |SplitOf(Run(dec, expected, actions).file).lines|
    ensures !Announces(dec, SplitOf(Run(dec, expected, actions).file).lines[k], other)
  {
    InvRun(dec, expected, actions);
    var w := Run(dec, expected, actions);
    var lines: seq<Bytes> := SplitOf(w.file).lines;
    var n := |Ingest(w.posted)|;
    hide Run, SplitOf, Ingest, NamesAnotherSession;
    assert lines[..n][k] == lines[k];
    IdentityMeaning(dec, expected, lines[k]);
  }

  lemma ForeignEndingNamesItsLine(dec: Decoder, expected: string, actions: seq<Action>, i: nat)
    requires i < |Run(dec, expected, actions).settlements|
    requires Run(dec, expected, actions).settlements[i].ending == IdentityMismatch
    ensures var w := Run(dec, expected, actions);
      var s := w.settlements[i];
      && s.seqNo < |SplitOf(w.file).lines|
      && exists other | other != expected :: Announces(dec, SplitOf(w.file).lines[s.seqNo], other)
  {
    InvRun(dec, expected, actions);
    var w := Run(dec, expected, actions);
    assert SettlementAgrees(dec, expected, w, w.settlements[i]);
    hide Run, SplitOf, Ingest, NamesAnotherSession;
    IdentityMeaning(dec, expected, SplitOf(w.file).lines[w.settlements[i].seqNo]);
  }

  /** The line runs this tool. */
  predicate RunsTool(dec: Decoder, line: Bytes, tool: string) {
    dec(line).Parsed? && dec(line).event.kind == Some("assistant") && dec(line).event.tool == Some(tool)
  }

  predicate IsUserLine(dec: Decoder, line: Bytes) {
    dec(line).Parsed? && dec(line).event.kind == Some("user")
  }

  /** The line warrants this signal. */
  predicate Warrants(dec: Decoder, expected: string, line: Bytes, x: Signal) {
    match x
    case Binding => Announces(dec, line, expected)
    case Phase(name, None) => name == "thinking" && IsUserLine(dec, line)
    case Phase(name, Some(tool)) => name == "running" && RunsTool(dec, line, tool)
  }

  lemma SignalMeaning(dec: Decoder, expected: string, line: Bytes, x: Signal)
    ensures SignalOf(dec, expected, line) == Some(x) <==> Warrants(dec, expected, line, x)
  {
    assert "system" != "assistant" && "system" != "user" && "assistant" != "user";
  }

  /**
   Every run signals a binding for exactly the announcements, a running phase for exactly the tools and
   a thinking phase for exactly the user lines among the first `signalled` lines, besides the first
   phase; and none of those lines announces another session.
   */
  lemma SignalsFromLines(dec: Decoder, expected: string, actions: seq<Action>, x: Signal)
    ensures var w := Run(dec, expected, actions);
      var lines: seq<Bytes> := SplitOf(w.file).lines;
      && |Ingest(w.posted)| <= w.signalled <= |lines|
      && (x in w.signals <==>
            x == Phase("thinking", None) || exists k | 0 <= k < w.signalled :: Warrants(dec, expected, lines[k], x))
  {
    SignalsRefineOnePass(dec, expected, actions, x);
    var w := Run(dec, expected, actions);
    var lines: seq<Bytes> := SplitOf(w.file).lines;
    hide Run, SplitOf, Ingest, SignalOf, Warrants, FirstStop;
    forall k | 0 <= k < w.signalled
      ensures SignalOf(dec, expected, lines[..w.signalled][k]) == Some(x) <==> Warrants(dec, expected, lines[k], x)
    {
      SignalMeaning(dec, expected, lines[k], x);
    }
  }

  /**
   Every line event of every run is one of the file's lines under that line's number, as a gap exactly
   if the line cannot be decoded.
   */
  lemma EventsFromLines(dec: Decoder, expected: string, actions: seq<Action>, p: Posted)
    requires p in Run(dec, expected, actions).posted
    ensures var lines: seq<Bytes> := SplitOf(Run(dec, expected, actions).file).lines;
      exists k | 0 <= k < |lines| ::
        && p.line == lines[k]
        && p.key == if dec(lines[k]).Undecodable? then DecodeGap(k + 1) else Stdout(k + 1)
  {
    InvRun(dec, expected, actions);
    var w := Run(dec, expected, actions);
    var lines: seq<Bytes> := SplitOf(w.file).lines;
    hide Run, SplitOf, Ingest;
    assert p in Pass(dec, lines);
    var k :| 0 <= k < |Pass(dec, lines)| && Pass(dec, lines)[k] == p;
  }
}
