/**
 What of a console turn is never dropped on its way to the server (engine/src/codex_exec.rs): the
 projection's output goes through the two-lane pump, where any preview may be dropped.

 The guarantee is stated with definitions that look only at the app-server notifications: however
 previews fare, the pump takes the binding, every completed message with all its text, every
 completed tool with all its output, and the terminal signal, in the order they happened; and what it
 takes it delivers, or gives up as a whole batch after its attempts.
 */
module LiveText {
  import opened Wrappers
  import opened AppServerProjection
  import Pump = EventPump

  /** What the turn asks the sink to post. */
  datatype Posting =
    | Notification(event: RpcEvent)
    | Binding
    | Terminal
    | Other(kind: string, progressKind: Option<string>)   // phases, latency stages, the user's prompt

  predicate IsPreviewKind(kind: string, progressKind: Option<string>) {
    && kind != "terminal_signal" && kind != "binding_signal"
    && progressKind != Some("console_live_tool_item")
  }

  function Plain(kind: string, progressKind: Option<string>): Pump.Batch {
    [Pump.RuntimeEvent(kind, progressKind, None, None, "", "")]
  }

  function MessageBatch(id: string, text: string, completed: bool): Pump.Batch {
    [Pump.RuntimeEvent("progress_signal", Some("bridge_live_transcript_delta"), None, Some(completed), id, text)]
  }

  function ToolBatch(id: string, output: string, completed: bool): Pump.Batch {
    [Pump.RuntimeEvent("progress_signal", Some("console_live_tool_item"), Some(completed), None, id, output)]
  }

  function BatchFor(p: Projected): Pump.Batch {
    match p
    case Phase(_, _) => Plain("phase_signal", None)
    case AssistantItem(id, _, _, _, text, completed) => MessageBatch(id, text, completed)
    case ToolItem(id, _, output, _, _, completed) => ToolBatch(id, output, completed)
  }

  function Batches(out: seq<Projected>): seq<Pump.Batch> {
    seq(|out|, k requires 0 <= k < |out| => BatchFor(out[k]))
  }

  function Notifications(history: seq<Posting>): seq<RpcEvent> {
    if history == [] then []
    else
      var rest := Notifications(history[..|history| - 1]);
      match history[|history| - 1]
      case Notification(e) => rest + [e]
      case _ => rest
  }

  /** What one posting sends, given the notifications before it. */
  function Sent(before: seq<RpcEvent>, p: Posting): seq<Pump.Batch> {
    match p
    case Notification(e) =>
      [Plain("progress_signal", Some("codex_app_server_jsonrpc"))] + Batches(Next(After(before), e).1)
    case Binding => [Plain("binding_signal", None)]
    case Terminal => [Plain("terminal_signal", None)]
    case Other(kind, progressKind) => [Plain(kind, progressKind)]
  }

  function PostsFor(history: seq<Posting>): seq<Pump.Batch> {
    if history == [] then []
    else
      var n := |history| - 1;
      PostsFor(history[..n]) + Sent(Notifications(history[..n]), history[n])
  }

  predicate WellKinded(history: seq<Posting>) {
    forall p | p in history && p.Other? :: IsPreviewKind(p.kind, p.progressKind)
  }

  // ---------------------------------------------------------------------------------------------
  // What must arrive
  // ---------------------------------------------------------------------------------------------

  predicate IsOutputFor(e: RpcEvent, id: string) {
    IsToolOutput(e) && e.itemId.value == id
  }

  /** The concatenation of one tool's output chunks. */
  function OutputsOf(events: seq<RpcEvent>, id: string): string {
    if events == [] then ""
    else
      var e := events[|events| - 1];
      OutputsOf(events[..|events| - 1], id) + if IsOutputFor(e, id) then GetOr(e.delta, "") else ""
  }

  /** The text of a completed message: its deltas, or what the completion itself carries. */
  ghost function MessageText(before: seq<RpcEvent>, e: RpcEvent): Option<string>
    requires IsMessageDone(e)
  {
    if HasDelta(before, MessageId(e)) then Some(DeltasOf(before, MessageId(e)))
    else OrElse(e.item.text, e.item.contentText)
  }

  ghost function Final(before: seq<RpcEvent>, e: RpcEvent): seq<Pump.Batch> {
    if IsToolDone(e) then
      [ToolBatch(ToolId(e), GetOr(e.item.aggregatedOutput, OutputsOf(before, ToolId(e))), true)]
    else if IsMessageDone(e) && MessageText(before, e).Some? then
      [MessageBatch(MessageId(e), MessageText(before, e).value, true)]
    else []
  }

  ghost function FinalOf(before: seq<RpcEvent>, p: Posting): seq<Pump.Batch> {
    match p
    case Notification(e) => Final(before, e)
    case Binding => [Plain("binding_signal", None)]
    case Terminal => [Plain("terminal_signal", None)]
    case Other(_, _) => []
  }

  /** Everything that may not be lost, in order. */
  ghost function Finals(history: seq<Posting>): seq<Pump.Batch> {
    if history == [] then []
    else
      var n := |history| - 1;
      Finals(history[..n]) + FinalOf(Notifications(history[..n]), history[n])
  }

  // ---------------------------------------------------------------------------------------------
  // Proof
  // ---------------------------------------------------------------------------------------------

  lemma NextOutput(s: State, e: RpcEvent, id: string)
    ensures GetOr(Lookup(Next(s, e).0.toolOutput, id), "")
         == GetOr(Lookup(s.toolOutput, id), "") + if IsOutputFor(e, id) then GetOr(e.delta, "") else ""
  {
    assert IsToolOutput(e) ==> !IsDelta(e) && !IsToolStart(e) && e.itemId.Some?;
    var old' := GetOr(Lookup(s.toolOutput, id), "");
    assert old' + "" == old';
    hide IsDelta, IsToolStart, IsToolOutput, IsToolDone, IsMessageDone;
  }

  lemma {:induction false} OutputInvariant(events: seq<RpcEvent>, id: string)
    ensures GetOr(Lookup(After(events).toolOutput, id), "") == OutputsOf(events, id)
  {
    if events != [] {
      var n := |events| - 1;
      hide Next, IsOutputFor;
      OutputInvariant(events[..n], id);
      NextOutput(After(events[..n]), events[n], id);
    }
  }

  /** The command named by the latest start of a tool. */
  function StartedCommand(events: seq<RpcEvent>, id: string): Option<string> {
    if events == [] then None
    else
      var e := events[|events| - 1];
      if IsToolStart(e) && ToolId(e) == id then Some(GetOr(e.item.command, ""))
      else StartedCommand(events[..|events| - 1], id)
  }

  lemma NextCommand(s: State, e: RpcEvent, id: string)
    ensures Lookup(Next(s, e).0.toolCommand, id)
         == if IsToolStart(e) && ToolId(e) == id then Some(GetOr(e.item.command, "")) else Lookup(s.toolCommand, id)
  {
    assert IsToolStart(e) ==> !IsDelta(e);
    hide IsDelta, IsToolStart, IsToolOutput, IsToolDone, IsMessageDone, OrElse;
    assert Next(s, e).0.toolCommand
        == if IsToolStart(e) then s.toolCommand[ToolId(e) := GetOr(e.item.command, "")] else s.toolCommand by {
      hide GetOr, Lookup, ToolId;
    }
    hide Next, GetOr, ToolId;
  }

  lemma {:induction false} CommandInvariant(events: seq<RpcEvent>, id: string)
    ensures Lookup(After(events).toolCommand, id) == StartedCommand(events, id)
  {
    if events != [] {
      var n := |events| - 1;
      hide Next, IsToolStart, ToolId;
      CommandInvariant(events[..n], id);
      NextCommand(After(events[..n]), events[n], id);
    }
  }

  /** What a tool event shows, from the stream before it and its own fields. */
  function ToolShown(before: seq<RpcEvent>, e: RpcEvent, id: string): (string, string) {
    if IsToolStart(e) then (GetOr(e.item.command, ""), "")
    else if IsToolDone(e) then
      (GetOr(OrElse(e.item.command, StartedCommand(before, id)), ""),
       GetOr(e.item.aggregatedOutput, OutputsOf(before, id)))
    else (GetOr(StartedCommand(before, id), ""), OutputsOf(before, id) + GetOr(e.delta, ""))
  }

  /** For every stream, each tool event shows its item's command and all of its output. */
  lemma ToolEventsShowTheirItem(events: seq<RpcEvent>, i: nat)
    requires i < |events| && ToolAt(events, i).Some?
    ensures var out := ToolAt(events, i).value;
      && out.ToolItem?
      && (out.command, out.output) == ToolShown(events[..i], events[i], out.itemId)
      && (out.completed <==> IsToolDone(events[i]))
  {
    var out := ToolAt(events, i).value;
    ToolEventsAreTagged(events, i);
    CommandInvariant(events[..i], out.itemId);
    OutputInvariant(events[..i], out.itemId);
    ToolTags(events[i]);
    hide After, StartedCommand, OutputsOf, IsToolStart, IsToolDone, IsDelta, IsToolOutput, IsMessageDone;
  }

  lemma CriticalOne(b: Pump.Batch)
    requires |b| == 1
    ensures Pump.EventsAreCritical(b) <==> Pump.EventIsCritical(b[0])
  {
    assert b[0] in b;
  }

  lemma LaneOfOne(b: Pump.Batch)
    requires |b| == 1
    ensures Pump.LaneOf([b], true) == if Pump.EventIsCritical(b[0]) then [b] else []
  {
    CriticalOne(b);
    Pump.LaneOne(b);
  }

  lemma {:induction false} LaneAppend(a: seq<Pump.Batch>, b: seq<Pump.Batch>)
    ensures Pump.LaneOf(a + b, true) == Pump.LaneOf(a, true) + Pump.LaneOf(b, true)
  {
    hide Pump.EventsAreCritical;
    if b == [] {
      assert a + b == a;
    } else {
      var n := |b| - 1;
      LaneAppend(a, b[..n]);
      assert a + b == (a + b[..n]) + [b[n]];
      assert b == b[..n] + [b[n]];
      Pump.LaneSnoc(a + b[..n], b[n], true);
      Pump.LaneSnoc(b[..n], b[n], true);
    }
  }

  lemma LaneOfProgress(rest: seq<Pump.Batch>)
    ensures Pump.LaneOf([Plain("progress_signal", Some("codex_app_server_jsonrpc"))] + rest, true)
         == Pump.LaneOf(rest, true)
  {
    var b := Plain("progress_signal", Some("codex_app_server_jsonrpc"));
    LaneOfOne(b);
    LaneAppend([b], rest);
  }

  /** What this projected item adds to the critical lane. */
  function Contributes(p: Projected): seq<Pump.Batch> {
    if Pump.EventIsCritical(BatchFor(p)[0]) then [BatchFor(p)] else []
  }

  function Contributions(out: seq<Projected>): seq<Pump.Batch> {
    (if |out| > 0 then Contributes(out[0]) else []) + (if |out| > 1 then Contributes(out[1]) else [])
  }

  lemma LaneOfBatches(out: seq<Projected>)
    requires |out| <= 2
    ensures Pump.LaneOf(Batches(out), true) == Contributions(out)
  {
    assert forall p :: |BatchFor(p)| == 1;
    hide Pump.LaneOf, BatchFor, Pump.EventIsCritical;
    Pump.LaneOne([]);
    if out == [] {
      assert Batches(out) == [];
    } else if |out| == 1 {
      assert Batches(out) == [BatchFor(out[0])];
      LaneOfOne(BatchFor(out[0]));
    } else {
      assert Batches(out) == [BatchFor(out[0])] + [BatchFor(out[1])];
      LaneAppend([BatchFor(out[0])], [BatchFor(out[1])]);
      LaneOfOne(BatchFor(out[0]));
      LaneOfOne(BatchFor(out[1]));
    }
  }

  lemma ContributesExactly(p: Projected)
    ensures p.Phase? ==> Contributes(p) == []
    ensures p.AssistantItem? ==>
              Contributes(p) == if p.completed then [MessageBatch(p.itemId, p.text, true)] else []
    ensures p.ToolItem? ==>
              Contributes(p) == if p.completed then [ToolBatch(p.itemId, p.output, true)] else []
  {
  }

  lemma NextContributes(s: State, e: RpcEvent)
    ensures |Next(s, e).1| <= 2 && Contributions(Next(s, e).1) == Completions(s, e)
  {
    ToolTags(e);
    assert IsMessageDone(e) ==> !IsDelta(e) && !IsToolStart(e) && !IsToolOutput(e);
    hide Contributes, MessageBatch, ToolBatch;
    hide IsDelta, IsToolStart, IsToolOutput, IsToolDone, IsMessageDone, Lookup, GetOr, OrElse;
    var out := Next(s, e).1;
    if |out| > 0 {
      ContributesExactly(out[0]);
      assert Contributes(out[0]) + [] == Contributes(out[0]);
    }
    if |out| > 1 {
      ContributesExactly(out[1]);
    }
  }

  /** Of what an event produces, exactly the completions are critical. */
  lemma LaneOfProjected(s: State, e: RpcEvent)
    ensures Pump.LaneOf(Batches(Next(s, e).1), true) == Completions(s, e)
  {
    NextContributes(s, e);
    hide Pump.LaneOf, Batches, Next, Completions, Contributions;
    LaneOfBatches(Next(s, e).1);
  }

  function Completions(s: State, e: RpcEvent): seq<Pump.Batch> {
    if IsToolDone(e) then
      [ToolBatch(ToolId(e), GetOr(OrElse(e.item.aggregatedOutput, Lookup(s.toolOutput, ToolId(e))), ""), true)]
    else if IsMessageDone(e) then
      var text := OrElse(Lookup(s.itemText, MessageId(e)), OrElse(e.item.text, e.item.contentText));
      if text.Some? then [MessageBatch(MessageId(e), text.value, true)] else []
    else []
  }

  lemma CompletionsAreFinal(before: seq<RpcEvent>, e: RpcEvent)
    ensures Completions(After(before), e) == Final(before, e)
  {
    hide HasDelta, DeltasOf, OutputsOf, After;
    if IsToolDone(e) {
      OutputInvariant(before, ToolId(e));
    } else if IsMessageDone(e) {
      TextInvariant(before, MessageId(e));
    }
  }

  lemma LaneOfSent(before: seq<RpcEvent>, p: Posting)
    requires p.Other? ==> IsPreviewKind(p.kind, p.progressKind)
    ensures Pump.LaneOf(Sent(before, p), true) == FinalOf(before, p)
  {
    hide After, Next, Pump.LaneOf, Completions, Final;
    match p
    case Notification(e) =>
      LaneOfProgress(Batches(Next(After(before), e).1));
      LaneOfProjected(After(before), e);
      CompletionsAreFinal(before, e);
    case Binding => LaneOfOne(Plain("binding_signal", None));
    case Terminal => LaneOfOne(Plain("terminal_signal", None));
    case Other(kind, progressKind) => LaneOfOne(Plain(kind, progressKind));
  }

  /** The critical batches of a turn are its final ones. */
  lemma {:induction false} CriticalPostsAreFinal(history: seq<Posting>)
    requires WellKinded(history)
    ensures Pump.LaneOf(PostsFor(history), true) == Finals(history)
  {
    hide Sent, FinalOf, Pump.LaneOf;
    if history == [] {
      Pump.LaneOne([]);
    } else {
      var n := |history| - 1;
      var before := Notifications(history[..n]);
      CriticalPostsAreFinal(history[..n]);
      LaneOfSent(before, history[n]);
      LaneAppend(PostsFor(history[..n]), Sent(before, history[n]));
    }
  }

  lemma LanePrefix(a: seq<Pump.Batch>, b: seq<Pump.Batch>)
    requires a <= b
    ensures Pump.LaneOf(a, true) <= Pump.LaneOf(b, true)
  {
    LaneAppend(a, b[|a|..]);
    assert b == a + b[|a|..];
  }

  /** What the pump took from the critical lane, what waits in it, and what is being sent to it. */
  function Carried(s: Pump.Sys): seq<Pump.Batch> {
    Pump.LaneOf(s.taken, true) + s.critical + Pump.LaneOf(Pump.Posters(s.poster), true)
  }

  /**
   At every moment of every turn, for every interleaving with the pump and every pattern of dropped
   previews: the critical lane has carried the turn's final batches so far, in order, and all of them
   once everything was posted. When the pump has exited it took them.
   */
  lemma FinalsReachThePump(history: seq<Posting>, actions: seq<Pump.Action>)
    requires WellKinded(history) && Pump.Run(actions).posted <= PostsFor(history)
    ensures var s := Pump.Run(actions);
      && (!s.pump.Aborted? ==> Carried(s) <= Finals(history))
      && (s.pump.Exited? ==> Carried(s) == Pump.LaneOf(s.taken, true))
      && (s.posted == PostsFor(history) && !s.pump.Aborted? ==> Carried(s) == Finals(history))
  {
    CriticalPostsAreFinal(history);
    LanePrefix(Pump.Run(actions).posted, PostsFor(history));
    Pump.CriticalBatchesArrive(actions);
    hide Pump.Run, PostsFor, Finals, Pump.LaneOf;
  }

  lemma {:induction false} FinalIsAmongFinals(history: seq<Posting>, i: nat)
    requires i < |history|
    ensures forall b | b in FinalOf(Notifications(history[..i]), history[i]) :: b in Finals(history)
  {
    hide FinalOf;
    var n := |history| - 1;
    if i < n {
      FinalIsAmongFinals(history[..n], i);
      assert history[..n][..i] == history[..i];
    }
  }

  /** Final batches of a posting that was posted in full are carried. */
  lemma PostedFinalsAreCarried(history: seq<Posting>, actions: seq<Pump.Action>, i: nat, b: Pump.Batch)
    requires WellKinded(history) && i < |history|
    requires PostsFor(history[..i + 1]) <= Pump.Run(actions).posted
    requires b in FinalOf(Notifications(history[..i]), history[i])
    ensures var s := Pump.Run(actions);
      && (!s.pump.Aborted? ==> b in s.taken || b in s.critical || b in Pump.Posters(s.poster))
      && (s.pump.Exited? ==> b in s.taken)
  {
    var part := history[..i + 1];
    var s := Pump.Run(actions);
    assert part[..i] == history[..i] && part[i] == history[i];
    FinalIsAmongFinals(part, i);
    CriticalPostsAreFinal(part);
    LanePrefix(PostsFor(part), s.posted);
    Pump.CriticalBatchesArrive(actions);
    hide Pump.Run, PostsFor, Finals, FinalOf, Notifications, Pump.LaneOf;
    assert b in Pump.LaneOf(s.posted, true);
    LaneIsPart(s.taken);
    LaneIsPart(Pump.Posters(s.poster));
  }

  /** The event of a completed message, with every delta before it. */
  function CompletedText(history: seq<Posting>, i: nat): Pump.Batch
    requires i < |history| && history[i].Notification? && IsMessageDone(history[i].event)
  {
    var id := MessageId(history[i].event);
    MessageBatch(id, DeltasOf(Notifications(history[..i]), id), true)
  }

  /**
   Whatever previews were dropped, a completed message is carried to the pump with every one of its
   deltas as soon as its notification was posted.
   */
  lemma DroppedPreviewsNeverLoseText(history: seq<Posting>, actions: seq<Pump.Action>, i: nat)
    requires WellKinded(history) && i < |history|
    requires PostsFor(history[..i + 1]) <= Pump.Run(actions).posted
    requires history[i].Notification? && IsMessageDone(history[i].event)
    requires HasDelta(Notifications(history[..i]), MessageId(history[i].event))
    ensures var s := Pump.Run(actions);
      var b := CompletedText(history, i);
      && (!s.pump.Aborted? ==> b in s.taken || b in s.critical || b in Pump.Posters(s.poster))
      && (s.pump.Exited? ==> b in s.taken)
  {
    hide HasDelta, DeltasOf, Notifications, Pump.Run, PostsFor;
    assert CompletedText(history, i) in FinalOf(Notifications(history[..i]), history[i]);
    hide FinalOf, CompletedText;
    PostedFinalsAreCarried(history, actions, i, CompletedText(history, i));
  }

  lemma {:induction false} LaneIsPart(batches: seq<Pump.Batch>)
    ensures forall b | b in Pump.LaneOf(batches, true) :: b in batches
  {
    hide Pump.EventsAreCritical;
    if batches != [] {
      LaneIsPart(batches[..|batches| - 1]);
    }
  }

  // ---------------------------------------------------------------------------------------------
  // Delivery
  // ---------------------------------------------------------------------------------------------

  /** The event is in a batch that was delivered, or in one that was given up as a whole. */
  ghost predicate IsSettled(s: Pump.Sys, event: Pump.RuntimeEvent) {
    exists o :: o in s.outcomes && event in o.batch
  }

  lemma {:induction false} OutcomeOf(outcomes: seq<Pump.Outcome>, event: Pump.RuntimeEvent)
    requires event in Pump.OutcomeEvents(outcomes)
    ensures exists o :: o in outcomes && event in o.batch
  {
    var n := |outcomes| - 1;
    if event in outcomes[n].batch {
      assert outcomes[n] in outcomes;
    } else {
      OutcomeOf(outcomes[..n], event);
    }
  }

  lemma {:induction false} FlattenHas(batches: seq<Pump.Batch>, b: Pump.Batch)
    requires b in batches
    ensures forall event | event in b :: event in Pump.Flatten(batches)
  {
    var n := |batches| - 1;
    if batches[n] != b {
      FlattenHas(batches[..n], b);
    }
  }

  /** Every event the pump took is settled or in the batch in flight; at exit none is in flight. */
  lemma TakenEventsAreSettled(actions: seq<Pump.Action>, b: Pump.Batch, event: Pump.RuntimeEvent)
    requires b in Pump.Run(actions).taken && event in b
    ensures var s := Pump.Run(actions);
      IsSettled(s, event) || (event in Pump.InFlight(s.pump) && !s.pump.Exited?)
  {
    Pump.DeliveriesFollowTaking(actions);
    var s := Pump.Run(actions);
    hide Pump.Run, Pump.Flatten, Pump.OutcomeEvents;
    FlattenHas(s.taken, b);
    if event in Pump.OutcomeEvents(s.outcomes) {
      OutcomeOf(s.outcomes, event);
    }
  }

  /**
   At exit a completed message's text, all of it, is in a batch that the server acknowledged or that
   was given up after its attempts. It is never dropped silently or in part.
   */
  lemma CompletedTextIsSettled(history: seq<Posting>, actions: seq<Pump.Action>, i: nat)
    requires WellKinded(history) && i < |history|
    requires PostsFor(history[..i + 1]) <= Pump.Run(actions).posted && Pump.Run(actions).pump.Exited?
    requires history[i].Notification? && IsMessageDone(history[i].event)
    requires HasDelta(Notifications(history[..i]), MessageId(history[i].event))
    ensures forall event | event in CompletedText(history, i) :: IsSettled(Pump.Run(actions), event)
  {
    DroppedPreviewsNeverLoseText(history, actions, i);
    hide HasDelta, DeltasOf, Notifications, Pump.Run, PostsFor, CompletedText, IsSettled;
    forall event | event in CompletedText(history, i)
      ensures IsSettled(Pump.Run(actions), event)
    {
      TakenEventsAreSettled(actions, CompletedText(history, i), event);
    }
  }

  /** The events of the batches that the server acknowledged. */
  function Delivered(outcomes: seq<Pump.Outcome>): Pump.Batch {
    if outcomes == [] then []
    else
      var last := outcomes[|outcomes| - 1];
      Delivered(outcomes[..|outcomes| - 1]) + if last.delivered then last.batch else []
  }

  lemma {:induction false} AllDelivered(outcomes: seq<Pump.Outcome>)
    requires forall o | o in outcomes :: o.delivered
    ensures Delivered(outcomes) == Pump.OutcomeEvents(outcomes)
  {
    if outcomes != [] {
      AllDelivered(outcomes[..|outcomes| - 1]);
    }
  }

  /**
   If every batch was acknowledged, then after a whole turn the server has got exactly the events
   taken, in order, and the final batches among them are the turn's, in order.
   */
  lemma AcknowledgedTurnDeliversFinals(history: seq<Posting>, actions: seq<Pump.Action>)
    requires WellKinded(history) && Pump.Run(actions).posted == PostsFor(history)
    requires Pump.Run(actions).pump.Exited?
    requires forall o | o in Pump.Run(actions).outcomes :: o.delivered
    ensures var s := Pump.Run(actions);
      Delivered(s.outcomes) == Pump.Flatten(s.taken) && Pump.LaneOf(s.taken, true) == Finals(history)
  {
    FinalsReachThePump(history, actions);
    Pump.DeliveriesFollowTaking(actions);
    AllDelivered(Pump.Run(actions).outcomes);
    hide Pump.Run, PostsFor, Finals, Pump.LaneOf, Delivered, Pump.OutcomeEvents, Pump.Flatten;
  }
}
