/**
 The live projection without its state (engine/src/codex_exec.rs, `AppServerProjection`).

 The code keeps five maps and a counter. `Shown` is what a notification is worth given only the
 notifications before it; the main lemma says that the maps never make a difference. What a notification
 is about is stated on its own fields.
 */
module ShownEvents {
  import opened Wrappers
  import opened AppServerProjection
  import opened LiveText
  import Pump = EventPump

  // ---------------------------------------------------------------------------------------------
  // What the notifications before one amount to
  // ---------------------------------------------------------------------------------------------

  predicate IsMessage(item: Item) {
    item.kind == Some("agentMessage") || item.kind == Some("assistantMessage")
  }

  predicate IsCommand(item: Item) {
    item.kind == Some("commandExecution")
  }

  /** The text a completed message is shown with: its deltas if it had any, or its own. */
  ghost function TextOf(before: seq<RpcEvent>, id: string, item: Item): Option<string> {
    if HasDelta(before, id) then Some(DeltasOf(before, id)) else OrElse(item.text, item.contentText)
  }

  /** The item of which this notification shows text: one of its deltas, or its completion with some text. */
  ghost function MessageShown(before: seq<RpcEvent>, e: RpcEvent): Option<string> {
    if e.name == "item/agentMessage/delta" then if e.delta.Some? then e.itemId else None
    else if e.name == "item/completed" && IsMessage(e.item) then
      var id := OrElse(e.item.id, e.itemId);
      if id.Some? && TextOf(before, id.value, e.item).Some? then id else None
    else None
  }

  /** How many of these notifications show text, */
  ghost function Messages(events: seq<RpcEvent>): nat {
    if events == [] then 0
    else
      var n := |events| - 1;
      Messages(events[..n]) + if MessageShown(events[..n], events[n]).Some? then 1 else 0
  }

  /** and of this item. */
  ghost function MessagesOf(events: seq<RpcEvent>, id: string): nat {
    if events == [] then 0
    else
      var n := |events| - 1;
      MessagesOf(events[..n], id) + if MessageShown(events[..n], events[n]) == Some(id) then 1 else 0
  }

  /** The tool item a notification is about. */
  function ToolAbout(e: RpcEvent): Option<string> {
    if (e.name == "item/started" || e.name == "item/completed") && IsCommand(e.item) then
      Some(GetOr(e.item.id, "unknown-tool"))
    else if e.name == "item/commandExecution/outputDelta" then e.itemId
    else None
  }

  /** The number of the last event about a tool item: a start is number 1. */
  function LastToolNumber(events: seq<RpcEvent>, id: string): nat {
    if events == [] then 0
    else
      var e := events[|events| - 1];
      var before := LastToolNumber(events[..|events| - 1], id);
      if ToolAbout(e) != Some(id) then before else if e.name == "item/started" then 1 else before + 1
  }

  // ---------------------------------------------------------------------------------------------
  // What one notification shows
  // ---------------------------------------------------------------------------------------------

  ghost function ShownMessage(before: seq<RpcEvent>, id: string, delta: string, text: string, completed: bool): Projected {
    AssistantItem(id, MessagesOf(before, id) + 1, Messages(before) + 1, delta, text, completed)
  }

  ghost function ShownCompletion(before: seq<RpcEvent>, e: RpcEvent): seq<Projected> {
    if IsCommand(e.item) then
      var id := GetOr(e.item.id, "unknown-tool");
      [ToolItem(id, GetOr(OrElse(e.item.command, StartedCommand(before, id)), ""),
                GetOr(e.item.aggregatedOutput, OutputsOf(before, id)),
                GetOr(e.item.status, "completed"), LastToolNumber(before, id) + 1, true)]
    else if IsMessage(e.item) && OrElse(e.item.id, e.itemId).Some? then
      var id := OrElse(e.item.id, e.itemId).value;
      var text := TextOf(before, id, e.item);
      if text.Some? then [ShownMessage(before, id, "", text.value, true)] else []
    else []
  }

  ghost function Shown(before: seq<RpcEvent>, e: RpcEvent): seq<Projected> {
    match e.name
    case "item/agentMessage/delta" =>
      if e.itemId.None? || e.delta.None? then []
      else
        var id, delta := e.itemId.value, e.delta.value;
        [ShownMessage(before, id, delta, DeltasOf(before, id) + delta, false)]
    case "item/started" =>
      if !IsCommand(e.item) then []
      else
        var id, command := GetOr(e.item.id, "unknown-tool"), GetOr(e.item.command, "");
        [Phase("tool", Some(command)), ToolItem(id, command, "", "inProgress", 1, false)]
    case "item/commandExecution/outputDelta" =>
      if e.itemId.None? then []
      else
        var id := e.itemId.value;
        [ToolItem(id, GetOr(StartedCommand(before, id), ""), OutputsOf(before, id) + GetOr(e.delta, ""), "inProgress",
                  LastToolNumber(before, id) + 1, false)]
    case "item/completed" => ShownCompletion(before, e)
    case "turn/started" => [Phase("thinking", None)]
    case _ => []
  }

  // ---------------------------------------------------------------------------------------------
  // The maps hold what the stream says
  // ---------------------------------------------------------------------------------------------

  lemma LookupText(events: seq<RpcEvent>, id: string, item: Item)
    ensures GetOr(Lookup(After(events).itemText, id), "") == DeltasOf(events, id)
    ensures OrElse(Lookup(After(events).itemText, id), OrElse(item.text, item.contentText)) == TextOf(events, id, item)
  {
    TextInvariant(events, id);
    hide After, DeltasOf, HasDelta;
  }

  /** A message is counted exactly when its notification shows text. */
  lemma EmitsMessage(events: seq<RpcEvent>, e: RpcEvent)
    ensures var out := LastAssistant(Next(After(events), e).1);
      var id := MessageShown(events, e);
      && (out.Some? <==> id.Some?)
      && (out.Some? ==> out.value.AssistantItem? && out.value.itemId == id.value)
  {
    var s := After(events);
    NextByName(s, e);
    if e.name == "item/completed" {
      NextCompleted(s, e);
      if IsMessageDone(e) {
        LookupText(events, MessageId(e), e.item);
      }
    }
    hide Next, After, DeltasOf, HasDelta, TextOf, Lookup, StartedCommand;
  }

  lemma {:induction false} CountsMessages(events: seq<RpcEvent>, id: string)
    ensures After(events).transcriptSeq == Messages(events)
    ensures GetOr(Lookup(After(events).itemSeq, id), 0) == MessagesOf(events, id)
  {
    if events != [] {
      var n := |events| - 1;
      hide Next, LastAssistant, MessageShown, Lookup, GetOr;
      CountsMessages(events[..n], id);
      EmitsMessage(events[..n], events[n]);
      NextSeqs(After(events[..n]), events[n], id);
    } else {
      assert After(events) == START;
    }
  }

  lemma ToolAboutIsToolIdOf(e: RpcEvent)
    ensures ToolIdOf(e) == ToolAbout(e)
    ensures ToolIdOf(e).Some? ==> (IsToolStart(e) <==> e.name == "item/started")
  {
  }

  lemma {:induction false} NumbersTools(events: seq<RpcEvent>, id: string)
    ensures GetOr(Lookup(After(events).toolSeq, id), 0) == LastToolNumber(events, id)
  {
    if events != [] {
      var n := |events| - 1;
      hide Next, Lookup, GetOr, ToolIdOf, ToolAbout, IsToolStart;
      NumbersTools(events[..n], id);
      ToolAboutIsToolIdOf(events[n]);
      NextToolSeq(After(events[..n]), events[n], id);
    } else {
      assert After(events) == START;
    }
  }

  // ---------------------------------------------------------------------------------------------
  // Results
  // ---------------------------------------------------------------------------------------------

  lemma DeltaIsShown(before: seq<RpcEvent>, id: string, delta: string)
    ensures NextDelta(After(before), id, delta).1
         == [ShownMessage(before, id, delta, DeltasOf(before, id) + delta, false)]
  {
    LookupText(before, id, Item(None, None, None, None, None, None, None));
    CountsMessages(before, id);
    hide After, DeltasOf, TextOf, MessagesOf, Messages;
  }

  lemma OutputIsShown(before: seq<RpcEvent>, id: string, delta: string)
    ensures NextToolOutput(After(before), id, delta).1
         == [ToolItem(id, GetOr(StartedCommand(before, id), ""), OutputsOf(before, id) + delta, "inProgress",
                      LastToolNumber(before, id) + 1, false)]
  {
    OutputInvariant(before, id);
    CommandInvariant(before, id);
    NumbersTools(before, id);
    hide After, StartedCommand, OutputsOf, LastToolNumber, Lookup;
  }

  lemma CommandIsShown(before: seq<RpcEvent>, e: RpcEvent)
    requires e.name == "item/completed" && IsCommand(e.item)
    ensures NextToolDone(After(before), e).1 == ShownCompletion(before, e)
  {
    var id := ToolId(e);
    OutputInvariant(before, id);
    CommandInvariant(before, id);
    NumbersTools(before, id);
    hide After, StartedCommand, OutputsOf, LastToolNumber, TextOf, Lookup;
  }

  lemma MessageIsShown(before: seq<RpcEvent>, e: RpcEvent)
    requires e.name == "item/completed" && IsMessageDone(e)
    ensures NextMessageDone(After(before), e).1 == ShownCompletion(before, e)
  {
    LookupText(before, MessageId(e), e.item);
    CountsMessages(before, MessageId(e));
    hide After, TextOf, MessagesOf, Messages, Lookup;
  }

  lemma CompletionIsShown(before: seq<RpcEvent>, e: RpcEvent)
    requires e.name == "item/completed"
    ensures Next(After(before), e).1 == ShownCompletion(before, e)
  {
    NextCompleted(After(before), e);
    hide Next, After, NextToolDone, NextMessageDone, TextOf;
    if IsCommand(e.item) {
      CommandIsShown(before, e);
    } else if IsMessageDone(e) {
      MessageIsShown(before, e);
    }
  }

  /**
   For every stream of notifications and every one of them: the projection emits exactly what that
   notification shows after the ones before it, however items interleave, and nothing else.
   */
  lemma ProjectionIsStateless(events: seq<RpcEvent>, i: nat)
    requires i < |events|
    ensures EmittedAt(events, i) == Shown(events[..i], events[i])
  {
    var before, e := events[..i], events[i];
    NextByName(After(before), e);
    match e.name {
      case "item/agentMessage/delta" => DeltaIsShown(before, GetOr(e.itemId, ""), GetOr(e.delta, ""));
      case "item/commandExecution/outputDelta" => OutputIsShown(before, GetOr(e.itemId, ""), GetOr(e.delta, ""));
      case "item/completed" => CompletionIsShown(before, e);
      case _ =>
    }
    hide Next, After, StartedCommand, OutputsOf, LastToolNumber, DeltasOf, ShownMessage, ShownCompletion;
  }

  /** Every delta notification shows exactly one event, of its item and with its delta. */
  lemma EveryDeltaIsShown(events: seq<RpcEvent>, i: nat)
    requires i < |events| && events[i].name == "item/agentMessage/delta"
    requires events[i].itemId.Some? && events[i].delta.Some?
    ensures var id, out := events[i].itemId.value, EmittedAt(events, i);
      && |out| == 1 && out[0].AssistantItem? && out[0].itemId == id && !out[0].completed
      && out[0].delta == events[i].delta.value
      && out[0].text == DeltasOf(events[..i], id) + events[i].delta.value
      && out[0].seqNo == Messages(events[..i]) + 1 && out[0].itemSeq == MessagesOf(events[..i], id) + 1
  {
    ProjectionIsStateless(events, i);
    hide EmittedAt, DeltasOf, MessagesOf, Messages;
  }

  /** The `delta` field of the assistant event this notification emits for the item, if it does. */
  function DeltaField(events: seq<RpcEvent>, id: string, i: nat): string
    requires i < |events|
  {
    var out := AssistantAt(events, i);
    if out.Some? && out.value.AssistantItem? && out.value.itemId == id then out.value.delta else ""
  }

  function DeltaFields(events: seq<RpcEvent>, id: string, n: nat): string
    requires n <= |events|
  {
    if n == 0 then "" else DeltaFields(events, id, n - 1) + DeltaField(events, id, n - 1)
  }

  lemma DeltaFieldIsDelta(events: seq<RpcEvent>, id: string, i: nat)
    requires i < |events|
    ensures DeltaField(events, id, i) == if IsDeltaFor(events[i], id) then events[i].delta.value else ""
  {
    ProjectionIsStateless(events, i);
    hide EmittedAt, DeltasOf, MessagesOf, Messages, TextOf, StartedCommand, OutputsOf, LastToolNumber;
  }

  /** A reader of the events alone, adding up their `delta` fields, gets the item's text. */
  lemma {:induction false} DeltaFieldsAddUp(events: seq<RpcEvent>, id: string, n: nat)
    requires n <= |events|
    ensures DeltaFields(events, id, n) == DeltasOf(events[..n], id)
  {
    if n > 0 {
      hide DeltaField, IsDeltaFor;
      DeltaFieldsAddUp(events, id, n - 1);
      DeltaFieldIsDelta(events, id, n - 1);
      assert events[..n][..n - 1] == events[..n - 1] && events[..n][n - 1] == events[n - 1];
    }
  }

  // ---------------------------------------------------------------------------------------------
  // And posted
  // ---------------------------------------------------------------------------------------------

  /** This batch is one event with what the live view shows of this item. */
  predicate Carries(b: Pump.Batch, p: Projected) {
    && |b| == 1
    && match p
       case Phase(_, _) => b[0].kind == "phase_signal" && b[0].progressKind.None?
       case AssistantItem(id, _, _, _, text, completed) =>
         && b[0].kind == "progress_signal" && b[0].progressKind == Some("bridge_live_transcript_delta")
         && b[0].itemId == id && b[0].text == text && b[0].itemCompleted == Some(completed) && b[0].completed.None?
       case ToolItem(id, _, output, _, _, completed) =>
         && b[0].kind == "progress_signal" && b[0].progressKind == Some("console_live_tool_item")
         && b[0].itemId == id && b[0].text == output && b[0].completed == Some(completed) && b[0].itemCompleted.None?
  }

  /** A progress event, and one batch for each shown item in order. */
  ghost predicate ShowsInOrder(sent: seq<Pump.Batch>, shown: seq<Projected>) {
    && |sent| == 1 + |shown|
    && |sent[0]| == 1 && sent[0][0].progressKind == Some("codex_app_server_jsonrpc")
    && forall k | 0 <= k < |shown| :: Carries(sent[1 + k], shown[k])
  }

  lemma BatchCarries(p: Projected)
    ensures Carries(BatchFor(p), p)
  {
  }

  lemma BatchesShow(out: seq<Projected>)
    ensures ShowsInOrder([Plain("progress_signal", Some("codex_app_server_jsonrpc"))] + Batches(out), out)
  {
    forall k | 0 <= k < |out|
      ensures Carries(Batches(out)[k], out[k])
    {
      BatchCarries(out[k]);
    }
    hide Carries, BatchFor;
  }

  lemma EmittedIsShown(before: seq<RpcEvent>, e: RpcEvent)
    ensures Next(After(before), e).1 == Shown(before, e)
  {
    var events := before + [e];
    assert events[..|before|] == before;
    hide Next, After, Shown;
    ProjectionIsStateless(events, |before|);
  }

  lemma SentShows(before: seq<RpcEvent>, e: RpcEvent)
    ensures ShowsInOrder(Sent(before, Notification(e)), Shown(before, e))
  {
    hide Next, After, Shown, ShowsInOrder, Batches;
    EmittedIsShown(before, e);
    BatchesShow(Shown(before, e));
  }

  /**
   In every turn each notification posts its own progress event and then exactly what it shows, one batch
   for each shown item in order, previews and final ones alike.
   */
  lemma PostsShowEverything(history: seq<Posting>, j: nat) returns (sent: seq<Pump.Batch>)
    requires j < |history| && history[j].Notification?
    ensures PostsFor(history[..j + 1]) == PostsFor(history[..j]) + sent
    ensures ShowsInOrder(sent, Shown(Notifications(history[..j]), history[j].event))
  {
    var before := Notifications(history[..j]);
    sent := Sent(before, history[j]);
    assert history[..j + 1][..j] == history[..j] && history[..j + 1][j] == history[j];
    hide Sent, Shown, ShowsInOrder, Notifications;
    SentShows(before, history[j].event);
  }
}
