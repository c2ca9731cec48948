/**
 The live projection of one console turn (engine/src/codex_exec.rs, `AppServerProjection`).

 JSON is reduced to the fields the code looks at. `Next` is the step the class takes for one
 event; the lemmas compare it, over whole event streams, with definitions that look only at the
 stream.
 */
module AppServerProjection {
  import opened Wrappers
  import opened Decimals

  /** The `params.item` object; every field is absent when the object is. */
  datatype Item = Item(
    kind: Option<string>,
    id: Option<string>,
    command: Option<string>,
    aggregatedOutput: Option<string>,
    status: Option<string>,
    text: Option<string>,
    contentText: Option<string>)   // the first text part of `content`

  datatype RpcEvent = RpcEvent(
    name: string,                  // the JSON-RPC method, empty when absent
    itemId: Option<string>,
    delta: Option<string>,
    item: Item)

  datatype Projected =
    | Phase(phase: string, toolName: Option<string>)
    | AssistantItem(itemId: string, itemSeq: nat, seqNo: nat, delta: string, text: string, completed: bool)
    | ToolItem(itemId: string, command: string, output: string, status: string, seqNo: nat, completed: bool)

  datatype State = State(
    itemText: map<string, string>,
    itemSeq: map<string, nat>,
    toolCommand: map<string, string>,
    toolOutput: map<string, string>,
    toolSeq: map<string, nat>,
    transcriptSeq: nat)

  const START := State(map[], map[], map[], map[], map[], 0)

  function Lookup<T>(m: map<string, T>, key: string): Option<T> {
    if key in m then Some(m[key]) else None
  }

  // ---------------------------------------------------------------------------------------------
  // One event
  // ---------------------------------------------------------------------------------------------

  predicate IsDelta(e: RpcEvent) {
    e.name == "item/agentMessage/delta" && e.itemId.Some? && e.delta.Some?
  }

  predicate IsToolStart(e: RpcEvent) {
    e.name == "item/started" && e.item.kind == Some("commandExecution")
  }

  predicate IsToolOutput(e: RpcEvent) {
    e.name == "item/commandExecution/outputDelta" && e.itemId.Some?
  }

  predicate IsToolDone(e: RpcEvent) {
    e.name == "item/completed" && e.item.kind == Some("commandExecution")
  }

  predicate IsMessageDone(e: RpcEvent) {
    && e.name == "item/completed"
    && (e.item.kind == Some("agentMessage") || e.item.kind == Some("assistantMessage"))
    && (e.item.id.Some? || e.itemId.Some?)
  }

  function ToolId(e: RpcEvent): string {
    GetOr(e.item.id, "unknown-tool")
  }

  function MessageId(e: RpcEvent): string
    requires IsMessageDone(e)
  {
    if e.item.id.Some? then e.item.id.value else e.itemId.value
  }

  function NextDelta(s: State, id: string, delta: string): (State, seq<Projected>) {
    var text := GetOr(Lookup(s.itemText, id), "") + delta;
    var itemSeq := GetOr(Lookup(s.itemSeq, id), 0) + 1;
    (s.(itemText := s.itemText[id := text],
        itemSeq := s.itemSeq[id := itemSeq],
        transcriptSeq := s.transcriptSeq + 1),
     [AssistantItem(id, itemSeq, s.transcriptSeq + 1, delta, text, false)])
  }

  function NextToolStart(s: State, e: RpcEvent): (State, seq<Projected>) {
    var id := ToolId(e);
    var command := GetOr(e.item.command, "");
    (s.(toolCommand := s.toolCommand[id := command], toolSeq := s.toolSeq[id := 1]),
     [Phase("tool", Some(command)), ToolItem(id, command, "", "inProgress", 1, false)])
  }

  function NextToolOutput(s: State, id: string, delta: string): (State, seq<Projected>) {
    var output := GetOr(Lookup(s.toolOutput, id), "") + delta;
    var seqNo := GetOr(Lookup(s.toolSeq, id), 0) + 1;
    (s.(toolOutput := s.toolOutput[id := output], toolSeq := s.toolSeq[id := seqNo]),
     [ToolItem(id, GetOr(Lookup(s.toolCommand, id), ""), output, "inProgress", seqNo, false)])
  }

  function NextToolDone(s: State, e: RpcEvent): (State, seq<Projected>) {
    var id := ToolId(e);
    var command := GetOr(OrElse(e.item.command, Lookup(s.toolCommand, id)), "");
    var output := GetOr(OrElse(e.item.aggregatedOutput, Lookup(s.toolOutput, id)), "");
    var seqNo := GetOr(Lookup(s.toolSeq, id), 0) + 1;
    (s.(toolSeq := s.toolSeq[id := seqNo]),
     [ToolItem(id, command, output, GetOr(e.item.status, "completed"), seqNo, true)])
  }

  function NextMessageDone(s: State, e: RpcEvent): (State, seq<Projected>)
    requires IsMessageDone(e)
  {
    var id := MessageId(e);
    var text := OrElse(Lookup(s.itemText, id), OrElse(e.item.text, e.item.contentText));
    if text.None? then (s, [])
    else
      var itemSeq := GetOr(Lookup(s.itemSeq, id), 0) + 1;
      (s.(itemSeq := s.itemSeq[id := itemSeq], transcriptSeq := s.transcriptSeq + 1),
       [AssistantItem(id, itemSeq, s.transcriptSeq + 1, "", text.value, true)])
  }

  function Next(s: State, e: RpcEvent): (State, seq<Projected>) {
    if IsDelta(e) then NextDelta(s, e.itemId.value, e.delta.value)
    else if IsToolStart(e) then NextToolStart(s, e)
    else if IsToolOutput(e) then NextToolOutput(s, e.itemId.value, GetOr(e.delta, ""))
    else if IsToolDone(e) then NextToolDone(s, e)
    else if IsMessageDone(e) then NextMessageDone(s, e)
    else if e.name == "turn/started" then (s, [Phase("thinking", None)])
    else (s, [])
  }

  // ---------------------------------------------------------------------------------------------
  // Streams
  // ---------------------------------------------------------------------------------------------

  /** The state after a stream of events. */
  function After(events: seq<RpcEvent>): State {
    if events == [] then START
    else Next(After(events[..|events| - 1]), events[|events| - 1]).0
  }

  /** What the i-th event of the stream produces. */
  function EmittedAt(events: seq<RpcEvent>, i: nat): seq<Projected>
    requires i < |events|
  {
    Next(After(events[..i]), events[i]).1
  }

  function LastAssistant(out: seq<Projected>): Option<Projected> {
    if out != [] && out[|out| - 1].AssistantItem? then Some(out[|out| - 1]) else None
  }

  /** The i-th event's assistant item, if it produces one. */
  function AssistantAt(events: seq<RpcEvent>, i: nat): Option<Projected>
    requires i < |events|
  {
    LastAssistant(EmittedAt(events, i))
  }

  function ToolAt(events: seq<RpcEvent>, i: nat): Option<Projected>
    requires i < |events|
  {
    var out := EmittedAt(events, i);
    if out != [] && out[|out| - 1].ToolItem? then Some(out[|out| - 1]) else None
  }

  /** Number of assistant items among the first n events. */
  function Assistants(events: seq<RpcEvent>, n: nat): nat
    requires n <= |events|
  {
    if n == 0 then 0
    else Assistants(events, n - 1) + if AssistantAt(events, n - 1).Some? then 1 else 0
  }

  /** Number of assistant items for one item id among the first n events. */
  function AssistantsOf(events: seq<RpcEvent>, id: string, n: nat): nat
    requires n <= |events|
  {
    if n == 0 then 0
    else
      var out := AssistantAt(events, n - 1);
      AssistantsOf(events, id, n - 1) + if out.Some? && out.value.itemId == id then 1 else 0
  }

  predicate IsDeltaFor(e: RpcEvent, id: string) {
    IsDelta(e) && e.itemId.value == id
  }

  /** The concatenation of one item's deltas. */
  function DeltasOf(events: seq<RpcEvent>, id: string): string {
    if events == [] then ""
    else
      var e := events[|events| - 1];
      DeltasOf(events[..|events| - 1], id) + if IsDeltaFor(e, id) then e.delta.value else ""
  }

  ghost predicate HasDelta(events: seq<RpcEvent>, id: string) {
    exists i :: 0 <= i < |events| && IsDeltaFor(events[i], id)
  }

  lemma HasDeltaSnoc(events: seq<RpcEvent>, id: string)
    requires events != []
    ensures var n := |events| - 1;
            HasDelta(events, id) <==> HasDelta(events[..n], id) || IsDeltaFor(events[n], id)
  {
    var n := |events| - 1;
    assert forall i :: 0 <= i < n ==> events[..n][i] == events[i];
  }

  /** One event extends the text of the item it is a delta for, and no other. */
  lemma NextText(s: State, e: RpcEvent, id: string)
    ensures Lookup(Next(s, e).0.itemText, id)
         == if IsDeltaFor(e, id) then Some(GetOr(Lookup(s.itemText, id), "") + e.delta.value)
            else Lookup(s.itemText, id)
  {
    hide IsDelta, IsToolStart, IsToolOutput, IsToolDone, IsMessageDone;
    assert IsDelta(e) ==> e.itemId.Some? && e.delta.Some? by { DeltaHasFields(e); }
  }

  lemma DeltaHasFields(e: RpcEvent)
    ensures IsDelta(e) ==> e.itemId.Some? && e.delta.Some?
  {
  }

  /** The counters advance by the assistant item produced. */
  predicate SeqsAdvance(s: State, next: (State, seq<Projected>), id: string) {
    var item := LastAssistant(next.1);
    && next.0.transcriptSeq == s.transcriptSeq + (if item.Some? then 1 else 0)
    && GetOr(Lookup(next.0.itemSeq, id), 0)
       == GetOr(Lookup(s.itemSeq, id), 0) + (if item.Some? && item.value.itemId == id then 1 else 0)
  }

  lemma DeltaAdvances(s: State, item: string, delta: string, id: string)
    ensures SeqsAdvance(s, NextDelta(s, item, delta), id)
  {
  }

  lemma MessageAdvances(s: State, e: RpcEvent, id: string)
    requires IsMessageDone(e)
    ensures SeqsAdvance(s, NextMessageDone(s, e), id)
  {
    hide OrElse, MessageId;
  }

  lemma ToolsDoNotAdvance(s: State, e: RpcEvent, item: string, delta: string, id: string)
    ensures SeqsAdvance(s, NextToolOutput(s, item, delta), id)
    ensures SeqsAdvance(s, NextToolStart(s, e), id) && SeqsAdvance(s, NextToolDone(s, e), id)
    ensures SeqsAdvance(s, (s, []), id) && SeqsAdvance(s, (s, [Phase("thinking", None)]), id)
  {
    hide Lookup, GetOr, OrElse;
  }

  lemma NextSeqs(s: State, e: RpcEvent, id: string)
    ensures SeqsAdvance(s, Next(s, e), id)
  {
    assert IsDelta(e) ==> e.itemId.Some? && e.delta.Some?;
    assert IsToolOutput(e) ==> e.itemId.Some?;
    hide SeqsAdvance, IsDelta, IsToolStart, IsToolOutput, IsToolDone, IsMessageDone;
    hide NextDelta, NextToolStart, NextToolOutput, NextToolDone, NextMessageDone;
    DeltaAdvances(s, GetOr(e.itemId, ""), GetOr(e.delta, ""), id);
    ToolsDoNotAdvance(s, e, GetOr(e.itemId, ""), GetOr(e.delta, ""), id);
    if IsMessageDone(e) {
      MessageAdvances(s, e, id);
    }
  }

  /** The text map holds exactly the items that had deltas, each with its deltas concatenated. */
  lemma {:induction false} TextInvariant(events: seq<RpcEvent>, id: string)
    ensures Lookup(After(events).itemText, id)
         == if HasDelta(events, id) then Some(DeltasOf(events, id)) else None
    ensures !HasDelta(events, id) ==> DeltasOf(events, id) == ""
  {
    if events != [] {
      var n := |events| - 1;
      hide Next, IsDeltaFor, HasDelta;
      TextInvariant(events[..n], id);
      HasDeltaSnoc(events, id);
      NextText(After(events[..n]), events[n], id);
      var before := DeltasOf(events[..n], id);
      assert before + "" == before;
    }
  }

  /** Prefixes of a prefix are prefixes. */
  lemma PrefixOf<T>(s: seq<T>, i: nat, n: nat)
    requires i <= n <= |s|
    ensures s[..n][..i] == s[..i]
  {
  }

  lemma {:induction false} AssistantsPrefix(events: seq<RpcEvent>, n: nat, m: nat, id: string)
    requires m <= n <= |events|
    ensures Assistants(events[..n], m) == Assistants(events, m)
    ensures AssistantsOf(events[..n], id, m) == AssistantsOf(events, id, m)
  {
    hide After, Next, LastAssistant;
    if m > 0 {
      AssistantsPrefix(events, n, m - 1, id);
      PrefixOf(events, m - 1, n);
    }
  }

  /** The counters count what was produced. */
  lemma {:induction false} SeqInvariant(events: seq<RpcEvent>, id: string)
    ensures After(events).transcriptSeq == Assistants(events, |events|)
    ensures GetOr(Lookup(After(events).itemSeq, id), 0) == AssistantsOf(events, id, |events|)
  {
    if events != [] {
      var n := |events| - 1;
      hide Next, LastAssistant;
      SeqInvariant(events[..n], id);
      AssistantsPrefix(events, n, n, id);
      NextSeqs(After(events[..n]), events[n], id);
    }
  }

  // ---------------------------------------------------------------------------------------------
  // Results
  // ---------------------------------------------------------------------------------------------

  /**
   Over every interleaving of items, an assistant event carries the number it has among all
   assistant events, the number it has among its item's, and the concatenation of its item's deltas
   up to and including itself.
   */
  lemma AssistantEventsAreNumbered(events: seq<RpcEvent>, i: nat)
    requires i < |events| && AssistantAt(events, i).Some?
    ensures var out := AssistantAt(events, i).value;
            && out.AssistantItem?
            && out.seqNo == Assistants(events, i) + 1
            && out.itemSeq == AssistantsOf(events, out.itemId, i) + 1
            && (!out.completed ==> IsDeltaFor(events[i], out.itemId) && out.text == DeltasOf(events[..i + 1], out.itemId))
            && (out.completed && HasDelta(events[..i], out.itemId) ==> out.text == DeltasOf(events[..i], out.itemId))
  {
    hide IsToolStart, IsToolOutput, IsToolDone, IsMessageDone, DeltasOf, HasDelta, After, Assistants, AssistantsOf;
    var out := AssistantAt(events, i).value;
    EventIsNumbered(After(events[..i]), events[i]);
    hide Next, IsDelta;
    DeltasSnoc(events, i, out.itemId);
    SeqInvariant(events[..i], out.itemId);
    AssistantsPrefix(events, i, i, out.itemId);
    TextInvariant(events[..i], out.itemId);
  }

  /** What one event's assistant item says about the state before it. */
  lemma EventIsNumbered(s: State, e: RpcEvent)
    requires LastAssistant(Next(s, e).1).Some?
    ensures var out := LastAssistant(Next(s, e).1).value;
            && out.AssistantItem?
            && out.seqNo == s.transcriptSeq + 1
            && out.itemSeq == GetOr(Lookup(s.itemSeq, out.itemId), 0) + 1
            && (!out.completed ==>
                  && IsDeltaFor(e, out.itemId)
                  && out.text == GetOr(Lookup(s.itemText, out.itemId), "") + e.delta.value)
            && (out.completed && out.itemId in s.itemText ==> out.text == s.itemText[out.itemId])
  {
    hide IsToolStart, IsToolOutput, IsToolDone, IsMessageDone;
    assert IsDelta(e) ==> e.itemId.Some? && e.delta.Some? by { DeltaHasFields(e); }
    hide IsDelta;
  }

  lemma DeltasSnoc(events: seq<RpcEvent>, i: nat, id: string)
    requires i < |events|
    ensures DeltasOf(events[..i + 1], id)
         == DeltasOf(events[..i], id) + if IsDeltaFor(events[i], id) then events[i].delta.value else ""
  {
    hide IsDelta;
    assert events[..i + 1][..i] == events[..i];
  }

  /** A completed message whose item had deltas always produces an event with all of them. */
  lemma CompletedMessageCarriesAllDeltas(events: seq<RpcEvent>, i: nat)
    requires i < |events| && IsMessageDone(events[i]) && HasDelta(events[..i], MessageId(events[i]))
    ensures var id := MessageId(events[i]);
            && AssistantAt(events, i).Some?
            && AssistantAt(events, i).value.completed
            && AssistantAt(events, i).value.itemId == id
            && AssistantAt(events, i).value.text == DeltasOf(events[..i], id)
  {
    hide HasDelta, DeltasOf, After;
    TextInvariant(events[..i], MessageId(events[i]));
  }

  lemma {:induction false} AssistantsOfGrows(events: seq<RpcEvent>, id: string, m: nat, n: nat)
    requires m <= n <= |events|
    ensures AssistantsOf(events, id, m) <= AssistantsOf(events, id, n)
    decreases n
  {
    hide AssistantAt;
    if m < n {
      AssistantsOfGrows(events, id, m, n - 1);
    }
  }

  // ---------------------------------------------------------------------------------------------
  // Dedupe keys
  // ---------------------------------------------------------------------------------------------

  /** `console:live:{run}:{item}:{item_seq}` */
  function LiveKey(run: string, item: string, itemSeq: nat): string {
    "console:live:" + run + ":" + item + ":" + Decimal(itemSeq)
  }

  /** The text before the last colon. */
  lemma SplitAtLastColon(a: string, b: string, c: string, d: string)
    requires ':' !in b && ':' !in d
    requires a + ":" + b == c + ":" + d
    ensures a == c && b == d
  {
    var whole := a + ":" + b;
    assert whole == c + ":" + d;
    assert whole[|a|] == ':' && whole[|c|] == ':';
    assert forall i :: |a| < i < |whole| ==> whole[i] == b[i - |a| - 1];
    assert forall i :: |c| < i < |whole| ==> whole[i] == d[i - |c| - 1];
    assert |a| == |c|;
    assert a == whole[..|a|] && c == whole[..|c|];
    assert b == whole[|a| + 1..] && d == whole[|c| + 1..];
  }

  /** `console:tool:{run}:{item}:{seq}` */
  function ToolKey(run: string, item: string, seqNo: nat): string {
    "console:tool:" + run + ":" + item + ":" + Decimal(seqNo)
  }

  lemma NumberedInjective(prefix: string, item: string, m: nat, item': string, n: nat)
    requires prefix + item + ":" + Decimal(m) == prefix + item' + ":" + Decimal(n)
    ensures item == item' && m == n
  {
    DecimalHasNoColon(m);
    DecimalHasNoColon(n);
    SplitAtLastColon(prefix + item, Decimal(m), prefix + item', Decimal(n));
    assert item == (prefix + item)[|prefix|..] && item' == (prefix + item')[|prefix|..];
    DecimalInjective(m, n);
  }

  /** Within a run, keys are as different as what they name, whatever the item ids contain. */
  lemma LiveKeyInjective(run: string, item: string, m: nat, item': string, n: nat)
    requires LiveKey(run, item, m) == LiveKey(run, item', n)
    ensures item == item' && m == n
  {
    NumberedInjective("console:live:" + run + ":", item, m, item', n);
  }

  lemma ToolKeyInjective(run: string, item: string, m: nat, item': string, n: nat)
    requires ToolKey(run, item, m) == ToolKey(run, item', n)
    ensures item == item' && m == n
  {
    NumberedInjective("console:tool:" + run + ":", item, m, item', n);
  }

  /** No two assistant events of a run share a live-transcript dedupe key. */
  lemma LiveKeysNeverRepeat(events: seq<RpcEvent>, run: string, i: nat, j: nat)
    requires i < j < |events|
    requires AssistantAt(events, i).Some? && AssistantAt(events, j).Some?
    ensures var a, b := AssistantAt(events, i).value, AssistantAt(events, j).value;
            LiveKey(run, a.itemId, a.itemSeq) != LiveKey(run, b.itemId, b.itemSeq)
  {
    var a, b := AssistantAt(events, i).value, AssistantAt(events, j).value;
    AssistantEventsAreNumbered(events, i);
    AssistantEventsAreNumbered(events, j);
    if LiveKey(run, a.itemId, a.itemSeq) == LiveKey(run, b.itemId, b.itemSeq) {
      LiveKeyInjective(run, a.itemId, a.itemSeq, b.itemId, b.itemSeq);
      AssistantsOfGrows(events, a.itemId, i + 1, j);
      assert false;
    }
  }

  // ---------------------------------------------------------------------------------------------
  // Tool items
  // ---------------------------------------------------------------------------------------------

  /** The tool item an event is about. */
  function ToolIdOf(e: RpcEvent): Option<string> {
    if IsToolStart(e) || IsToolDone(e) then Some(ToolId(e))
    else if IsToolOutput(e) then e.itemId
    else None
  }

  function ToolsOf(events: seq<RpcEvent>, id: string, n: nat): nat
    requires n <= |events|
  {
    if n == 0 then 0
    else ToolsOf(events, id, n - 1) + if ToolIdOf(events[n - 1]) == Some(id) then 1 else 0
  }

  lemma ToolEventsAreTagged(events: seq<RpcEvent>, i: nat)
    requires i < |events|
    ensures ToolAt(events, i).Some? <==> ToolIdOf(events[i]).Some?
    ensures ToolAt(events, i).Some? ==>
              ToolAt(events, i).value.ToolItem? && ToolIdOf(events[i]) == Some(ToolAt(events, i).value.itemId)
  {
  }

  /** Two events about a tool item that are posted under the same key. */
  ghost predicate ToolKeyRepeats(events: seq<RpcEvent>, run: string, i: nat, j: nat) {
    && i < j < |events|
    && ToolAt(events, i).Some? && ToolAt(events, j).Some?
    && ToolKeyOf(run, ToolAt(events, i).value) == ToolKeyOf(run, ToolAt(events, j).value)
  }

  function ToolKeyOf(run: string, out: Projected): string
    requires out.ToolItem?
  {
    ToolKey(run, out.itemId, out.seqNo)
  }

  ghost predicate ToolNumberRepeats(events: seq<RpcEvent>, i: nat, j: nat) {
    && i < j < |events|
    && ToolAt(events, i).Some? && ToolAt(events, j).Some?
    && ToolAt(events, i).value.itemId == ToolAt(events, j).value.itemId
    && ToolAt(events, i).value.seqNo == ToolAt(events, j).value.seqNo
  }

  /** The key names item and number. */
  lemma ToolKeysAreNumbers(events: seq<RpcEvent>, run: string, i: nat, j: nat)
    ensures ToolKeyRepeats(events, run, i, j) <==> ToolNumberRepeats(events, i, j)
  {
    hide EmittedAt, ToolKey;
    if ToolKeyRepeats(events, run, i, j) {
      var a, b := ToolAt(events, i).value, ToolAt(events, j).value;
      ToolKeyInjective(run, a.itemId, a.seqNo, b.itemId, b.seqNo);
    }
  }

  /** A tool item is started after some event about it already came. */
  ghost predicate LateStart(events: seq<RpcEvent>, i: nat, j: nat) {
    && i < j < |events|
    && IsToolStart(events[j])
    && ToolIdOf(events[i]) == ToolIdOf(events[j])
  }

  lemma {:induction false} FirstToolEvent(events: seq<RpcEvent>, id: string, i: nat)
    requires i < |events| && ToolIdOf(events[i]) == Some(id)
    ensures exists k :: 0 <= k <= i && ToolIdOf(events[k]) == Some(id) && ToolsOf(events, id, k) == 0
  {
    if ToolsOf(events, id, i) == 0 {
    } else {
      EarlierToolEvent(events, id, i);
      var j: nat :| j < i && ToolIdOf(events[j]) == Some(id);
      FirstToolEvent(events, id, j);
    }
  }

  lemma {:induction false} EarlierToolEvent(events: seq<RpcEvent>, id: string, n: nat)
    requires n <= |events|
    ensures ToolsOf(events, id, n) > 0 ==> exists j: nat :: j < n && ToolIdOf(events[j]) == Some(id)
  {
    if n > 0 {
      EarlierToolEvent(events, id, n - 1);
    }
  }

  /** Before the first event about it, a tool item has no number. */
  lemma {:induction false} NoToolSeqYet(events: seq<RpcEvent>, id: string, n: nat)
    requires n <= |events| && ToolsOf(events, id, n) == 0
    ensures id !in After(events[..n]).toolSeq
  {
    if n > 0 {
      NoToolSeqYet(events, id, n - 1);
      PrefixOf(events, n - 1, n);
      assert events[..n][n - 1] == events[n - 1];
    }
  }

  lemma NextToolSeq(s: State, e: RpcEvent, id: string)
    ensures GetOr(Lookup(Next(s, e).0.toolSeq, id), 0)
         == if ToolIdOf(e) != Some(id) then GetOr(Lookup(s.toolSeq, id), 0)
            else if IsToolStart(e) then 1
            else GetOr(Lookup(s.toolSeq, id), 0) + 1
  {
    ToolTags(e);
    hide IsDelta, IsToolStart, IsToolOutput, IsToolDone, IsMessageDone;
  }

  /** The kinds of event exclude one another. */
  lemma ToolTags(e: RpcEvent)
    ensures IsDelta(e) ==> !IsToolStart(e) && !IsToolOutput(e) && !IsToolDone(e)
    ensures IsToolStart(e) ==> !IsToolOutput(e) && !IsToolDone(e)
    ensures IsToolOutput(e) ==> !IsToolDone(e) && e.itemId.Some?
  {
  }

  /** As long as no start comes late, a tool item's number counts the events about it. */
  lemma {:induction false} ToolSeqCounts(events: seq<RpcEvent>, id: string, n: nat)
    requires n <= |events|
    requires forall i: nat, j: nat :: j < n ==> !LateStart(events, i, j)
    ensures GetOr(Lookup(After(events[..n]).toolSeq, id), 0) == ToolsOf(events, id, n)
  {
    if n > 0 {
      var e := events[n - 1];
      var before := After(events[..n - 1]);
      AfterOne(events, n - 1);
      hide Next, ToolIdOf, IsToolStart, After, LateStart;
      ToolSeqCounts(events, id, n - 1);
      NextToolSeq(before, e, id);
      if IsToolStart(e) && ToolIdOf(e) == Some(id) {
        StartComesFirst(events, n - 1, id);
      }
    }
  }

  lemma AfterOne(events: seq<RpcEvent>, i: nat)
    requires i < |events|
    ensures After(events[..i + 1]) == Next(After(events[..i]), events[i]).0
  {
    hide Next;
    PrefixOf(events, i, i + 1);
  }

  lemma StartComesFirst(events: seq<RpcEvent>, j: nat, id: string)
    requires j < |events| && IsToolStart(events[j]) && ToolIdOf(events[j]) == Some(id)
    requires forall i: nat :: !LateStart(events, i, j)
    ensures ToolsOf(events, id, j) == 0
  {
    hide IsToolStart, ToolIdOf, ToolsOf;
    EarlierToolEvent(events, id, j);
    assert forall i: nat | i < j :: ToolIdOf(events[i]) == Some(id) ==> LateStart(events, i, j);
  }

  lemma {:induction false} ToolsOfGrows(events: seq<RpcEvent>, id: string, m: nat, n: nat)
    requires m <= n <= |events|
    ensures ToolsOf(events, id, m) <= ToolsOf(events, id, n)
    decreases n
  {
    if m < n {
      ToolsOfGrows(events, id, m, n - 1);
    }
  }

  lemma LateStartRepeats(events: seq<RpcEvent>, i: nat, j: nat)
    requires LateStart(events, i, j)
    ensures exists k: nat :: ToolNumberRepeats(events, k, j)
  {
    var id := ToolId(events[j]);
    hide After, Next;
    FirstToolEvent(events, id, i);
    var k: nat :| k <= i && ToolIdOf(events[k]) == Some(id) && ToolsOf(events, id, k) == 0;
    NoToolSeqYet(events, id, k);
    ToolNumber(events, k);
    ToolNumber(events, j);
    hide IsToolStart, IsToolDone, IsToolOutput, ToolAt;
    assert ToolNumberRepeats(events, k, j);
  }

  /** The number a tool event carries. */
  lemma ToolNumber(events: seq<RpcEvent>, i: nat)
    requires i < |events| && ToolIdOf(events[i]).Some?
    ensures ToolAt(events, i).Some? && ToolAt(events, i).value.ToolItem?
    ensures var out, s := ToolAt(events, i).value, After(events[..i]);
            && Some(out.itemId) == ToolIdOf(events[i])
            && out.seqNo == if IsToolStart(events[i]) then 1 else GetOr(Lookup(s.toolSeq, out.itemId), 0) + 1
  {
    var e := events[i];
    ToolTags(e);
    hide IsDelta, IsToolStart, IsToolOutput, IsToolDone, IsMessageDone, After;
  }

  lemma NoLateStartNoRepeat(events: seq<RpcEvent>, i: nat, j: nat)
    requires forall i: nat, j: nat :: !LateStart(events, i, j)
    ensures !ToolNumberRepeats(events, i, j)
  {
    if i < j < |events| && ToolAt(events, i).Some? && ToolAt(events, j).Some? {
      ToolEventsAreTagged(events, i);
      ToolEventsAreTagged(events, j);
      var id := ToolAt(events, j).value.itemId;
      NumberCounts(events, i);
      NumberCounts(events, j);
      hide After, Next, LateStart, ToolAt;
      if ToolAt(events, i).value.itemId == id {
        ToolsOfGrows(events, id, i + 1, j);
      }
    }
  }

  lemma NumberCounts(events: seq<RpcEvent>, i: nat)
    requires i < |events| && ToolIdOf(events[i]).Some?
    requires forall i: nat, j: nat :: !LateStart(events, i, j)
    ensures ToolAt(events, i).Some? && ToolAt(events, i).value.ToolItem?
    ensures ToolAt(events, i).value.seqNo == ToolsOf(events, ToolIdOf(events[i]).value, i) + 1
  {
    var id := ToolIdOf(events[i]).value;
    hide After, Next;
    ToolNumber(events, i);
    ToolSeqCounts(events, id, i);
    EarlierToolEvent(events, id, i);
    assert forall k: nat | k < i :: IsToolStart(events[i]) && ToolIdOf(events[k]) == ToolIdOf(events[i]) ==>
             LateStart(events, k, i);
  }

  /**
   A tool item's key repeats in a run exactly when the item is started after an earlier event about
   it: a start resets the number to 1, which the first event about the item already used.
   */
  lemma ToolKeysRepeatExactly(events: seq<RpcEvent>, run: string)
    ensures (exists i: nat, j: nat :: ToolKeyRepeats(events, run, i, j))
       <==> (exists i: nat, j: nat :: LateStart(events, i, j))
  {
    hide LateStart, ToolNumberRepeats, ToolKeyRepeats;
    if i: nat, j: nat :| LateStart(events, i, j) {
      LateStartRepeats(events, i, j);
      var k: nat :| ToolNumberRepeats(events, k, j);
      ToolKeysAreNumbers(events, run, k, j);
    } else if i: nat, j: nat :| ToolKeyRepeats(events, run, i, j) {
      ToolKeysAreNumbers(events, run, i, j);
      NoLateStartNoRepeat(events, i, j);
      assert false;
    }
  }

  // ---------------------------------------------------------------------------------------------
  // The code
  // ---------------------------------------------------------------------------------------------

  predicate IsIgnored(name: string) {
    && name != "item/agentMessage/delta" && name != "item/started" && name != "item/commandExecution/outputDelta"
    && name != "item/completed" && name != "turn/started"
  }

  /** The specification, by the method's name. */
  lemma NextByName(s: State, e: RpcEvent)
    ensures e.name == "item/agentMessage/delta" ==>
              Next(s, e) == if e.itemId.Some? && e.delta.Some? then NextDelta(s, e.itemId.value, e.delta.value) else (s, [])
    ensures e.name == "item/started" ==>
              Next(s, e) == if e.item.kind == Some("commandExecution") then NextToolStart(s, e) else (s, [])
    ensures e.name == "item/commandExecution/outputDelta" ==>
              Next(s, e) == if e.itemId.Some? then NextToolOutput(s, e.itemId.value, GetOr(e.delta, "")) else (s, [])
    ensures e.name == "turn/started" ==> Next(s, e) == (s, [Phase("thinking", None)])
    ensures IsIgnored(e.name) ==> Next(s, e) == (s, [])
  {
    hide NextDelta, NextToolStart, NextToolOutput, NextToolDone, NextMessageDone;
  }

  lemma NextCompleted(s: State, e: RpcEvent)
    requires e.name == "item/completed"
    ensures Next(s, e) ==
            if e.item.kind == Some("commandExecution") then NextToolDone(s, e)
            else if IsMessageDone(e) then NextMessageDone(s, e)
            else (s, [])
  {
    hide NextDelta, NextToolStart, NextToolOutput, NextToolDone, NextMessageDone;
  }

  class Projection {
    var itemText: map<string, string>
    var itemSeq: map<string, nat>
    var toolCommand: map<string, string>
    var toolOutput: map<string, string>
    var toolSeq: map<string, nat>
    var transcriptSeq: nat

    constructor ()
      ensures Now() == START
    {
      itemText, itemSeq, toolCommand, toolOutput, toolSeq := map[], map[], map[], map[], map[];
      transcriptSeq := 0;
    }

    function Now(): State
      reads this
    {
      State(itemText, itemSeq, toolCommand, toolOutput, toolSeq, transcriptSeq)
    }

    method ApplyDelta(id: string, delta: string) returns (out: seq<Projected>)
      modifies this
      ensures (Now(), out) == NextDelta(old(Now()), id, delta)
    {
      var text := GetOr(Lookup(itemText, id), "") + delta;
      itemText := itemText[id := text];
      itemSeq := itemSeq[id := GetOr(Lookup(itemSeq, id), 0) + 1];
      transcriptSeq := transcriptSeq + 1;
      out := [AssistantItem(id, itemSeq[id], transcriptSeq, delta, text, false)];
    }

    method ApplyToolStart(e: RpcEvent) returns (out: seq<Projected>)
      modifies this
      ensures (Now(), out) == NextToolStart(old(Now()), e)
    {
      var id := GetOr(e.item.id, "unknown-tool");
      var command := GetOr(e.item.command, "");
      toolCommand := toolCommand[id := command];
      toolSeq := toolSeq[id := 1];
      out := [Phase("tool", Some(command)), ToolItem(id, command, "", "inProgress", 1, false)];
    }

    method ApplyToolOutput(id: string, delta: string) returns (out: seq<Projected>)
      modifies this
      ensures (Now(), out) == NextToolOutput(old(Now()), id, delta)
    {
      toolOutput := toolOutput[id := GetOr(Lookup(toolOutput, id), "") + delta];
      toolSeq := toolSeq[id := GetOr(Lookup(toolSeq, id), 0) + 1];
      out := [ToolItem(id, GetOr(Lookup(toolCommand, id), ""), toolOutput[id], "inProgress", toolSeq[id], false)];
    }

    method ApplyToolDone(e: RpcEvent) returns (out: seq<Projected>)
      modifies this
      ensures (Now(), out) == NextToolDone(old(Now()), e)
    {
      var id := GetOr(e.item.id, "unknown-tool");
      var command := GetOr(OrElse(e.item.command, Lookup(toolCommand, id)), "");
      var output := GetOr(OrElse(e.item.aggregatedOutput, Lookup(toolOutput, id)), "");
      toolSeq := toolSeq[id := GetOr(Lookup(toolSeq, id), 0) + 1];
      out := [ToolItem(id, command, output, GetOr(e.item.status, "completed"), toolSeq[id], true)];
    }

    method ApplyMessageDone(e: RpcEvent) returns (out: seq<Projected>)
      requires IsMessageDone(e)
      modifies this
      ensures (Now(), out) == NextMessageDone(old(Now()), e)
    {
      var id := OrElse(e.item.id, e.itemId).value;
      var text := OrElse(Lookup(itemText, id), OrElse(e.item.text, e.item.contentText));
      if text.None? {
        return [];
      }
      itemSeq := itemSeq[id := GetOr(Lookup(itemSeq, id), 0) + 1];
      transcriptSeq := transcriptSeq + 1;
      out := [AssistantItem(id, itemSeq[id], transcriptSeq, "", text.value, true)];
    }

    method ApplyCompleted(e: RpcEvent) returns (out: seq<Projected>)
      requires e.name == "item/completed"
      modifies this
      ensures (Now(), out) == Next(old(Now()), e)
    {
      NextCompleted(Now(), e);
      hide Next, NextToolDone, NextMessageDone;
      if e.item.kind == Some("commandExecution") {
        out := ApplyToolDone(e);
      } else if e.item.kind == Some("agentMessage") || e.item.kind == Some("assistantMessage") {
        if OrElse(e.item.id, e.itemId).None? {
          return [];
        }
        out := ApplyMessageDone(e);
      } else {
        out := [];
      }
    }

    method Apply(e: RpcEvent) returns (out: seq<Projected>)
      modifies this
      ensures (Now(), out) == Next(old(Now()), e)
    {
      NextByName(Now(), e);
      hide Next, NextDelta, NextToolStart, NextToolOutput;
      match e.name {
        case "item/agentMessage/delta" =>
          if e.itemId.None? || e.delta.None? {
            return [];
          }
          out := ApplyDelta(e.itemId.value, e.delta.value);
        case "item/started" =>
          if e.item.kind != Some("commandExecution") {
            return [];
          }
          out := ApplyToolStart(e);
        case "item/commandExecution/outputDelta" =>
          if e.itemId.None? {
            return [];
          }
          out := ApplyToolOutput(e.itemId.value, GetOr(e.delta, ""));
        case "item/completed" =>
          out := ApplyCompleted(e);
        case "turn/started" =>
          out := [Phase("thinking", None)];
        case _ =>
          out := [];
      }
    }
  }
}
