/**
 The two-lane runtime event pump (engine/src/codex_exec.rs, `post_events` and
 `run_runtime_event_pump`).

 One producer posts batches; a critical batch waits for room in its lane, any other batch is
 dropped when its lane is full. A shared counter is raised before a batch is sent and lowered when
 it is delivered or dropped. `select!` evaluates its branch guards once, on entry, and its branches
 whenever it is polled after that, so entering and resolving are separate steps here.
 */
module EventPump {
  import opened Wrappers

  const EVENT_PUMP_MAX_BATCH: nat := 128
  const EVENT_PUMP_QUEUE_CAPACITY: nat := 256
  const EVENT_PUMP_CRITICAL_CAPACITY: nat := 64
  const ATTEMPTS: nat := 3

  /** The fields of a runtime event that decide its lane, and the text a live item shows. */
  datatype RuntimeEvent = RuntimeEvent(
    kind: string,
    progressKind: Option<string>,
    completed: Option<bool>,
    itemCompleted: Option<bool>,
    itemId: string,
    text: string)

  type Batch = seq<RuntimeEvent>

  predicate EventIsCritical(e: RuntimeEvent) {
    || e.kind == "terminal_signal"
    || e.kind == "binding_signal"
    || (e.progressKind == Some("console_live_tool_item") && e.completed == Some(true))
    || e.itemCompleted == Some(true)
  }

  predicate EventsAreCritical(batch: Batch) {
    exists e | e in batch :: EventIsCritical(e)
  }

  function Flatten(batches: seq<Batch>): Batch {
    if batches == [] then [] else Flatten(batches[..|batches| - 1]) + batches[|batches| - 1]
  }

  /** The batches of one lane, in order. */
  function LaneOf(batches: seq<Batch>, critical: bool): seq<Batch> {
    if batches == [] then []
    else
      var rest := LaneOf(batches[..|batches| - 1], critical);
      var last := batches[|batches| - 1];
      if EventsAreCritical(last) == critical then rest + [last] else rest
  }

  lemma LaneSnoc(batches: seq<Batch>, b: Batch, critical: bool)
    ensures LaneOf(batches + [b], critical)
         == if EventsAreCritical(b) == critical then LaneOf(batches, critical) + [b] else LaneOf(batches, critical)
  {
    hide EventsAreCritical;
    assert (batches + [b])[..|batches|] == batches;
  }

  lemma FlattenSnoc(batches: seq<Batch>, b: Batch)
    ensures Flatten(batches + [b]) == Flatten(batches) + b
  {
    assert (batches + [b])[..|batches|] == batches;
  }

  lemma {:induction false} FlattenCons(b: Batch, batches: seq<Batch>)
    ensures Flatten([b] + batches) == b + Flatten(batches)
  {
    if batches == [] {
      assert [b] + batches == [b] && [b][..0] == [];
    } else {
      var n := |batches| - 1;
      FlattenCons(b, batches[..n]);
      assert ([b] + batches)[..n + 1] == [b] + batches[..n];
      assert ([b] + batches)[n + 1] == batches[n];
      assert Flatten([b] + batches) == Flatten([b] + batches[..n]) + batches[n];
    }
  }

  // ---------------------------------------------------------------------------------------------
  // State
  // ---------------------------------------------------------------------------------------------

  datatype Refusal = Full | Closed

  /** The producer between two posts, after raising the counter, or about to lower it again. */
  datatype Poster = Idle | Sending(batch: Batch) | Refused(batch: Batch, why: Refusal)

  datatype Pump =
    | Entering
    | Selecting(criticalArmed: bool, previewArmed: bool)
    | Collecting(batch: Batch)
    | Posting(batch: Batch, attempt: nat)
    | Exited
    | Aborted(batch: Batch)

  datatype Answer = Acknowledged | Retryable | Final

  /** A batch the pump is done with. */
  datatype Outcome = Outcome(batch: Batch, delivered: bool)

  datatype Sys = Sys(
    poster: Poster,
    preview: seq<Batch>,
    critical: seq<Batch>,
    previewOpen: bool,         // some preview sender is left
    criticalOpen: bool,        // some critical sender is left
    pump: Pump,
    queued: int,
    posted: seq<Batch>,        // history: everything posted,
    previewIn: seq<Batch>,     //   what entered each lane,
    criticalIn: seq<Batch>,
    taken: seq<Batch>,         //   what the pump took, in order,
    outcomes: seq<Outcome>,    //   what it did with it,
    droppedFull: seq<Batch>,   //   and what never entered a lane
    droppedClosed: seq<Batch>,
    racedClose: bool)          // the last sender left while the pump was parked over waiting previews

  const INITIAL := Sys(Idle, [], [], true, true, Entering, 0, [], [], [], [], [], [], [], false)

  datatype Action =
    | Post(batch: Batch)
    | Send
    | Refund
    | ClosePreview
    | CloseCritical
    | EnterSelect
    | Resolve
    | Collect
    | Reply(answer: Answer)
    | Abort

  predicate ReceiverOpen(s: Sys) {
    !s.pump.Exited? && !s.pump.Aborted?
  }

  function InFlight(p: Pump): Batch {
    match p
    case Collecting(b) => b
    case Posting(b, _) => b
    case Aborted(b) => b
    case _ => []
  }

  function Posters(p: Poster): seq<Batch> {
    match p
    case Idle => []
    case Sending(b) => [b]
    case Refused(b, _) => [b]
  }

  // ---------------------------------------------------------------------------------------------
  // Steps
  // ---------------------------------------------------------------------------------------------

  function PostStep(s: Sys, batch: Batch): Sys {
    if s.poster.Idle? && s.previewOpen && s.criticalOpen then
      s.(poster := Sending(batch), queued := s.queued + |batch|, posted := s.posted + [batch])
    else s
  }

  function Enqueue(s: Sys, b: Batch, critical: bool): Sys {
    if critical then s.(poster := Idle, critical := s.critical + [b], criticalIn := s.criticalIn + [b])
    else s.(poster := Idle, preview := s.preview + [b], previewIn := s.previewIn + [b])
  }

  function SendStep(s: Sys): Sys {
    if !s.poster.Sending? then s
    else
      var b := s.poster.batch;
      if !ReceiverOpen(s) then s.(poster := Refused(b, Closed))
      else if EventsAreCritical(b) then
        if |s.critical| < EVENT_PUMP_CRITICAL_CAPACITY then Enqueue(s, b, true) else s
      else if |s.preview| < EVENT_PUMP_QUEUE_CAPACITY then Enqueue(s, b, false)
      else s.(poster := Refused(b, Full))
  }

  function RefundStep(s: Sys): Sys {
    match s.poster
    case Refused(b, Full) =>
      s.(poster := Idle, queued := s.queued - |b|, droppedFull := s.droppedFull + [b])
    case Refused(b, Closed) =>
      s.(poster := Idle, queued := s.queued - |b|, droppedClosed := s.droppedClosed + [b])
    case _ => s
  }

  /** The pump waits in `select!` with its critical branch armed, no critical batch, and previews. */
  predicate ParkedOverPreviews(s: Sys) {
    s.pump.Selecting? && s.pump.criticalArmed && s.critical == [] && s.preview != []
  }

  /** Dropping the sink drops the preview sender first, then the critical one. */
  function CloseStep(s: Sys, critical: bool): Sys {
    if !s.poster.Idle? then s
    else if !critical then s.(previewOpen := false)
    else if s.previewOpen || !s.criticalOpen then s
    else s.(criticalOpen := false, racedClose := ParkedOverPreviews(s))
  }

  function EnterStep(s: Sys): Sys {
    if s.pump.Entering? then
      s.(pump := Selecting(s.criticalOpen || s.critical != [], s.previewOpen || s.preview != []))
    else s
  }

  function TakeCritical(s: Sys, before: Batch): Sys
    requires s.critical != []
  {
    s.(critical := s.critical[1..], taken := s.taken + [s.critical[0]], pump := Collecting(before + s.critical[0]))
  }

  function TakePreview(s: Sys, before: Batch): Sys
    requires s.preview != []
  {
    s.(preview := s.preview[1..], taken := s.taken + [s.preview[0]], pump := Collecting(before + s.preview[0]))
  }

  /** `select!` produced nothing: the pump stops when both lanes are closed. */
  function NothingStep(s: Sys): Sys {
    s.(pump := if !s.previewOpen && !s.criticalOpen then Exited else Entering)
  }

  function ResolveStep(s: Sys): Sys {
    match s.pump
    case Selecting(criticalArmed, previewArmed) =>
      if criticalArmed && s.critical != [] then TakeCritical(s, [])
      else if criticalArmed && !s.criticalOpen then NothingStep(s)
      else if previewArmed && s.preview != [] then TakePreview(s, [])
      else if previewArmed && !s.previewOpen then NothingStep(s)
      else if !criticalArmed && !previewArmed then NothingStep(s)
      else s
    case _ => s
  }

  function CollectStep(s: Sys): Sys {
    if !s.pump.Collecting? then s
    else
      var b := s.pump.batch;
      if |b| >= EVENT_PUMP_MAX_BATCH then s.(pump := Posting(b, 0))
      else if s.critical != [] then TakeCritical(s, b)
      else if s.preview != [] then TakePreview(s, b)
      else s.(pump := Posting(b, 0))
  }

  function FinishStep(s: Sys, delivered: bool): Sys
    requires s.pump.Posting?
  {
    var b := s.pump.batch;
    s.(pump := Entering, queued := s.queued - |b|, outcomes := s.outcomes + [Outcome(b, delivered)])
  }

  function ReplyStep(s: Sys, answer: Answer): Sys {
    if !s.pump.Posting? then s
    else
      match answer
      case Acknowledged => FinishStep(s, true)
      case Final => FinishStep(s, false)
      case Retryable =>
        if s.pump.attempt + 1 < ATTEMPTS then s.(pump := Posting(s.pump.batch, s.pump.attempt + 1))
        else FinishStep(s, false)
  }

  function AbortStep(s: Sys): Sys {
    if ReceiverOpen(s) then s.(pump := Aborted(InFlight(s.pump))) else s
  }

  function Step(s: Sys, a: Action): Sys {
    match a
    case Post(batch) => PostStep(s, batch)
    case Send => SendStep(s)
    case Refund => RefundStep(s)
    case ClosePreview => CloseStep(s, false)
    case CloseCritical => CloseStep(s, true)
    case EnterSelect => EnterStep(s)
    case Resolve => ResolveStep(s)
    case Collect => CollectStep(s)
    case Reply(answer) => ReplyStep(s, answer)
    case Abort => AbortStep(s)
  }

  function Run(actions: seq<Action>): Sys {
    if actions == [] then INITIAL
    else Step(Run(actions[..|actions| - 1]), actions[|actions| - 1])
  }

  // ---------------------------------------------------------------------------------------------
  // Invariant
  // ---------------------------------------------------------------------------------------------

  function OutcomeEvents(outcomes: seq<Outcome>): Batch {
    if outcomes == [] then []
    else OutcomeEvents(outcomes[..|outcomes| - 1]) + outcomes[|outcomes| - 1].batch
  }

  /** The counter is what is queued, in flight, or being posted. */
  ghost predicate Counted(s: Sys) {
    s.queued == |Flatten(s.preview)| + |Flatten(s.critical)| + |InFlight(s.pump)| + |Flatten(Posters(s.poster))|
  }

  /** Every posted batch is in exactly one place. */
  ghost predicate Conserved(s: Sys) {
    Partition(multiset(s.posted), multiset(s.taken), multiset(s.preview), multiset(s.critical),
              multiset(Posters(s.poster)), multiset(s.droppedFull), multiset(s.droppedClosed))
  }

  ghost predicate Partition(
    all: multiset<Batch>, taken: multiset<Batch>, preview: multiset<Batch>, critical: multiset<Batch>,
    posting: multiset<Batch>, full: multiset<Batch>, closed: multiset<Batch>)
  {
    all == taken + preview + critical + posting + full + closed
  }

  /** What was taken is delivered, given up, or in flight, in the order it was taken. */
  ghost predicate Accounted(s: Sys) {
    Flatten(s.taken) == OutcomeEvents(s.outcomes) + InFlight(s.pump)
  }

  /** Lanes are first in, first out. */
  ghost predicate Ordered(s: Sys) {
    && s.criticalIn == LaneOf(s.taken, true) + s.critical
    && s.previewIn == LaneOf(s.taken, false) + s.preview
    && (forall i :: 0 <= i < |s.critical| ==> EventsAreCritical(s.critical[i]))
    && (forall i :: 0 <= i < |s.preview| ==> !EventsAreCritical(s.preview[i]))
  }

  /** Unless the pump is killed, the critical batches posted are those that entered, in order. */
  ghost predicate Admitted(s: Sys) {
    && s.criticalIn <= LaneOf(s.posted, true)
    && (!s.pump.Aborted? ==>
          && LaneOf(s.posted, true) == s.criticalIn + LaneOf(Posters(s.poster), true)
          && s.droppedClosed == []
          && (s.poster.Refused? ==> s.poster.why.Full? && !EventsAreCritical(s.poster.batch)))
    && (forall i :: 0 <= i < |s.droppedFull| ==> !EventsAreCritical(s.droppedFull[i]))
    && (s.poster.Refused? && s.poster.why.Full? ==> !EventsAreCritical(s.poster.batch))
  }

  ghost predicate Bounded(s: Sys) {
    && |s.critical| <= EVENT_PUMP_CRITICAL_CAPACITY
    && |s.preview| <= EVENT_PUMP_QUEUE_CAPACITY
    && (!s.previewOpen ==> s.poster.Idle?)
    && (!s.criticalOpen ==> !s.previewOpen)
    && (s.pump.Exited? ==> !s.criticalOpen && s.critical == [])
    && (s.pump.Selecting? && !s.pump.criticalArmed ==> !s.criticalOpen && s.critical == [])
    && (s.pump.Selecting? && !s.pump.previewArmed ==> !s.previewOpen && s.preview == [])
  }

  /** Once every sender is gone, previews are stranded exactly after a raced close. */
  ghost predicate Closing(s: Sys) {
    if s.criticalOpen then !s.racedClose
    else if s.racedClose then
      ParkedOverPreviews(s) || (s.pump.Exited? && s.preview != []) || s.pump.Aborted?
    else
      && !ParkedOverPreviews(s)
      && (s.pump.Exited? ==> s.preview == [])
  }

  ghost predicate Inv(s: Sys) {
    Counted(s) && Conserved(s) && Accounted(s) && Ordered(s) && Admitted(s) && Bounded(s) && Closing(s)
  }

  lemma FlattenOne(b: Batch)
    ensures Flatten([b]) == b
  {
    assert [b][..0] == [];
  }

  lemma FlattenHead(batches: seq<Batch>)
    requires batches != []
    ensures Flatten(batches) == batches[0] + Flatten(batches[1..])
  {
    FlattenCons(batches[0], batches[1..]);
    assert batches == [batches[0]] + batches[1..];
  }

  lemma BagHead(batches: seq<Batch>)
    requires batches != []
    ensures multiset(batches) == multiset{batches[0]} + multiset(batches[1..])
  {
    assert batches == [batches[0]] + batches[1..];
  }

  lemma BagSnoc(batches: seq<Batch>, b: Batch)
    ensures multiset(batches + [b]) == multiset(batches) + multiset{b}
  {
  }

  // Each lemma below is about one elementary move of a batch.

  lemma PostKeeps(s: Sys, batch: Batch)
    requires Inv(s)
    ensures Inv(PostStep(s, batch))
  {
    hide EventsAreCritical, Flatten, LaneOf, OutcomeEvents;
    if s.poster.Idle? && s.previewOpen && s.criticalOpen {
      FlattenOne(batch);
      FlattenNone();
      LaneSnoc(s.posted, batch, true);
      LaneOne(batch);
      BagSnoc(s.posted, batch);
      PartitionPost(multiset(s.posted), multiset(s.taken), multiset(s.preview), multiset(s.critical),
                    multiset(s.droppedFull), multiset(s.droppedClosed), batch);
    }
  }

  lemma FlattenNone()
    ensures Flatten([]) == []
  {
  }

  lemma LaneOne(b: Batch)
    ensures LaneOf([b], true) == if EventsAreCritical(b) then [b] else []
    ensures LaneOf([], true) == []
  {
    hide EventsAreCritical;
    assert [b][..0] == [];
  }

  lemma PartitionPost(
    all: multiset<Batch>, taken: multiset<Batch>, preview: multiset<Batch>, critical: multiset<Batch>,
    full: multiset<Batch>, closed: multiset<Batch>, b: Batch)
    requires Partition(all, taken, preview, critical, multiset{}, full, closed)
    ensures Partition(all + multiset{b}, taken, preview, critical, multiset{b}, full, closed)
  {
  }

  lemma PartitionMoves(
    all: multiset<Batch>, taken: multiset<Batch>, preview: multiset<Batch>, critical: multiset<Batch>,
    full: multiset<Batch>, closed: multiset<Batch>, b: Batch)
    ensures Partition(all, taken, preview, critical, multiset{b}, full, closed)
        ==> && Partition(all, taken, preview + multiset{b}, critical, multiset{}, full, closed)
            && Partition(all, taken, preview, critical + multiset{b}, multiset{}, full, closed)
            && Partition(all, taken, preview, critical, multiset{}, full + multiset{b}, closed)
            && Partition(all, taken, preview, critical, multiset{}, full, closed + multiset{b})
  {
  }

  lemma PartitionTakes(
    all: multiset<Batch>, taken: multiset<Batch>, preview: multiset<Batch>, critical: multiset<Batch>,
    posting: multiset<Batch>, full: multiset<Batch>, closed: multiset<Batch>, b: Batch)
    ensures Partition(all, taken, multiset{b} + preview, critical, posting, full, closed)
        ==> Partition(all, taken + multiset{b}, preview, critical, posting, full, closed)
    ensures Partition(all, taken, preview, multiset{b} + critical, posting, full, closed)
        ==> Partition(all, taken + multiset{b}, preview, critical, posting, full, closed)
  {
  }

  lemma EnqueueCriticalKeeps(s: Sys, b: Batch)
    requires Inv(s) && s.poster == Sending(b) && ReceiverOpen(s) && EventsAreCritical(b)
    requires |s.critical| < EVENT_PUMP_CRITICAL_CAPACITY
    ensures Inv(Enqueue(s, b, true))
  {
    hide EventsAreCritical, Flatten, LaneOf, OutcomeEvents, Partition;
    FlattenOne(b);
    FlattenNone();
    FlattenSnoc(s.critical, b);
    LaneOne(b);
    BagSnoc(s.critical, b);
    PartitionMoves(multiset(s.posted), multiset(s.taken), multiset(s.preview), multiset(s.critical),
                   multiset(s.droppedFull), multiset(s.droppedClosed), b);
  }

  lemma EnqueuePreviewKeeps(s: Sys, b: Batch)
    requires Inv(s) && s.poster == Sending(b) && ReceiverOpen(s) && !EventsAreCritical(b)
    requires |s.preview| < EVENT_PUMP_QUEUE_CAPACITY
    ensures Inv(Enqueue(s, b, false))
  {
    hide EventsAreCritical, Flatten, LaneOf, OutcomeEvents, Partition;
    FlattenOne(b);
    FlattenNone();
    FlattenSnoc(s.preview, b);
    LaneOne(b);
    BagSnoc(s.preview, b);
    PartitionMoves(multiset(s.posted), multiset(s.taken), multiset(s.preview), multiset(s.critical),
                   multiset(s.droppedFull), multiset(s.droppedClosed), b);
  }

  lemma RefuseKeeps(s: Sys, b: Batch, why: Refusal)
    requires Inv(s) && s.poster == Sending(b)
    requires why.Full? ==> !EventsAreCritical(b)
    requires why.Closed? ==> !ReceiverOpen(s)
    ensures Inv(s.(poster := Refused(b, why)))
  {
    hide EventsAreCritical, Flatten, OutcomeEvents, Partition, LaneOf;
    LaneOne(b);
  }

  lemma SendKeeps(s: Sys)
    requires Inv(s)
    ensures Inv(SendStep(s))
  {
    if s.poster.Sending? {
      hide Inv, EventsAreCritical;
      var b := s.poster.batch;
      if !ReceiverOpen(s) {
        RefuseKeeps(s, b, Closed);
      } else if EventsAreCritical(b) {
        if |s.critical| < EVENT_PUMP_CRITICAL_CAPACITY {
          EnqueueCriticalKeeps(s, b);
        }
      } else if |s.preview| < EVENT_PUMP_QUEUE_CAPACITY {
        EnqueuePreviewKeeps(s, b);
      } else {
        RefuseKeeps(s, b, Full);
      }
    }
  }

  lemma RefundKeeps(s: Sys)
    requires Inv(s)
    ensures Inv(RefundStep(s))
  {
    hide EventsAreCritical, Flatten, LaneOf, OutcomeEvents, Partition;
    if s.poster.Refused? {
      RefundMoves(s);
      var b := s.poster.batch;
      FlattenOne(b);
      FlattenNone();
      LaneOne(b);
    }
  }

  lemma RefundMoves(s: Sys)
    requires Conserved(s) && s.poster.Refused?
    ensures Conserved(RefundStep(s))
  {
    var b := s.poster.batch;
    BagSnoc(s.droppedFull, b);
    BagSnoc(s.droppedClosed, b);
    hide Partition;
    PartitionMoves(multiset(s.posted), multiset(s.taken), multiset(s.preview), multiset(s.critical),
                   multiset(s.droppedFull), multiset(s.droppedClosed), b);
  }

  lemma CloseKeeps(s: Sys, critical: bool)
    requires Inv(s)
    ensures Inv(CloseStep(s, critical))
  {
    hide EventsAreCritical, Flatten, LaneOf, OutcomeEvents, Partition;
  }

  /** Steps of the pump that move no batch. */
  lemma EnterKeeps(s: Sys)
    requires Inv(s)
    ensures Inv(EnterStep(s))
  {
    hide EventsAreCritical, Flatten, LaneOf, OutcomeEvents, Partition;
  }

  lemma AbortKeeps(s: Sys)
    requires Inv(s)
    ensures Inv(AbortStep(s))
  {
    hide EventsAreCritical, Flatten, LaneOf, OutcomeEvents, Partition;
  }

  lemma TakeCriticalKeeps(s: Sys, before: Batch)
    requires Inv(s) && s.critical != [] && InFlight(s.pump) == before && ReceiverOpen(s)
    ensures Inv(TakeCritical(s, before))
  {
    hide EventsAreCritical, Flatten, LaneOf, OutcomeEvents, Partition;
    var b := s.critical[0];
    FlattenHead(s.critical);
    FlattenSnoc(s.taken, b);
    LaneSnoc(s.taken, b, true);
    LaneSnoc(s.taken, b, false);
    BagHead(s.critical);
    BagSnoc(s.taken, b);
    PartitionTakes(multiset(s.posted), multiset(s.taken), multiset(s.preview), multiset(s.critical[1..]),
                   multiset(Posters(s.poster)), multiset(s.droppedFull), multiset(s.droppedClosed), b);
    assert s.critical == [b] + s.critical[1..];
  }

  lemma TakePreviewKeeps(s: Sys, before: Batch)
    requires Inv(s) && s.preview != [] && InFlight(s.pump) == before && ReceiverOpen(s)
    requires s.pump.Selecting? ==> s.criticalOpen || !s.pump.criticalArmed
    ensures Inv(TakePreview(s, before))
  {
    hide EventsAreCritical, Flatten, LaneOf, OutcomeEvents, Partition;
    var b := s.preview[0];
    FlattenHead(s.preview);
    FlattenSnoc(s.taken, b);
    LaneSnoc(s.taken, b, true);
    LaneSnoc(s.taken, b, false);
    BagHead(s.preview);
    BagSnoc(s.taken, b);
    PartitionTakes(multiset(s.posted), multiset(s.taken), multiset(s.preview[1..]), multiset(s.critical),
                   multiset(Posters(s.poster)), multiset(s.droppedFull), multiset(s.droppedClosed), b);
    assert s.preview == [b] + s.preview[1..];
  }

  /** When nothing was produced, the lanes whose branches were armed are closed and empty. */
  lemma NothingKeeps(s: Sys)
    requires Inv(s) && s.pump.Selecting?
    requires s.critical == []
    requires (s.pump.criticalArmed && !s.criticalOpen) || s.preview == []
    ensures Inv(NothingStep(s))
  {
    hide EventsAreCritical, Flatten, LaneOf, OutcomeEvents, Partition;
  }

  lemma ResolveKeeps(s: Sys)
    requires Inv(s)
    ensures Inv(ResolveStep(s))
  {
    if s.pump.Selecting? {
      assert !s.pump.criticalArmed ==> s.critical == [];
      hide Inv;
      if s.critical != [] {
        TakeCriticalKeeps(s, []);
      } else {
        if (s.pump.criticalArmed && !s.criticalOpen) || s.preview == [] {
          NothingKeeps(s);
        }
        if s.preview != [] && !(s.pump.criticalArmed && !s.criticalOpen) {
          TakePreviewKeeps(s, []);
        }
      }
    }
  }

  lemma CollectKeeps(s: Sys)
    requires Inv(s)
    ensures Inv(CollectStep(s))
  {
    if s.pump.Collecting? {
      StartPostingKeeps(s, 0);
      hide Inv;
      if s.critical != [] {
        TakeCriticalKeeps(s, s.pump.batch);
      }
      if s.preview != [] {
        TakePreviewKeeps(s, s.pump.batch);
      }
    }
  }

  lemma StartPostingKeeps(s: Sys, attempt: nat)
    requires Inv(s) && (s.pump.Collecting? || s.pump.Posting?)
    ensures Inv(s.(pump := Posting(s.pump.batch, attempt)))
  {
    hide EventsAreCritical, Flatten, LaneOf, OutcomeEvents, Partition;
  }

  lemma FinishKeeps(s: Sys, delivered: bool)
    requires Inv(s) && s.pump.Posting?
    ensures Inv(FinishStep(s, delivered))
  {
    OutcomeSnoc(s.outcomes, Outcome(s.pump.batch, delivered));
    hide EventsAreCritical, Flatten, LaneOf, Partition, OutcomeEvents;
  }

  lemma OutcomeSnoc(outcomes: seq<Outcome>, o: Outcome)
    ensures OutcomeEvents(outcomes + [o]) == OutcomeEvents(outcomes) + o.batch
  {
    assert (outcomes + [o])[..|outcomes|] == outcomes;
  }

  lemma ReplyKeeps(s: Sys, answer: Answer)
    requires Inv(s)
    ensures Inv(ReplyStep(s, answer))
  {
    hide Inv, FinishStep;
    if s.pump.Posting? {
      StartPostingKeeps(s, s.pump.attempt + 1);
      FinishKeeps(s, true);
      FinishKeeps(s, false);
    }
  }

  lemma InvStep(s: Sys, a: Action)
    requires Inv(s)
    ensures Inv(Step(s, a))
  {
    hide Inv, PostStep, SendStep, RefundStep, CloseStep, EnterStep, ResolveStep, CollectStep, ReplyStep, AbortStep;
    match a
    case Post(batch) => PostKeeps(s, batch);
    case Send => SendKeeps(s);
    case Refund => RefundKeeps(s);
    case ClosePreview => CloseKeeps(s, false);
    case CloseCritical => CloseKeeps(s, true);
    case EnterSelect => EnterKeeps(s);
    case Resolve => ResolveKeeps(s);
    case Collect => CollectKeeps(s);
    case Reply(answer) => ReplyKeeps(s, answer);
    case Abort => AbortKeeps(s);
  }

  lemma {:induction false} InvRun(actions: seq<Action>)
    ensures Inv(Run(actions))
  {
    if actions != [] {
      hide Inv, Step;
      InvRun(actions[..|actions| - 1]);
      InvStep(Run(actions[..|actions| - 1]), actions[|actions| - 1]);
    } else {
      FlattenNone();
    }
  }

  // ---------------------------------------------------------------------------------------------
  // Conservation
  // ---------------------------------------------------------------------------------------------

  lemma {:induction false} FlattenAppend(a: seq<Batch>, b: seq<Batch>)
    ensures Flatten(a + b) == Flatten(a) + Flatten(b)
  {
    if b == [] {
      assert a + b == a;
    } else {
      var n := |b| - 1;
      assert Flatten(b) == Flatten(b[..n]) + b[n];
      hide Flatten;
      FlattenAppend(a, b[..n]);
      assert a + b == (a + b[..n]) + [b[n]];
      FlattenSnoc(a + b[..n], b[n]);
    }
  }

  /** Reordering batches keeps every event. */
  lemma {:induction false} FlattenReordered(a: seq<Batch>, b: seq<Batch>)
    requires multiset(a) == multiset(b)
    ensures multiset(Flatten(a)) == multiset(Flatten(b))
  {
    hide Flatten;
    if a == [] {
      assert |multiset(b)| == 0;
      assert b == [];
    } else {
      var n := |a| - 1;
      assert a[n] in multiset(b);
      var i :| 0 <= i < |b| && b[i] == a[n];
      var rest := b[..i] + b[i + 1..];
      FlattenPluck(b, i);
      assert a == a[..n] + [a[n]];
      BagSnoc(a[..n], a[n]);
      Cancel(multiset(a[..n]), multiset(rest), a[n]);
      FlattenReordered(a[..n], rest);
      FlattenSnoc(a[..n], a[n]);
    }
  }

  lemma Cancel(x: multiset<Batch>, y: multiset<Batch>, b: Batch)
    requires x + multiset{b} == y + multiset{b}
    ensures x == y
  {
    assert x == (x + multiset{b}) - multiset{b};
  }

  lemma FlattenPluck(b: seq<Batch>, i: nat)
    requires i < |b|
    ensures multiset(b) == multiset(b[..i] + b[i + 1..]) + multiset{b[i]}
    ensures multiset(Flatten(b)) == multiset(Flatten(b[..i] + b[i + 1..])) + multiset(b[i])
  {
    hide Flatten;
    assert b == b[..i] + [b[i]] + b[i + 1..];
    FlattenAppend(b[..i], b[i + 1..]);
    FlattenAppend(b[..i] + [b[i]], b[i + 1..]);
    FlattenSnoc(b[..i], b[i]);
  }

  /** Everything posted, by where it is now. */
  function Whereabouts(s: Sys): seq<Batch> {
    s.taken + s.preview + s.critical + Posters(s.poster) + s.droppedFull + s.droppedClosed
  }

  /**
   In every run each posted event is delivered or given up after its attempts, in flight, in a lane,
   with the producer, or dropped before entering a lane: one place each, nothing twice.
   */
  lemma EventsConserved(actions: seq<Action>)
    ensures var s := Run(actions);
      multiset(Flatten(s.posted))
        == multiset(OutcomeEvents(s.outcomes)) + multiset(InFlight(s.pump))
           + multiset(Flatten(s.preview)) + multiset(Flatten(s.critical)) + multiset(Flatten(Posters(s.poster)))
           + multiset(Flatten(s.droppedFull)) + multiset(Flatten(s.droppedClosed))
  {
    InvRun(actions);
    var s := Run(actions);
    assert Accounted(s) && Conserved(s);
    hide Inv, Flatten, OutcomeEvents, Run;
    var w1 := s.taken + s.preview;
    var w2 := w1 + s.critical;
    var w3 := w2 + Posters(s.poster);
    var w4 := w3 + s.droppedFull;
    FlattenReordered(s.posted, Whereabouts(s));
    FlattenAppend(s.taken, s.preview);
    FlattenAppend(w1, s.critical);
    FlattenAppend(w2, Posters(s.poster));
    FlattenAppend(w3, s.droppedFull);
    FlattenAppend(w4, s.droppedClosed);
  }

  /** The shared counter is never an approximation. */
  lemma CounterIsExact(actions: seq<Action>)
    ensures var s := Run(actions);
      s.queued == |Flatten(s.preview)| + |Flatten(s.critical)| + |InFlight(s.pump)| + |Flatten(Posters(s.poster))|
    ensures Run(actions).queued >= 0
  {
    InvRun(actions);
  }

  /** Lanes are bounded and keep their order, and only previews are ever dropped for lack of room. */
  lemma LanesAreFifo(actions: seq<Action>)
    ensures var s := Run(actions);
      && s.criticalIn == LaneOf(s.taken, true) + s.critical
      && s.previewIn == LaneOf(s.taken, false) + s.preview
      && |s.critical| <= EVENT_PUMP_CRITICAL_CAPACITY
      && |s.preview| <= EVENT_PUMP_QUEUE_CAPACITY
      && (forall b | b in s.droppedFull :: !EventsAreCritical(b))
  {
    InvRun(actions);
  }

  /** One attempt of a post: what becomes of the batch, and when. */
  lemma SendExactly(s: Sys)
    requires s.poster.Sending?
    ensures var b, s' := s.poster.batch, Step(s, Send);
      && (s'.poster == Refused(b, Closed) <==> !ReceiverOpen(s))
      && (s'.poster == Refused(b, Full) <==>
            ReceiverOpen(s) && !EventsAreCritical(b) && |s.preview| >= EVENT_PUMP_QUEUE_CAPACITY)
      && (s'.poster == Sending(b) <==>
            ReceiverOpen(s) && EventsAreCritical(b) && |s.critical| >= EVENT_PUMP_CRITICAL_CAPACITY)
      && (s'.poster == Idle ==>
            if EventsAreCritical(b) then s'.critical == s.critical + [b] && s'.preview == s.preview
            else s'.preview == s.preview + [b] && s'.critical == s.critical)
      && (s'.poster != Idle ==> s'.critical == s.critical && s'.preview == s.preview)
  {
    hide EventsAreCritical;
  }

  /** The producer raises the counter before it sends a batch, and lowers it for one that was refused. */
  lemma PostAndRefundExactly(s: Sys, b: Batch)
    ensures s.poster.Idle? && s.previewOpen && s.criticalOpen ==>
              Step(s, Post(b)) == s.(poster := Sending(b), queued := s.queued + |b|, posted := s.posted + [b])
    ensures s.poster.Refused? ==>
              var s' := Step(s, Refund);
              && s'.poster == Idle && s'.queued == s.queued - |s.poster.batch|
              && (if s.poster.why.Full? then s'.droppedFull == s.droppedFull + [s.poster.batch]
                  else s'.droppedClosed == s.droppedClosed + [s.poster.batch])
  {
  }

  /** A pump that is killed keeps the batch it had, takes nothing more, and refuses what is sent. */
  lemma KilledPumpStops(s: Sys, a: Action)
    ensures ReceiverOpen(s) ==> Step(s, Abort) == s.(pump := Aborted(InFlight(s.pump)))
    ensures s.pump.Aborted? ==>
              var s' := Step(s, a);
              s'.pump == s.pump && s'.taken == s.taken && s'.outcomes == s.outcomes && s'.critical == s.critical
  {
    hide EventsAreCritical;
  }

  /** At this point of the run the batch was refused by a full preview lane. */
  ghost predicate RefusedAt(actions: seq<Action>, k: nat, b: Batch) {
    && k < |actions| && actions[k] == Send
    && var s := Run(actions[..k]);
    && s.poster == Sending(b) && ReceiverOpen(s) && !EventsAreCritical(b)
    && |s.preview| == EVENT_PUMP_QUEUE_CAPACITY
  }

  lemma RefusedKeeps(actions: seq<Action>, a: Action, k: nat, b: Batch)
    requires RefusedAt(actions, k, b)
    ensures RefusedAt(actions + [a], k, b)
  {
    assert (actions + [a])[..k] == actions[..k];
    hide Run, EventsAreCritical;
  }

  lemma DropsOnlyRefused(s: Sys, a: Action, b: Batch)
    requires b in Step(s, a).droppedFull
    ensures b in s.droppedFull || s.poster == Refused(b, Full)
  {
    hide EventsAreCritical;
  }

  lemma RefusesOnlyWhenFull(s: Sys, a: Action, b: Batch)
    requires Step(s, a).poster == Refused(b, Full) && s.poster != Refused(b, Full)
    ensures a == Send && s.poster == Sending(b) && ReceiverOpen(s) && !EventsAreCritical(b)
    ensures |s.preview| >= EVENT_PUMP_QUEUE_CAPACITY
  {
    hide EventsAreCritical;
  }

  /**
   In every run, whatever is dropped for lack of room was a preview that found 256 batches waiting in
   its lane when it was posted.
   */
  lemma {:induction false} DropsMeanFull(actions: seq<Action>, b: Batch)
    requires var s := Run(actions); b in s.droppedFull || s.poster == Refused(b, Full)
    ensures exists k: nat :: RefusedAt(actions, k, b)
  {
    if actions != [] {
      var n := |actions| - 1;
      var s := Run(actions[..n]);
      assert actions == actions[..n] + [actions[n]];
      InvRun(actions[..n]);
      if b in s.droppedFull || s.poster == Refused(b, Full) {
        hide Run, Step, RefusedAt;
        DropsMeanFull(actions[..n], b);
        var k: nat :| RefusedAt(actions[..n], k, b);
        RefusedKeeps(actions[..n], actions[n], k, b);
      } else {
        if b in Step(s, actions[n]).droppedFull {
          DropsOnlyRefused(s, actions[n], b);
        }
        RefusesOnlyWhenFull(s, actions[n], b);
        hide Run, Step, EventsAreCritical;
        assert RefusedAt(actions, n, b);
      }
    }
  }

  /**
   What reached the server or was given up is an unbroken prefix of what was taken: the pump
   delivers in the order it took, whatever the answers.
   */
  lemma DeliveriesFollowTaking(actions: seq<Action>)
    ensures var s := Run(actions);
      OutcomeEvents(s.outcomes) + InFlight(s.pump) == Flatten(s.taken)
  {
    InvRun(actions);
  }

  /** No critical batch is lost on its way to the pump, short of killing the pump. */
  lemma CriticalBatchesArrive(actions: seq<Action>)
    ensures var s := Run(actions);
      && (!s.pump.Aborted? ==>
            LaneOf(s.taken, true) + s.critical + LaneOf(Posters(s.poster), true) == LaneOf(s.posted, true))
      && (s.pump.Exited? ==> LaneOf(s.taken, true) == LaneOf(s.posted, true))
  {
    InvRun(actions);
    hide LaneOf, EventsAreCritical, Flatten, OutcomeEvents, Run;
    var s := Run(actions);
    if s.pump.Exited? {
      assert s.poster.Idle? && s.critical == [];
      LaneOne([]);
      assert s.criticalIn == LaneOf(s.taken, true);
    }
  }

  // ---------------------------------------------------------------------------------------------
  // Exit
  // ---------------------------------------------------------------------------------------------

  /**
   When the pump exits by itself nothing critical is left, everything it took is settled, and it
   strands previews, which the counter keeps counting, exactly if the last sender left while it was
   parked in `select!` with an empty critical lane and previews waiting.
   */
  lemma ExitExactly(actions: seq<Action>)
    requires Run(actions).pump.Exited?
    ensures var s := Run(actions);
      && s.critical == [] && s.poster.Idle?
      && OutcomeEvents(s.outcomes) == Flatten(s.taken)
      && s.queued == |Flatten(s.preview)|
      && (s.preview != [] <==> s.racedClose)
      && (!s.racedClose ==> s.queued == 0)
  {
    InvRun(actions);
    FlattenNone();
  }

  // The raced close needs a pump that is parked over previews after it took the last critical batch:
  // a backlog of more previews than fit behind that batch does it.

  function RunFrom(s: Sys, actions: seq<Action>): Sys {
    if actions == [] then s else Step(RunFrom(s, actions[..|actions| - 1]), actions[|actions| - 1])
  }

  lemma {:induction false} RunFromAppend(s: Sys, a: seq<Action>, b: seq<Action>)
    ensures RunFrom(s, a + b) == RunFrom(RunFrom(s, a), b)
  {
    hide Step;
    if b == [] {
      assert a + b == a;
    } else {
      var n := |b| - 1;
      RunFromAppend(s, a, b[..n]);
      assert (a + b)[..|a| + n] == a + b[..n] && (a + b)[|a| + n] == b[n];
    }
  }

  lemma {:induction false} RunIsRunFrom(actions: seq<Action>)
    ensures Run(actions) == RunFrom(INITIAL, actions)
  {
    hide Step;
    if actions != [] {
      RunIsRunFrom(actions[..|actions| - 1]);
    }
  }

  lemma RunFromSnoc(s: Sys, actions: seq<Action>, a: Action)
    ensures RunFrom(s, actions + [a]) == Step(RunFrom(s, actions), a)
  {
    hide Step;
    assert (actions + [a])[..|actions|] == actions;
  }

  lemma RunFromThree(s: Sys, a: Action, b: Action, c: Action)
    ensures RunFrom(s, [a] + [b] + [c]) == Step(Step(Step(s, a), b), c)
  {
    hide Step;
    assert [a][..0] == [] && RunFrom(s, []) == s;
    assert RunFrom(s, [a]) == Step(s, a);
    hide RunFrom;
    RunFromSnoc(s, [a], b);
    RunFromSnoc(s, [a] + [b], c);
  }

  lemma RunFromFive(s: Sys, a: Action, b: Action, c: Action, d: Action, e: Action)
    ensures RunFrom(s, [a] + [b] + [c] + [d] + [e]) == Step(Step(Step(Step(Step(s, a), b), c), d), e)
  {
    hide Step, RunFrom;
    RunFromThree(s, a, b, c);
    RunFromSnoc(s, [a] + [b] + [c], d);
    RunFromSnoc(s, [a] + [b] + [c] + [d], e);
  }

  lemma RunFromSix(s: Sys, a: Action, b: Action, c: Action, d: Action, e: Action, f: Action)
    ensures RunFrom(s, [a] + [b] + [c] + [d] + [e] + [f]) == Step(Step(Step(Step(Step(Step(s, a), b), c), d), e), f)
  {
    hide Step, RunFrom;
    RunFromFive(s, a, b, c, d, e);
    RunFromSnoc(s, [a] + [b] + [c] + [d] + [e], f);
  }

  function PostMany(e: RuntimeEvent, n: nat): seq<Action> {
    if n == 0 then [] else PostMany(e, n - 1) + [Post([e])] + [Send]
  }

  function CollectMany(n: nat): seq<Action> {
    if n == 0 then [] else CollectMany(n - 1) + [Collect]
  }

  function Copies<T>(x: T, n: nat): seq<T> {
    seq(n, _ => x)
  }

  /** Both senders are there, nothing is being sent, and this is where the events are. */
  predicate Backlog(s: Sys, pump: Pump, critical: seq<Batch>, preview: seq<Batch>, queued: int) {
    && s.poster == Idle && s.previewOpen && s.criticalOpen
    && s.pump == pump && s.critical == critical && s.preview == preview && s.queued == queued
  }

  lemma {:induction false} PostsPileUp(s: Sys, e: RuntimeEvent, batch: Batch, n: nat)
    requires !EventIsCritical(e) && n <= EVENT_PUMP_QUEUE_CAPACITY
    requires Backlog(s, Posting(batch, 0), [], [], 1)
    ensures Backlog(RunFrom(s, PostMany(e, n)), Posting(batch, 0), [], Copies([e], n), 1 + n)
  {
    hide *;
    if n == 0 {
      PostedNone(s, e);
    } else {
      PostedOne(s, e, n - 1);
      PostsPileUp(s, e, batch, n - 1);
      PilesUpOne(RunFrom(s, PostMany(e, n - 1)), e, batch, n - 1);
    }
  }

  lemma PostedNone(s: Sys, e: RuntimeEvent)
    ensures RunFrom(s, PostMany(e, 0)) == s && Copies([e], 0) == []
  {
  }

  lemma PostedOne(s: Sys, e: RuntimeEvent, n: nat)
    ensures RunFrom(s, PostMany(e, n + 1)) == SendStep(PostStep(RunFrom(s, PostMany(e, n)), [e]))
  {
    RunFromSnoc(s, PostMany(e, n), Post([e]));
    RunFromSnoc(s, PostMany(e, n) + [Post([e])], Send);
    hide RunFrom, PostStep, SendStep;
  }

  lemma PilesUpOne(s: Sys, e: RuntimeEvent, batch: Batch, n: nat)
    requires !EventIsCritical(e) && n < EVENT_PUMP_QUEUE_CAPACITY
    requires Backlog(s, Posting(batch, 0), [], Copies([e], n), 1 + n)
    ensures Backlog(SendStep(PostStep(s, [e])), Posting(batch, 0), [], Copies([e], n + 1), 1 + (n + 1))
  {
    assert !EventsAreCritical([e]);
    hide EventsAreCritical;
    assert Copies([e], n) + [[e]] == Copies([e], n + 1);
  }

  lemma CollectEatsOne(s: Sys, e: RuntimeEvent, batch: Batch, m: nat, queued: int)
    requires 0 < m && |batch| < EVENT_PUMP_MAX_BATCH
    requires Backlog(s, Collecting(batch), [], Copies([e], m), queued)
    ensures Backlog(CollectStep(s), Collecting(batch + [e]), [], Copies([e], m - 1), queued)
  {
    assert Copies([e], m)[1..] == Copies([e], m - 1);
  }

  lemma CopiesAfter(first: RuntimeEvent, e: RuntimeEvent, n: nat)
    requires n > 0
    ensures [first] + Copies(e, n - 1) + [e] == [first] + Copies(e, n)
    ensures |Copies(e, n - 1)| == n - 1
  {
  }

  lemma {:induction false} CollectsEat(s: Sys, e: RuntimeEvent, first: RuntimeEvent, n: nat, m: nat, queued: int)
    requires n <= m && n < EVENT_PUMP_MAX_BATCH
    requires Backlog(s, Collecting([first]), [], Copies([e], m), queued)
    ensures Backlog(RunFrom(s, CollectMany(n)), Collecting([first] + Copies(e, n)), [], Copies([e], m - n), queued)
  {
    if n == 0 {
      assert [first] + Copies(e, 0) == [first];
    } else {
      RunFromSnoc(s, CollectMany(n - 1), Collect);
      CopiesAfter(first, e, n);
      hide RunFrom, CollectStep, Backlog, Copies;
      CollectsEat(s, e, first, n - 1, m, queued);
      CollectEatsOne(RunFrom(s, CollectMany(n - 1)), e, [first] + Copies(e, n - 1), m - (n - 1), queued);
    }
  }

  /** A preview was taken and is being posted. */
  lemma FirstPreviewIsPosted(e: RuntimeEvent)
    requires !EventIsCritical(e)
    ensures Backlog(RunFrom(INITIAL, [Post([e])] + [Send] + [EnterSelect] + [Resolve] + [Collect]),
                    Posting([e], 0), [], [], 1)
  {
    RunFromFive(INITIAL, Post([e]), Send, EnterSelect, Resolve, Collect);
    hide RunFrom, PostStep, SendStep, EnterStep, ResolveStep, CollectStep, Backlog;
    FirstPreviewEnters(e);
    FirstPreviewGoesOut(SendStep(PostStep(INITIAL, [e])), e);
  }

  lemma FirstPreviewEnters(e: RuntimeEvent)
    requires !EventIsCritical(e)
    ensures Backlog(SendStep(PostStep(INITIAL, [e])), Entering, [], [[e]], 1)
  {
    assert !EventsAreCritical([e]);
    hide EventsAreCritical;
  }

  lemma FirstPreviewGoesOut(s: Sys, e: RuntimeEvent)
    requires Backlog(s, Entering, [], [[e]], 1)
    ensures Backlog(CollectStep(ResolveStep(EnterStep(s))), Posting([e], 0), [], [], 1)
  {
    var s1 := ResolveStep(EnterStep(s));
    assert [] + [e] == [e] && [[e]][1..] == [];
    assert Backlog(s1, Collecting([e]), [], [], 1);
  }

  /** The terminal batch is posted and taken before a backlog of previews. */
  lemma TerminalIsTaken(s: Sys, e: RuntimeEvent, t: RuntimeEvent, m: nat)
    requires EventIsCritical(t)
    requires Backlog(s, Posting([e], 0), [], Copies([e], m), 1 + m)
    ensures var end := RunFrom(s, [Post([t])] + [Send] + [Reply(Acknowledged)] + [EnterSelect] + [Resolve]);
      && Backlog(end, Collecting([t]), [], Copies([e], m), 1 + m)
      && end.posted == s.posted + [[t]]
  {
    RunFromFive(s, Post([t]), Send, Reply(Acknowledged), EnterSelect, Resolve);
    hide RunFrom, PostStep, SendStep, ReplyStep, EnterStep, ResolveStep, Backlog;
    TerminalEnters(s, e, t, m);
    TerminalGoesFirst(SendStep(PostStep(s, [t])), e, t, m);
  }

  lemma TerminalEnters(s: Sys, e: RuntimeEvent, t: RuntimeEvent, m: nat)
    requires EventIsCritical(t)
    requires Backlog(s, Posting([e], 0), [], Copies([e], m), 1 + m)
    ensures var s2 := SendStep(PostStep(s, [t]));
      Backlog(s2, Posting([e], 0), [[t]], Copies([e], m), 2 + m) && s2.posted == s.posted + [[t]]
  {
    assert t in [t];
    assert EventsAreCritical([t]);
    hide EventsAreCritical, Copies;
    assert [] + [[t]] == [[t]];
  }

  lemma TerminalGoesFirst(s: Sys, e: RuntimeEvent, t: RuntimeEvent, m: nat)
    requires Backlog(s, Posting([e], 0), [[t]], Copies([e], m), 2 + m)
    ensures var end := ResolveStep(EnterStep(ReplyStep(s, Acknowledged)));
      Backlog(end, Collecting([t]), [], Copies([e], m), 1 + m) && end.posted == s.posted
  {
    hide Copies;
    assert [] + [t] == [t] && [[t]][1..] == [];
  }

  const CLOSING := [Collect] + [Reply(Acknowledged)] + [EnterSelect] + [ClosePreview] + [CloseCritical] + [Resolve]

  /** With a full batch the pump posts, parks over the rest, and the sink is dropped just then. */
  lemma CloseRacesTheSelect(s: Sys, e: RuntimeEvent, batch: Batch, queued: int)
    requires |batch| == EVENT_PUMP_MAX_BATCH && Backlog(s, Collecting(batch), [], [[e]], queued)
    ensures var end := RunFrom(s, CLOSING);
      && end.pump == Exited && end.preview == [[e]] && end.critical == [] && end.queued == queued - EVENT_PUMP_MAX_BATCH
      && end.posted == s.posted && end.racedClose && end.outcomes == s.outcomes + [Outcome(batch, true)]
  {
    RunFromSix(s, Collect, Reply(Acknowledged), EnterSelect, ClosePreview, CloseCritical, Resolve);
    hide RunFrom, CollectStep, ReplyStep, EnterStep, CloseStep, ResolveStep, Backlog;
    ParksOverTheRest(s, e, batch, queued);
    SenderLeavesParkedPump(EnterStep(ReplyStep(CollectStep(s), Acknowledged)), e, queued - EVENT_PUMP_MAX_BATCH);
  }

  lemma ParksOverTheRest(s: Sys, e: RuntimeEvent, batch: Batch, queued: int)
    requires |batch| == EVENT_PUMP_MAX_BATCH && Backlog(s, Collecting(batch), [], [[e]], queued)
    ensures var parked := EnterStep(ReplyStep(CollectStep(s), Acknowledged));
      && Backlog(parked, Selecting(true, true), [], [[e]], queued - EVENT_PUMP_MAX_BATCH)
      && parked.posted == s.posted && parked.outcomes == s.outcomes + [Outcome(batch, true)]
  {
  }

  lemma SenderLeavesParkedPump(s: Sys, e: RuntimeEvent, queued: int)
    requires Backlog(s, Selecting(true, true), [], [[e]], queued)
    ensures var end := ResolveStep(CloseStep(CloseStep(s, false), true));
      && end.pump == Exited && end.preview == [[e]] && end.critical == [] && end.queued == queued
      && end.posted == s.posted && end.racedClose && end.outcomes == s.outcomes
  {
  }

  /** The whole turn: a preview in flight, 128 more behind it, the terminal signal, and the close. */
  function StrandingTurn(e: RuntimeEvent, t: RuntimeEvent): seq<Action> {
    [Post([e])] + [Send] + [EnterSelect] + [Resolve] + [Collect]
    + PostMany(e, EVENT_PUMP_MAX_BATCH)
    + ([Post([t])] + [Send] + [Reply(Acknowledged)] + [EnterSelect] + [Resolve])
    + CollectMany(EVENT_PUMP_MAX_BATCH - 1)
    + CLOSING
  }

  lemma {:induction false} CollectingPostsNothing(s: Sys, n: nat)
    ensures RunFrom(s, CollectMany(n)).posted == s.posted
  {
    hide *;
    if n == 0 {
      CollectedNone(s);
    } else {
      CollectedOne(s, n - 1);
      CollectingPostsNothing(s, n - 1);
    }
  }

  lemma CollectedNone(s: Sys)
    ensures RunFrom(s, CollectMany(0)) == s
  {
  }

  lemma CollectedOne(s: Sys, n: nat)
    ensures RunFrom(s, CollectMany(n + 1)).posted == RunFrom(s, CollectMany(n)).posted
  {
    RunFromSnoc(s, CollectMany(n), Collect);
    hide RunFrom, CollectStep;
    CollectStepPostsNothing(RunFrom(s, CollectMany(n)));
  }

  lemma CollectStepPostsNothing(s: Sys)
    ensures CollectStep(s).posted == s.posted
  {
  }

  /**
   The raced close happens in a run that posts its terminal signal last: the signal is delivered, a
   preview is stranded behind it, and the counter stays at one.
   */
  lemma ExitCanStrandAPreview(e: RuntimeEvent, t: RuntimeEvent)
    requires !EventIsCritical(e) && EventIsCritical(t)
    ensures var s := Run(StrandingTurn(e, t));
      && s.pump.Exited? && s.preview == [[e]] && s.queued == 1 && s.racedClose
      && s.posted != [] && s.posted[|s.posted| - 1] == [t]
      && (exists o | o in s.outcomes :: o.delivered && t in o.batch)
  {
    var n := EVENT_PUMP_MAX_BATCH;
    var a1 := [Post([e])] + [Send] + [EnterSelect] + [Resolve] + [Collect];
    var a2 := PostMany(e, n);
    var a3 := [Post([t])] + [Send] + [Reply(Acknowledged)] + [EnterSelect] + [Resolve];
    var a4 := CollectMany(n - 1);
    RunIsRunFrom(StrandingTurn(e, t));
    RunFromAppend(INITIAL, a1, a2);
    RunFromAppend(INITIAL, a1 + a2, a3);
    RunFromAppend(INITIAL, a1 + a2 + a3, a4);
    RunFromAppend(INITIAL, a1 + a2 + a3 + a4, CLOSING);
    FirstPreviewIsPosted(e);
    hide Run, RunFrom, PostMany, CollectMany, CLOSING, EventIsCritical;
    var s1 := RunFrom(INITIAL, a1);
    PostsPileUp(s1, e, [e], n);
    var s2 := RunFrom(s1, a2);
    TerminalIsTaken(s2, e, t, n);
    var s3 := RunFrom(s2, a3);
    CollectsEat(s3, e, t, n - 1, n, 1 + n);
    CollectingPostsNothing(s3, n - 1);
    var s4 := RunFrom(s3, a4);
    assert Copies([e], 1) == [[e]];
    CloseRacesTheSelect(s4, e, [t] + Copies(e, n - 1), 1 + n);
    assert Outcome([t] + Copies(e, n - 1), true) in RunFrom(s4, CLOSING).outcomes;
  }

  lemma RunSnoc(actions: seq<Action>, a: Action)
    ensures Run(actions + [a]) == Step(Run(actions), a)
  {
    assert (actions + [a])[..|actions|] == actions;
  }

  // ---------------------------------------------------------------------------------------------
  // What the pump takes
  // ---------------------------------------------------------------------------------------------

  /**
   In every run a pump in `select!` takes the oldest critical batch if there is one; the oldest preview
   only if there is none and the critical lane may still deliver, or had nothing left when it was armed;
   and it parks exactly while both lanes are empty and some sender is left.
   */
  lemma SelectExactly(actions: seq<Action>)
    requires Run(actions).pump.Selecting?
    ensures var s, s' := Run(actions), Step(Run(actions), Resolve);
      if s.critical != [] then
        s' == s.(critical := s.critical[1..], taken := s.taken + [s.critical[0]], pump := Collecting(s.critical[0]))
      else if s.pump.criticalArmed && !s.criticalOpen then
        s' == s.(pump := if s.previewOpen then Entering else Exited)
      else if s.preview != [] then
        s' == s.(preview := s.preview[1..], taken := s.taken + [s.preview[0]], pump := Collecting(s.preview[0]))
      else if s.previewOpen || (s.criticalOpen && !s.pump.previewArmed) then s' == s
      else s'.pump == (if s.criticalOpen then Entering else Exited) && s' == s.(pump := s'.pump)
  {
    InvRun(actions);
    var s := Run(actions);
    assert Bounded(s);
    hide Run, Inv;
    assert s.critical != [] ==> [] + s.critical[0] == s.critical[0];
    assert s.preview != [] ==> [] + s.preview[0] == s.preview[0];
  }

  /** While it coalesces it takes a preview only when no critical batch waits. */
  lemma PreviewsYield(actions: seq<Action>, a: Action)
    requires |Step(Run(actions), a).preview| < |Run(actions).preview|
    ensures Run(actions).critical == []
  {
    InvRun(actions);
    var s := Run(actions);
    assert Bounded(s);
    hide Run, Inv, PostStep, SendStep, RefundStep, CloseStep, EnterStep, ResolveStep, CollectStep, ReplyStep, AbortStep;
    match a
    case Resolve => ResolveYields(s);
    case Collect => CollectYields(s);
    case Reply(answer) => OthersTakeNothing(s, answer, []);
    case Post(batch) => OthersTakeNothing(s, Final, batch);
    case _ => OthersTakeNothing(s, Final, []);
  }

  lemma ResolveYields(s: Sys)
    requires Bounded(s) && |ResolveStep(s).preview| < |s.preview|
    ensures s.critical == []
  {
  }

  lemma CollectYields(s: Sys)
    requires |CollectStep(s).preview| < |s.preview|
    ensures s.critical == []
  {
  }

  lemma OthersTakeNothing(s: Sys, answer: Answer, batch: Batch)
    ensures |s.preview| <= |SendStep(s).preview|
    ensures forall s' | s' in {PostStep(s, batch), RefundStep(s), CloseStep(s, false), CloseStep(s, true), EnterStep(s),
                               ReplyStep(s, answer), AbortStep(s)} :: s'.preview == s.preview
  {
    hide EventsAreCritical, InFlight;
  }

  // ---------------------------------------------------------------------------------------------
  // The pump finishes
  // ---------------------------------------------------------------------------------------------

  predicate NoSenders(s: Sys) {
    !s.previewOpen && !s.criticalOpen
  }

  /** How far the pump is from its exit once no sender is left. */
  function PumpRank(s: Sys): nat {
    10 * (|s.critical| + |s.preview|) +
    match s.pump
    case Collecting(_) => 7
    case Posting(_, attempt) => 3 + if attempt < ATTEMPTS then ATTEMPTS - attempt else 0
    case Entering => 2
    case Selecting(_, _) => 1
    case _ => 0
  }

  /** The pump's next step; the answer matters only while it posts. */
  function OwnAction(s: Sys, answer: Answer): Action {
    match s.pump
    case Entering => EnterSelect
    case Selecting(_, _) => Resolve
    case Collecting(_) => Collect
    case _ => Reply(answer)
  }

  lemma OwnStepAdvances(s: Sys, answer: Answer)
    requires NoSenders(s) && ReceiverOpen(s)
    ensures var s' := Step(s, OwnAction(s, answer));
      NoSenders(s') && !s'.pump.Aborted? && PumpRank(s') < PumpRank(s)
  {
  }

  lemma OtherStepsWait(s: Sys, a: Action)
    requires s.poster.Idle? && NoSenders(s)
    requires a.Post? || a.Send? || a.Refund? || a.ClosePreview? || a.CloseCritical?
    ensures Step(s, a).(racedClose := s.racedClose) == s
  {
  }

  lemma ResolveAdvances(s: Sys)
    requires NoSenders(s)
    ensures PumpRank(ResolveStep(s)) < PumpRank(s) || ResolveStep(s) == s
    ensures PumpRank(CollectStep(s)) < PumpRank(s) || CollectStep(s) == s
    ensures NoSenders(ResolveStep(s)) && NoSenders(CollectStep(s))
  {
  }

  lemma ReplyAdvances(s: Sys, answer: Answer)
    requires NoSenders(s)
    ensures PumpRank(ReplyStep(s, answer)) < PumpRank(s) || ReplyStep(s, answer) == s
    ensures PumpRank(EnterStep(s)) < PumpRank(s) || EnterStep(s) == s
    ensures NoSenders(ReplyStep(s, answer)) && NoSenders(EnterStep(s)) && NoSenders(AbortStep(s))
    ensures AbortStep(s).pump.Aborted? || AbortStep(s) == s
  {
  }

  /**
   Nobody else delays a pump without senders: every step of any task leaves its rank alone or lowers
   it, or kills the pump.
   */
  lemma ClosedPumpOnlyAdvances(s: Sys, a: Action)
    requires Inv(s) && NoSenders(s)
    ensures var s' := Step(s, a);
      && NoSenders(s')
      && (s'.pump.Aborted? || PumpRank(s') < PumpRank(s)
          || (s'.pump == s.pump && s'.critical == s.critical && s'.preview == s.preview))
  {
    assert s.poster.Idle?;
    hide Inv, PumpRank, EnterStep, ResolveStep, CollectStep, ReplyStep, AbortStep, PostStep, SendStep, RefundStep, CloseStep;
    match a
    case EnterSelect => ReplyAdvances(s, Final);
    case Resolve => ResolveAdvances(s);
    case Collect => ResolveAdvances(s);
    case Reply(answer) => ReplyAdvances(s, answer);
    case Abort => ReplyAdvances(s, Final);
    case _ => OtherStepsWait(s, a);
  }

  /** The pump's own steps, with these answers whenever the server is asked. */
  function Drive(s: Sys, answers: seq<Answer>): Sys
    decreases |answers|
  {
    if answers == [] || !ReceiverOpen(s) then s
    else Drive(Step(s, OwnAction(s, answers[0])), answers[1..])
  }

  lemma {:induction false} DriveExits(s: Sys, answers: seq<Answer>)
    requires NoSenders(s) && !s.pump.Aborted? && |answers| >= PumpRank(s)
    ensures Drive(s, answers).pump.Exited?
    decreases |answers|
  {
    hide Step, OwnAction;
    if ReceiverOpen(s) {
      OwnStepAdvances(s, answers[0]);
      DriveExits(Step(s, OwnAction(s, answers[0])), answers[1..]);
    }
  }

  lemma {:induction false} DriveIsARun(actions: seq<Action>, answers: seq<Answer>) returns (more: seq<Action>)
    ensures Run(actions + more) == Drive(Run(actions), answers)
    ensures forall a | a in more :: a.EnterSelect? || a.Resolve? || a.Collect? || a.Reply?
    decreases |answers|
  {
    hide Run, Step;
    if answers == [] || !ReceiverOpen(Run(actions)) {
      more := [];
      assert actions + more == actions;
    } else {
      var a := OwnAction(Run(actions), answers[0]);
      RunSnoc(actions, a);
      hide OwnAction;
      var rest := DriveIsARun(actions + [a], answers[1..]);
      more := [a] + rest;
      assert actions + more == actions + [a] + rest;
    }
  }

  /**
   From every reachable state without senders, unless the pump was killed: its own steps alone reach
   the exit, whatever the server answers, after at most as many steps as the rank says.
   */
  lemma ClosedPumpExits(actions: seq<Action>, answers: seq<Answer>) returns (more: seq<Action>)
    requires NoSenders(Run(actions)) && !Run(actions).pump.Aborted? && |answers| >= PumpRank(Run(actions))
    ensures Run(actions + more) == Drive(Run(actions), answers) && Run(actions + more).pump.Exited?
    ensures forall a | a in more :: a.EnterSelect? || a.Resolve? || a.Collect? || a.Reply?
  {
    hide Run, Drive;
    DriveExits(Run(actions), answers);
    more := DriveIsARun(actions, answers);
  }

  // ---------------------------------------------------------------------------------------------
  // The pump's own two loops
  // ---------------------------------------------------------------------------------------------

  /** The pump left alone after its first batch: it collects until it starts posting. */
  function CollectAll(s: Sys): Sys
    decreases |s.critical| + |s.preview|, if s.pump.Collecting? then 1 else 0
  {
    if s.pump.Collecting? then CollectAll(CollectStep(s)) else s
  }

  /** With `i` critical and `j` preview batches joined, no preview overtook and none came too late. */
  predicate Unfilled(first: Batch, critical: seq<Batch>, preview: seq<Batch>, i: nat, j: nat)
    requires i <= |critical| && j <= |preview|
  {
    && (j > 0 ==> i == |critical|)
    && (forall k: nat | k < i :: |first + Flatten(critical[..k])| < EVENT_PUMP_MAX_BATCH)
    && (forall k: nat | k < j :: |first + Flatten(critical) + Flatten(preview[..k])| < EVENT_PUMP_MAX_BATCH)
  }

  /** And then the batch is full or nothing is left. */
  predicate CollectedExactly(first: Batch, critical: seq<Batch>, preview: seq<Batch>, i: nat, j: nat)
    requires i <= |critical| && j <= |preview|
  {
    && Unfilled(first, critical, preview, i, j)
    && ((i == |critical| && j == |preview|)
        || |first + Flatten(critical[..i]) + Flatten(preview[..j])| >= EVENT_PUMP_MAX_BATCH)
  }

  lemma UnfilledAtFirst(first: Batch, c: seq<Batch>, p: seq<Batch>)
    ensures Unfilled(first, c, p, 0, 0)
  {
  }

  lemma JoinCritical(first: Batch, c: seq<Batch>, p: seq<Batch>, i: nat)
    requires i < |c|
    requires Unfilled(first, c, p, i, 0)
    requires |first + Flatten(c[..i]) + Flatten(p[..0])| < EVENT_PUMP_MAX_BATCH
    ensures Unfilled(first, c, p, i + 1, 0)
    ensures first + Flatten(c[..i]) + Flatten(p[..0]) + c[i] == first + Flatten(c[..i + 1]) + Flatten(p[..0])
  {
    assert c[..i + 1] == c[..i] + [c[i]];
    FlattenSnoc(c[..i], c[i]);
    assert Flatten(p[..0]) == [];
  }

  lemma JoinPreview(first: Batch, c: seq<Batch>, p: seq<Batch>, j: nat)
    requires j < |p|
    requires Unfilled(first, c, p, |c|, j)
    requires |first + Flatten(c[..|c|]) + Flatten(p[..j])| < EVENT_PUMP_MAX_BATCH
    ensures Unfilled(first, c, p, |c|, j + 1)
    ensures first + Flatten(c[..|c|]) + Flatten(p[..j]) + p[j] == first + Flatten(c[..|c|]) + Flatten(p[..j + 1])
  {
    hide Flatten;
    assert p[..j + 1] == p[..j] + [p[j]];
    FlattenSnoc(p[..j], p[j]);
    assert c[..|c|] == c;
  }

  /** Those bounds leave no choice. */
  lemma CollectedIsUnique(first: Batch, critical: seq<Batch>, preview: seq<Batch>, i: nat, j: nat, i': nat, j': nat)
    requires i <= |critical| && j <= |preview| && i' <= |critical| && j' <= |preview|
    requires CollectedExactly(first, critical, preview, i, j)
    requires CollectedExactly(first, critical, preview, i', j')
    ensures i == i' && j == j'
  {
    hide Flatten;
    FlattenNone();
    assert critical[..|critical|] == critical && preview[..0] == [];
    assert first + Flatten(critical[..i]) + [] == first + Flatten(critical[..i]);
    assert first + Flatten(critical[..i']) + [] == first + Flatten(critical[..i']);
  }

  /** The fields the pump task owns while it runs. */
  class PumpTask {
    var critical: seq<Batch>
    var preview: seq<Batch>
    var queued: int

    constructor ()
      ensures critical == [] && preview == [] && queued == 0
    {
      critical, preview, queued := [], [], 0;
    }

    /** Coalesce what is waiting behind the first batch, critical batches first. */
    method CollectBatch(first: Batch) returns (events: Batch, i: nat, j: nat)
      modifies `critical, `preview
      ensures i <= |old(critical)| && j <= |old(preview)|
      ensures critical == old(critical)[i..] && preview == old(preview)[j..]
      ensures events == first + Flatten(old(critical)[..i]) + Flatten(old(preview)[..j])
      ensures CollectedExactly(first, old(critical), old(preview), i, j)
    {
      events, i, j := first, 0, 0;
      ghost var c, p := critical, preview;
      FlattenNone();
      hide Flatten, Unfilled;
      UnfilledAtFirst(first, c, p);
      while |events| < EVENT_PUMP_MAX_BATCH
        invariant i <= |c| && j <= |p| && critical == c[i..] && preview == p[j..]
        invariant events == first + Flatten(c[..i]) + Flatten(p[..j])
        invariant j > 0 ==> i == |c|
        invariant Unfilled(first, c, p, i, j)
        decreases |critical| + |preview|
      {
        if critical != [] {
          JoinCritical(first, c, p, i);
          events := events + critical[0];
          critical, i := critical[1..], i + 1;
        } else if preview != [] {
          JoinPreview(first, c, p, j);
          events := events + preview[0];
          preview, j := preview[1..], j + 1;
        } else {
          break;
        }
      }
    }

    /** Up to three attempts to hand over a batch; the counter gives it up exactly once. */
    method PostBatch(events: Batch, answers: seq<Answer>) returns (delivered: bool)
      requires |answers| == ATTEMPTS
      modifies `queued
      ensures queued == old(queued) - |events|
      ensures delivered <==> Delivers(answers)
    {
      delivered := false;
      var attempt := 0;
      while attempt < ATTEMPTS
        invariant 0 <= attempt <= ATTEMPTS && !delivered && queued == old(queued)
        invariant forall k | 0 <= k < attempt :: answers[k].Retryable?
      {
        if answers[attempt].Acknowledged? {
          queued := queued - |events|;
          delivered := true;
          break;
        }
        if answers[attempt].Final? {
          break;
        }
        attempt := attempt + 1;
      }
      if !delivered {
        queued := queued - |events|;
      }
    }
  }

  /** Some attempt was acknowledged and all before it could be retried. */
  predicate Delivers(answers: seq<Answer>)
    requires |answers| == ATTEMPTS
  {
    exists k | 0 <= k < ATTEMPTS :: answers[k].Acknowledged? && forall j | 0 <= j < k :: answers[j].Retryable?
  }

  /** The pump answered by the server until it is done with its batch. */
  function AnswerAll(s: Sys, answers: seq<Answer>): Sys
    decreases |answers|
  {
    if answers == [] || !s.pump.Posting? then s else AnswerAll(ReplyStep(s, answers[0]), answers[1..])
  }

  /** The loop above does to the counter what the pump's steps do, with the same outcome. */
  lemma StepsPostLikeTheLoop(s: Sys, answers: seq<Answer>)
    requires |answers| == ATTEMPTS && s.pump.Posting? && s.pump.attempt == 0
    ensures AnswerAll(s, answers) == FinishStep(s, Delivers(answers))
  {
    var rest, last := answers[1..], answers[1..][1..];
    assert last[1..] == [];
    assert rest[0] == answers[1] && last[0] == answers[2];
    var s1, s2 := s.(pump := Posting(s.pump.batch, 1)), s.(pump := Posting(s.pump.batch, 2));
    assert AnswerAll(s, answers) == AnswerAll(ReplyStep(s, answers[0]), rest);
    assert AnswerAll(s1, rest) == AnswerAll(ReplyStep(s1, rest[0]), last);
    assert AnswerAll(s2, last) == ReplyStep(s2, last[0]);
    DeliversCases(answers);
    hide Delivers;
  }

  lemma DeliversCases(answers: seq<Answer>)
    requires |answers| == ATTEMPTS
    ensures Delivers(answers) == match answers[0] {
      case Acknowledged => true
      case Final => false
      case Retryable => answers[1].Acknowledged? || (answers[1].Retryable? && answers[2].Acknowledged?)
    }
  {
    if answers[0].Retryable? && answers[1].Retryable? && answers[2].Acknowledged? {
      assert forall j | 0 <= j < 2 :: answers[j].Retryable?;
    }
  }

  /** Left alone, the pump's collecting steps also take exactly those batches. */
  lemma {:induction false} StepsCollectLikeTheLoop(s: Sys, first: Batch, c: seq<Batch>, p: seq<Batch>, i: nat, j: nat)
      returns (m: nat, n: nat)
    requires s.pump.Collecting? && i <= |c| && j <= |p| && s.critical == c[i..] && s.preview == p[j..]
    requires s.pump.batch == first + Flatten(c[..i]) + Flatten(p[..j])
    requires Unfilled(first, c, p, i, j) && (j > 0 ==> i == |c|)
    ensures m <= |c| && n <= |p| && CollectedExactly(first, c, p, m, n)
    ensures CollectAll(s).pump == Posting(first + Flatten(c[..m]) + Flatten(p[..n]), 0)
    ensures CollectAll(s).critical == c[m..] && CollectAll(s).preview == p[n..]
    decreases |c| - i + |p| - j
  {
    hide Flatten, Unfilled;
    if |s.pump.batch| >= EVENT_PUMP_MAX_BATCH || (i == |c| && j == |p|) {
      m, n := i, j;
      assert CollectAll(s) == CollectAll(CollectStep(s));
    } else if i < |c| {
      JoinCritical(first, c, p, i);
      m, n := StepsCollectLikeTheLoop(TakeCritical(s, s.pump.batch), first, c, p, i + 1, j);
    } else {
      JoinPreview(first, c, p, j);
      m, n := StepsCollectLikeTheLoop(TakePreview(s, s.pump.batch), first, c, p, i, j + 1);
    }
  }
}
