/**
 Debounced loss of ownership (engine/src/codex_bridge_ownership.rs, `evaluate` and
 `OwnershipWatch`), against a specification on the whole history of checks.
 */
module OwnershipWatch {
  import opened Wrappers

  datatype BridgeOwner = Headless | Terminal | Wrapper | Unprovable

  datatype Inputs = Inputs(
    headlessLaunch: bool,
    terminalAttached: bool,
    ownerRecorded: bool,
    ownerAlive: bool,
    threadPresent: bool)

  const UNOWNED_OBSERVATIONS_BEFORE_EXIT: nat := 3
  const U32_MAX: nat := 0xFFFF_FFFF

  function Evaluate(i: Inputs): Option<BridgeOwner> {
    if i.headlessLaunch then Some(Headless)
    else if i.terminalAttached then Some(Terminal)
    else if !i.ownerRecorded then if i.threadPresent then Some(Unprovable) else None
    else if i.ownerAlive then Some(Wrapper)
    else None
  }

  predicate Unowned(i: Inputs) {
    Evaluate(i).None?
  }

  /** Debris is exactly a bridge nobody watches whose recorded owner is gone, or that never got anywhere. */
  lemma UnownedMeaning(i: Inputs)
    ensures Unowned(i) <==>
      && !i.headlessLaunch && !i.terminalAttached
      && (if i.ownerRecorded then !i.ownerAlive else !i.threadPresent)
  {
  }

  /** Who is said to own the bridge: the first of these for which there is evidence, and nobody without any. */
  lemma OwnerExactly(i: Inputs)
    ensures Evaluate(i) == Some(Headless) <==> i.headlessLaunch
    ensures Evaluate(i) == Some(Terminal) <==> i.terminalAttached && !i.headlessLaunch
    ensures Evaluate(i) == Some(Wrapper) <==>
              i.ownerRecorded && i.ownerAlive && !i.headlessLaunch && !i.terminalAttached
    ensures Evaluate(i) == Some(Unprovable) <==>
              i.threadPresent && !i.ownerRecorded && !i.headlessLaunch && !i.terminalAttached
  {
  }

  /** More evidence of an owner never makes a bridge debris; learning who launched it can. */
  lemma EvidenceOnlyHelps(i: Inputs, j: Inputs)
    requires i.headlessLaunch ==> j.headlessLaunch
    requires i.terminalAttached ==> j.terminalAttached
    requires i.ownerRecorded == j.ownerRecorded && (i.ownerAlive ==> j.ownerAlive)
    requires i.threadPresent ==> j.threadPresent
    ensures Unowned(j) ==> Unowned(i)
  {
  }

  // ---------------------------------------------------------------------------------------------
  // The counter
  // ---------------------------------------------------------------------------------------------

  /** One check: an observation, or a process scan that failed. */
  datatype Check = Observed(inputs: Inputs) | ScanFailed

  function NextCount(count: nat, c: Check): nat {
    match c
    case ScanFailed => count
    case Observed(i) => if !Unowned(i) then 0 else if count < U32_MAX then count + 1 else U32_MAX
  }

  function Count(history: seq<Check>): nat {
    if history == [] then 0 else NextCount(Count(history[..|history| - 1]), history[|history| - 1])
  }

  /** What `observe` answers to the next observation. */
  function Answer(history: seq<Check>, i: Inputs): bool {
    Unowned(i) && Count(history + [Observed(i)]) >= UNOWNED_OBSERVATIONS_BEFORE_EXIT
  }

  // ---------------------------------------------------------------------------------------------
  // The specification
  // ---------------------------------------------------------------------------------------------

  /** The observations that succeeded. */
  function Successes(history: seq<Check>): seq<Inputs> {
    if history == [] then []
    else
      var rest := Successes(history[..|history| - 1]);
      match history[|history| - 1]
      case Observed(i) => rest + [i]
      case ScanFailed => rest
  }

  /** The last three are all unowned. */
  predicate LastThreeUnowned(seen: seq<Inputs>) {
    |seen| >= 3 && forall k | |seen| - 3 <= k < |seen| :: Unowned(seen[k])
  }

  /** Length of the unowned run at the end. */
  function Trailing(seen: seq<Inputs>): nat {
    if seen != [] && Unowned(seen[|seen| - 1]) then Trailing(seen[..|seen| - 1]) + 1 else 0
  }

  lemma {:induction false} TrailingMeaning(seen: seq<Inputs>, n: nat)
    ensures Trailing(seen) >= n <==> n <= |seen| && forall k | |seen| - n <= k < |seen| :: Unowned(seen[k])
  {
    hide Unowned;
    if n > 0 && seen != [] {
      TrailingMeaning(seen[..|seen| - 1], n - 1);
      assert forall k | 0 <= k < |seen| - 1 :: seen[..|seen| - 1][k] == seen[k];
    }
  }

  lemma {:induction false} CountIsTrailing(history: seq<Check>)
    ensures Count(history) == if Trailing(Successes(history)) <= U32_MAX then Trailing(Successes(history)) else U32_MAX
  {
    hide Unowned;
    if history != [] {
      var n := |history| - 1;
      CountIsTrailing(history[..n]);
      if history[n].Observed? {
        assert Successes(history)[..|Successes(history)| - 1] == Successes(history[..n]);
      }
    }
  }

  lemma SuccessesSnoc(history: seq<Check>, i: Inputs)
    ensures Successes(history + [Observed(i)]) == Successes(history) + [i]
  {
    assert (history + [Observed(i)])[..|history|] == history;
  }

  /**
   For every history of checks, the watch trips on an observation exactly when it and the two
   successful observations before it are all unowned.
   */
  lemma TripsExactly(history: seq<Check>, i: Inputs)
    ensures Answer(history, i) <==> LastThreeUnowned(Successes(history) + [i])
  {
    SuccessesSnoc(history, i);
    CountIsTrailing(history + [Observed(i)]);
    TrailingMeaning(Successes(history) + [i], 3);
    hide Unowned, Count, Trailing, Successes;
    var seen := Successes(history) + [i];
    assert seen[|seen| - 1] == i;
  }

  /** Erasing every failed scan changes no answer. */
  lemma FailedScansAreInvisible(a: seq<Check>, b: seq<Check>, i: Inputs)
    requires Successes(a) == Successes(b)
    ensures Answer(a, i) == Answer(b, i)
  {
    TripsExactly(a, i);
    TripsExactly(b, i);
  }

  /** One owned observation means at least three more checks before the watch can trip. */
  lemma OwnershipResets(history: seq<Check>, owned: Inputs, later: seq<Check>, i: Inputs)
    requires !Unowned(owned) && Answer(history + [Observed(owned)] + later, i)
    ensures |Successes(later)| >= 2
  {
    TripsExactly(history + [Observed(owned)] + later, i);
    SuccessesAppend(history + [Observed(owned)], later);
    SuccessesSnoc(history, owned);
    hide Unowned, Count, Answer;
    var before := Successes(history);
    var seen := before + [owned] + Successes(later) + [i];
    assert seen[|before|] == owned;
  }

  lemma {:induction false} SuccessesAppend(a: seq<Check>, b: seq<Check>)
    ensures Successes(a + b) == Successes(a) + Successes(b)
  {
    if b == [] {
      assert a + b == a;
    } else {
      var n := |b| - 1;
      SuccessesAppend(a, b[..n]);
      assert (a + b)[..|a| + n] == a + b[..n];
    }
  }

  /** The watch itself. */
  class Watch {
    var consecutiveUnowned: nat

    constructor ()
      ensures consecutiveUnowned == Count([])
    {
      consecutiveUnowned := 0;
    }

    method Observe(inputs: Inputs, ghost history: seq<Check>) returns (trip: bool)
      requires consecutiveUnowned == Count(history)
      modifies this
      ensures consecutiveUnowned == Count(history + [Observed(inputs)])
      ensures trip <==> LastThreeUnowned(Successes(history) + [inputs])
    {
      TripsExactly(history, inputs);
      CountIsTrailing(history);
      assert (history + [Observed(inputs)])[..|history|] == history;
      var owner := Evaluate(inputs);
      if owner.Some? {
        consecutiveUnowned := 0;
        return false;
      }
      if consecutiveUnowned < U32_MAX {
        consecutiveUnowned := consecutiveUnowned + 1;
      }
      return consecutiveUnowned >= UNOWNED_OBSERVATIONS_BEFORE_EXIT;
    }

    method ObservationFailed(ghost history: seq<Check>)
      requires consecutiveUnowned == Count(history)
      ensures consecutiveUnowned == Count(history + [ScanFailed])
    {
      assert (history + [ScanFailed])[..|history|] == history;
    }
  }
}
