/**
 Writers of one turn claim (engine/src/turn_claims.rs). Every writer reads the whole record, changes
 some fields and renames a new file into place; nothing orders one writer against another.

 A log of the renames is enough to say which fields survive. The fields here are the cancel mark, set
 by interrupts, and everything else, set by the one monitor of the turn, whose own writes take turns.
 */
module ClaimWrites {

  /** A rename of a record that was read when the log had `readAt` entries. */
  datatype Write = Write(readAt: nat, marks: bool)

  predicate ReadsPrecede(log: seq<Write>) {
    forall i | 0 <= i < |log| :: log[i].readAt <= i
  }

  /** A write of the monitor starts after its previous one ended. */
  predicate TakeTurns(log: seq<Write>) {
    forall i, j | 0 <= i < j < |log| && !log[i].marks && !log[j].marks :: i < log[j].readAt
  }

  /** Whether the record is marked once the log has `n` entries. */
  predicate Marked(log: seq<Write>, n: nat)
    requires ReadsPrecede(log) && n <= |log|
    decreases n
  {
    n > 0 && (log[n - 1].marks || Marked(log, log[n - 1].readAt))
  }

  /** A write that read the record before the m-th write replaced it after. */
  predicate Overwritten(log: seq<Write>, m: nat, n: nat)
    requires n <= |log|
  {
    exists r | m < r < n :: !log[r].marks && log[r].readAt <= m
  }

  /** No entry before the n-th left a mark that is still there. */
  predicate AllOverwritten(log: seq<Write>, n: nat)
    requires n <= |log|
  {
    forall m | 0 <= m < n && log[m].marks :: Overwritten(log, m, n)
  }

  lemma {:induction false} MarkedPrefix(log: seq<Write>, w: Write, n: nat)
    requires ReadsPrecede(log) && ReadsPrecede(log + [w]) && n <= |log|
    ensures Marked(log + [w], n) == Marked(log, n)
    decreases n
  {
    if n > 0 {
      assert (log + [w])[n - 1] == log[n - 1];
      MarkedPrefix(log, w, log[n - 1].readAt);
    }
  }

  /**
   A mark is missing from the record if and only if every mark written was overwritten by a write of
   the monitor that had read the record before it.
   */
  lemma {:induction false} MarkMissingExactly(log: seq<Write>, n: nat)
    requires ReadsPrecede(log) && TakeTurns(log) && n <= |log|
    ensures !Marked(log, n) <==> AllOverwritten(log, n)
    decreases n
  {
    if n > 0 && log[n - 1].marks {
      assert !Overwritten(log, n - 1, n);
    } else if n > 0 {
      var k := log[n - 1].readAt;
      MarkMissingExactly(log, k);
      assert forall m | k <= m < n - 1 :: Overwritten(log, m, n);
      forall m | 0 <= m < k && log[m].marks
        ensures Overwritten(log, m, n) <==> Overwritten(log, m, k)
      {
        assert forall r | k <= r < n - 1 && !log[r].marks :: !(r < log[n - 1].readAt);
      }
    }
  }
}
