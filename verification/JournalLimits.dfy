/**
 What the reader's line limit means for a journal that is written without one (internal/core/store.go,
 replay and commit).
 */
module JournalLimits {
  import opened Wrappers
  import opened Journal
  import opened JournalOps
  import opened JournalRefinement
  import opened LineLimits

  /** What an operation adds to the file. */
  function Line(mem: State, op: Op): seq<Record> {
    if op.Reopen? || op.PruneRevocations? then []
    else
      match Decide(mem, op)
      case Commit(r) => [Encode(r)]
      case _ => []
  }

  /** The line that the i-th operation of a run writes, if it writes one, fits the reader's buffer. */
  ghost predicate CommitFits(ops: seq<Op>, i: nat, size: Record -> nat)
    requires i < |ops|
  {
    Readable(Line(Run(INITIAL, ops[..i]).mem, ops[i]), size, JOURNAL_LINE)
  }

  lemma FileGrowsByLine(sys: System, op: Op)
    ensures Exec(sys, op).file == sys.file + Line(sys.mem, op)
  {
  }

  lemma ReadableConcat<T>(a: seq<T>, b: seq<T>, size: T -> nat, limit: nat)
    ensures Readable(a + b, size, limit) <==> Readable(a, size, limit) && Readable(b, size, limit)
  {
    if Readable(a + b, size, limit) {
      forall i | 0 <= i < |b| ensures size(b[i]) <= limit {
        assert (a + b)[|a| + i] == b[i];
      }
      forall i | 0 <= i < |a| ensures size(a[i]) <= limit {
        assert (a + b)[i] == a[i];
      }
    }
  }

  lemma CommitFitsInPrefix(ops: seq<Op>, n: nat, i: nat, size: Record -> nat)
    requires i < n <= |ops|
    ensures CommitFits(ops[..n], i, size) <==> CommitFits(ops, i, size)
  {
    assert ops[..n][..i] == ops[..i];
  }

  ghost predicate AllCommitsFit(ops: seq<Op>, size: Record -> nat) {
    forall i :: 0 <= i < |ops| ==> CommitFits(ops, i, size)
  }

  lemma OneMoreCommit(ops: seq<Op>, n: nat, size: Record -> nat)
    requires |ops| == n + 1
    ensures AllCommitsFit(ops, size) <==> AllCommitsFit(ops[..n], size) && CommitFits(ops, n, size)
  {
    forall i | 0 <= i < n ensures CommitFits(ops[..n], i, size) <==> CommitFits(ops, i, size) {
      CommitFitsInPrefix(ops, n, i, size);
    }
  }

  lemma OneMoreReadable(ops: seq<Op>, n: nat, size: Record -> nat)
    requires |ops| == n + 1
    ensures Readable(Run(INITIAL, ops).file, size, JOURNAL_LINE)
            <==> Readable(Run(INITIAL, ops[..n]).file, size, JOURNAL_LINE) && CommitFits(ops, n, size)
  {
    var sys := Run(INITIAL, ops[..n]);
    FileGrowsByLine(sys, ops[n]);
    ReadableConcat(sys.file, Line(sys.mem, ops[n]), size, JOURNAL_LINE);
  }

  /** A run leaves a journal that opens if and only if every line it wrote fits the reader's buffer. */
  lemma {:induction false} JournalOpensIffCommitsFit(ops: seq<Op>, size: Record -> nat)
    ensures Readable(Run(INITIAL, ops).file, size, JOURNAL_LINE) <==> AllCommitsFit(ops, size)
  {
    if ops != [] {
      var n := |ops| - 1;
      JournalOpensIffCommitsFit(ops[..n], size);
      OneMoreCommit(ops, n, size);
      OneMoreReadable(ops, n, size);
    }
  }

  /** The store commits without looking at the length: one line too long, and the journal never opens again. */
  lemma LongCommitBlocksReopening(ops: seq<Op>, op: Op, later: seq<Op>, size: Record -> nat)
    requires !op.Reopen? && !op.PruneRevocations? && Decide(Run(INITIAL, ops).mem, op).Commit?
    requires size(Encode(Decide(Run(INITIAL, ops).mem, op).record)) > JOURNAL_LINE
    ensures Exec(Run(INITIAL, ops), op).mem == Apply(Run(INITIAL, ops).mem, Decide(Run(INITIAL, ops).mem, op).record)
    ensures !Readable(Run(Run(INITIAL, ops + [op]), later).file, size, JOURNAL_LINE)
  {
    var sys := Run(INITIAL, ops);
    RunAppend(INITIAL, ops, op);
    var after := Exec(sys, op).file;
    assert size(after[|after| - 1]) > JOURNAL_LINE;
    FileIsAppendOnly(Exec(sys, op), later);
    UnreadableStays(after, Run(Exec(sys, op), later).file, size, JOURNAL_LINE);
  }
}
