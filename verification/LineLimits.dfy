/**
 The longest line each file's reader accepts, its newline included (internal/core/store.go,
 internal/access/audit.go, internal/worker/file_outbox.go). No writer checks the length of what it writes.
 */
module LineLimits {
  const JOURNAL_LINE: nat := 0x1000000
  const AUDIT_LINE: nat := 0x100000
  const SINK_LINE: nat := 0x10000

  /** Every line fits the reader's buffer. */
  ghost predicate Readable<T>(lines: seq<T>, size: T -> nat, limit: nat) {
    forall i :: 0 <= i < |lines| ==> size(lines[i]) <= limit
  }

  /** What is appended later does not make an unreadable file readable. */
  lemma UnreadableStays<T>(lines: seq<T>, longer: seq<T>, size: T -> nat, limit: nat)
    requires lines <= longer && !Readable(lines, size, limit)
    ensures !Readable(longer, size, limit)
  {
    var i :| 0 <= i < |lines| && size(lines[i]) > limit;
    assert longer[i] == lines[i];
  }
}
