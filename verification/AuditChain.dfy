/**
 The hash-chained audit file (internal/access/audit.go). The digest is a parameter: a function from
 encoded bodies to non-empty hashes. Every other field of a record is its content.
 */
module AuditChain {
  import opened Wrappers
  import opened LineLimits

  type Hash = string

  /** A record without its integrity hash: what the digest is taken of. */
  datatype Body = Body(version: nat, sequence: nat, content: string, previous: Hash)

  /**
   A line of the file: blank, not a record at all, or a record whose hash is empty if it predates the chain. The
   digest of a record without a hash is the digest of its line.
   */
  datatype Line = Blank | Garbage | Entry(body: Body, hash: Hash)
  {
    predicate Chained() { Entry? && hash != "" }
    predicate Legacy() { Entry? && hash == "" }
  }

  type Digest = Body -> Hash

  ghost predicate ProperDigest(digest: Digest) {
    forall b :: digest(b) != ""
  }

  ghost predicate CollisionFree(digest: Digest) {
    forall a, b :: digest(a) == digest(b) ==> a == b
  }

  datatype Chain = Chain(sequence: nat, previous: Hash)
  const START := Chain(0, "")

  /** The chain state after the first n lines, or none if they are refused. */
  function LoadTo(digest: Digest, file: seq<Line>, n: nat): Option<Chain>
    requires n <= |file|
  {
    if n == 0 then Some(START)
    else
      var before := LoadTo(digest, file, n - 1);
      if before.None? then None else Next(digest, before.value, file[n - 1])
  }

  /** The chain state after a file, or none if the file is refused. */
  function Load(digest: Digest, file: seq<Line>): Option<Chain> {
    LoadTo(digest, file, |file|)
  }

  function Next(digest: Digest, chain: Chain, line: Line): Option<Chain> {
    match line
    case Blank => Some(chain)
    case Garbage => None
    case Entry(body, hash) =>
      if hash != "" then
        if body.previous != chain.previous || body.sequence != chain.sequence + 1 || digest(body) != hash then None
        else Some(Chain(body.sequence, hash))
      else
        Some(Chain(chain.sequence + 1, digest(body)))
  }

  /** What follows does not change the state after a prefix. */
  lemma {:induction false} LoadToPrefix(digest: Digest, file: seq<Line>, longer: seq<Line>, n: nat)
    requires n <= |file| && file <= longer
    ensures LoadTo(digest, longer, n) == LoadTo(digest, file, n)
  {
    if n > 0 {
      LoadToPrefix(digest, file, longer, n - 1);
    }
  }

  lemma LoadAppend(digest: Digest, file: seq<Line>, line: Line)
    ensures Load(digest, file + [line]) ==
            if Load(digest, file).None? then None else Next(digest, Load(digest, file).value, line)
  {
    LoadToPrefix(digest, file, file + [line], |file|);
  }

  class FileAuditSink {
    const digest: Digest
    var lines: seq<Line>
    var sequence: nat
    var previous: Hash

    /** The writer's state is what a reader of the file computes. */
    ghost predicate Valid()
      reads this
    {
      Load(digest, lines) == Some(Chain(sequence, previous))
    }

    constructor (digest: Digest, existing: seq<Line>)
      ensures this.digest == digest && lines == existing && sequence == 0 && previous == ""
    {
      this.digest := digest;
      lines, sequence, previous := existing, 0, "";
    }

    /** Reads the whole file; on a broken chain or a line too long the sink is refused and its state is untouched. */
    method LoadChainState(size: Line -> nat) returns (ok: bool)
      modifies this
      ensures lines == old(lines)
      ensures ok <==> Load(digest, lines).Some? && Readable(lines, size, AUDIT_LINE)
      ensures ok ==> Valid()
      ensures !ok ==> sequence == old(sequence) && previous == old(previous)
    {
      var seen: nat, last: Hash := 0, "";
      var i := 0;
      while i < |lines|
        invariant 0 <= i <= |lines| && lines == old(lines)
        invariant sequence == old(sequence) && previous == old(previous)
        invariant LoadTo(digest, lines, i) == Some(Chain(seen, last))
        invariant Readable(lines[..i], size, AUDIT_LINE)
      {
        if size(lines[i]) > AUDIT_LINE {
          return false;
        }
        match lines[i] {
          case Blank =>
          case Garbage =>
            RefusedForGood(digest, lines, i + 1);
            return false;
          case Entry(body, hash) =>
            if hash != "" {
              if body.previous != last || body.sequence != seen + 1 || digest(body) != hash {
                RefusedForGood(digest, lines, i + 1);
                return false;
              }
              last := hash;
              seen := body.sequence;
            } else {
              last := digest(body);
              seen := seen + 1;
            }
        }
        i := i + 1;
      }
      sequence, previous := seen, last;
      return true;
    }

    method Record(content: string)
      requires Valid() && ProperDigest(digest)
      modifies this
      ensures Valid()
      ensures lines == old(lines) + [Written(digest, Chain(old(sequence), old(previous)), content)]
    {
      var body := Body(1, sequence + 1, content, previous);
      var hash := digest(body);
      LoadAppend(digest, lines, Entry(body, hash));
      lines := lines + [Entry(body, hash)];
      sequence := body.sequence;
      previous := hash;
    }
  }

  /** Once a prefix is refused, so is the file. */
  lemma {:induction false} RefusedForGood(digest: Digest, file: seq<Line>, n: nat)
    requires n <= |file| && LoadTo(digest, file, n).None?
    ensures Load(digest, file).None?
    decreases |file| - n
  {
    if n < |file| {
      RefusedForGood(digest, file, n + 1);
    }
  }

  /** The line Record appends to a file in a given chain state. */
  function Written(digest: Digest, chain: Chain, content: string): Line {
    var body := Body(1, chain.sequence + 1, content, chain.previous);
    Entry(body, digest(body))
  }

  /** Writer steps: append a record, or close and reopen the file. */
  datatype Action = Append(content: string) | Reopen

  datatype Writer = Writer(file: seq<Line>, chain: Chain)

  /** One step of a writer; reopening reloads the state and fails on a refused file. */
  ghost function Step(digest: Digest, size: Line -> nat, w: Writer, action: Action): Option<Writer> {
    match action
    case Append(content) => Some(Longer(digest, w, content))
    case Reopen =>
      var loaded := Load(digest, w.file);
      if loaded.None? || !Readable(w.file, size, AUDIT_LINE) then None else Some(Writer(w.file, loaded.value))
  }

  function Longer(digest: Digest, w: Writer, content: string): Writer {
    var line := Written(digest, w.chain, content);
    Writer(w.file + [line], Chain(w.chain.sequence + 1, line.hash))
  }

  /** The first n steps of a run of writers over one file. */
  ghost function Write(digest: Digest, size: Line -> nat, w: Writer, actions: seq<Action>, n: nat): Option<Writer>
    requires n <= |actions|
  {
    if n == 0 then Some(w)
    else
      var before := Write(digest, size, w, actions, n - 1);
      if before.None? then None else Step(digest, size, before.value, actions[n - 1])
  }

  /** What the appends among the first n steps leave, as if the file were never reopened. */
  function Appended(digest: Digest, w: Writer, actions: seq<Action>, n: nat): Writer
    requires n <= |actions|
  {
    if n == 0 then w
    else
      var before := Appended(digest, w, actions, n - 1);
      match actions[n - 1]
      case Append(content) => Longer(digest, before, content)
      case Reopen => before
  }

  lemma LongerLoads(digest: Digest, w: Writer, content: string)
    requires ProperDigest(digest) && Load(digest, w.file) == Some(w.chain)
    ensures var next := Longer(digest, w, content); Load(digest, next.file) == Some(next.chain)
  {
    LoadAppend(digest, w.file, Written(digest, w.chain, content));
  }

  lemma {:induction false} AppendedLoads(digest: Digest, start: Writer, actions: seq<Action>, n: nat)
    requires ProperDigest(digest) && Load(digest, start.file) == Some(start.chain) && n <= |actions|
    ensures var w := Appended(digest, start, actions, n); Load(digest, w.file) == Some(w.chain)
  {
    if n > 0 {
      AppendedLoads(digest, start, actions, n - 1);
      if actions[n - 1].Append? {
        LongerLoads(digest, Appended(digest, start, actions, n - 1), actions[n - 1].content);
      }
    }
  }

  ghost predicate ReopenFits(digest: Digest, size: Line -> nat, start: Writer, actions: seq<Action>, i: nat)
    requires i < |actions|
  {
    actions[i].Reopen? ==> Readable(Appended(digest, start, actions, i).file, size, AUDIT_LINE)
  }

  /**
   Round trip: starting from any accepted file, a run of appends and reopenings goes through if and only if at
   each reopening every line is short enough to be read back. Reopening then changes nothing: the file and the
   chain state are those of a writer that was never closed, and the file loads to that state.
   */
  lemma {:induction false} WrittenFilesLoad(digest: Digest, size: Line -> nat, start: Writer, actions: seq<Action>,
                                            n: nat)
    requires ProperDigest(digest) && Load(digest, start.file) == Some(start.chain) && n <= |actions|
    ensures Write(digest, size, start, actions, n).Some? <==>
            forall i :: 0 <= i < n ==> ReopenFits(digest, size, start, actions, i)
    ensures Write(digest, size, start, actions, n).Some? ==>
              Write(digest, size, start, actions, n) == Some(Appended(digest, start, actions, n))
    ensures var w := Appended(digest, start, actions, n); Load(digest, w.file) == Some(w.chain)
  {
    AppendedLoads(digest, start, actions, n);
    if n > 0 {
      WrittenFilesLoad(digest, size, start, actions, n - 1);
      assert ReopenFits(digest, size, start, actions, n - 1) <==>
             (actions[n - 1].Reopen? ==> Readable(Appended(digest, start, actions, n - 1).file, size, AUDIT_LINE));
    }
  }

  lemma {:induction false} AppendedGrows(digest: Digest, start: Writer, actions: seq<Action>, i: nat, n: nat)
    requires i <= n <= |actions|
    ensures Appended(digest, start, actions, i).file <= Appended(digest, start, actions, n).file
    decreases n
  {
    if i < n {
      AppendedGrows(digest, start, actions, i, n - 1);
    }
  }

  lemma LongRecordIsUnreadable(digest: Digest, size: Line -> nat, w: Writer, content: string)
    requires size(Written(digest, w.chain, content)) > AUDIT_LINE
    ensures !Readable(Longer(digest, w, content).file, size, AUDIT_LINE)
  {
    var file := Longer(digest, w, content).file;
    assert size(file[|file| - 1]) > AUDIT_LINE;
  }

  /** One record too long, and no later file is readable. */
  lemma LongRecordStays(digest: Digest, size: Line -> nat, start: Writer, actions: seq<Action>, i: nat, n: nat)
    requires i < n <= |actions| && actions[i].Append?
    requires size(Written(digest, Appended(digest, start, actions, i).chain, actions[i].content)) > AUDIT_LINE
    ensures !Readable(Appended(digest, start, actions, n).file, size, AUDIT_LINE)
  {
    LongRecordIsUnreadable(digest, size, Appended(digest, start, actions, i), actions[i].content);
    AppendedGrows(digest, start, actions, i + 1, n);
    UnreadableStays(Appended(digest, start, actions, i + 1).file, Appended(digest, start, actions, n).file, size,
                    AUDIT_LINE);
  }

  /** Recording never looks at the length: one record too long, and every later reopening is refused. */
  lemma LongRecordBlocksReopening(digest: Digest, size: Line -> nat, start: Writer, actions: seq<Action>, i: nat,
                                  n: nat)
    requires ProperDigest(digest) && Load(digest, start.file) == Some(start.chain)
    requires i < n < |actions| && actions[i].Append? && actions[n].Reopen?
    requires size(Written(digest, Appended(digest, start, actions, i).chain, actions[i].content)) > AUDIT_LINE
    ensures Write(digest, size, start, actions, n + 1).None?
  {
    LongRecordStays(digest, size, start, actions, i, n);
    assert !ReopenFits(digest, size, start, actions, n);
    WrittenFilesLoad(digest, size, start, actions, n + 1);
  }

  /** Records that all predate the chain are accepted, and counted one by one. */
  lemma {:induction false} LegacyFilesLoad(digest: Digest, file: seq<Line>, n: nat)
    requires n <= |file| && forall i :: 0 <= i < n ==> file[i].Legacy()
    ensures LoadTo(digest, file, n).Some? && LoadTo(digest, file, n).value.sequence == n
    ensures n > 0 ==> file[n - 1].Entry? && LoadTo(digest, file, n).value.previous == digest(file[n - 1].body)
  {
    if n > 0 {
      LegacyFilesLoad(digest, file, n - 1);
    }
  }

  /** A legacy file is accepted, and any run that starts from it goes through under the same condition. */
  lemma LegacyPrefixThenChain(digest: Digest, size: Line -> nat, legacy: seq<Line>, actions: seq<Action>)
    requires ProperDigest(digest)
    requires forall i :: 0 <= i < |legacy| ==> legacy[i].Legacy()
    ensures Load(digest, legacy).Some?
    ensures var start := Writer(legacy, Load(digest, legacy).value);
            var w := Appended(digest, start, actions, |actions|);
            Load(digest, w.file) == Some(w.chain) &&
            Write(digest, size, start, actions, |actions|) ==
              if forall i :: 0 <= i < |actions| ==> ReopenFits(digest, size, start, actions, i) then Some(w) else None
  {
    LegacyFilesLoad(digest, legacy, |legacy|);
    WrittenFilesLoad(digest, size, Writer(legacy, Load(digest, legacy).value), actions, |actions|);
  }

  /** The file without its blank lines. */
  function Entries(file: seq<Line>, n: nat): seq<Line>
    requires n <= |file|
  {
    if n == 0 then []
    else if file[n - 1].Blank? then Entries(file, n - 1)
    else Entries(file, n - 1) + [file[n - 1]]
  }

  /** Blank lines do not change what a file loads to. */
  lemma {:induction false} BlanksIgnored(digest: Digest, file: seq<Line>, n: nat)
    requires n <= |file|
    ensures LoadTo(digest, file, n) == Load(digest, Entries(file, n))
  {
    if n > 0 {
      BlanksIgnored(digest, file, n - 1);
      if !file[n - 1].Blank? {
        LoadAppend(digest, Entries(file, n - 1), file[n - 1]);
      }
    }
  }

  ghost predicate AllChained(file: seq<Line>) {
    forall i :: 0 <= i < |file| ==> file[i].Chained()
  }

  /** What acceptance says about a chained line. */
  lemma ChainedLine(digest: Digest, file: seq<Line>, n: nat)
    requires 1 <= n <= |file| && file[n - 1].Chained() && LoadTo(digest, file, n).Some?
    ensures var e := file[n - 1];
            LoadTo(digest, file, n - 1) == Some(Chain(e.body.sequence - 1, e.body.previous)) &&
            e.body.sequence >= 1 && e.hash == digest(e.body) &&
            LoadTo(digest, file, n).value == Chain(e.body.sequence, e.hash)
  {
  }

  /**
   Two accepted files that have the same hash after their first m and k lines agree, record by record, on the
   n lines before, for every n for which those lines are chained in both.
   */
  lemma {:induction false} SameHashSameSuffix(digest: Digest, f: seq<Line>, m: nat, g: seq<Line>, k: nat, n: nat)
    requires CollisionFree(digest) && n <= m <= |f| && n <= k <= |g|
    requires LoadTo(digest, f, m).Some? && LoadTo(digest, g, k).Some?
    requires forall i :: m - n <= i < m ==> f[i].Chained()
    requires forall i :: k - n <= i < k ==> g[i].Chained()
    requires LoadTo(digest, f, m).value.previous == LoadTo(digest, g, k).value.previous
    ensures forall i :: m - n <= i < m ==> f[i] == g[i - m + k]
    decreases n
  {
    if n > 0 {
      ChainedLine(digest, f, m);
      ChainedLine(digest, g, k);
      SameHashSameSuffix(digest, f, m - 1, g, k - 1, n - 1);
    }
  }

  /** In a fully chained file the sequence number counts the entries, and only the empty file has no hash. */
  lemma {:induction false} ChainedFilesCount(digest: Digest, f: seq<Line>, n: nat)
    requires ProperDigest(digest) && n <= |f| && LoadTo(digest, f, n).Some? && AllChained(f)
    ensures LoadTo(digest, f, n).value.sequence == n
    ensures LoadTo(digest, f, n).value.previous == "" <==> n == 0
  {
    if n > 0 {
      ChainedLine(digest, f, n);
      ChainedFilesCount(digest, f, n - 1);
    }
  }

  /**
   Tamper evidence: two accepted, fully chained files that end in the same hash hold the same records.
   */
  lemma SameHashSameFile(digest: Digest, f: seq<Line>, g: seq<Line>)
    requires ProperDigest(digest) && CollisionFree(digest)
    requires Load(digest, f).Some? && Load(digest, g).Some?
    requires AllChained(Entries(f, |f|)) && AllChained(Entries(g, |g|))
    requires Load(digest, f).value.previous == Load(digest, g).value.previous
    ensures Entries(f, |f|) == Entries(g, |g|)
  {
    BlanksIgnored(digest, f, |f|);
    BlanksIgnored(digest, g, |g|);
    SameHashSameEntries(digest, Entries(f, |f|), Entries(g, |g|));
  }

  lemma SameHashSameEntries(digest: Digest, a: seq<Line>, b: seq<Line>)
    requires ProperDigest(digest) && CollisionFree(digest) && AllChained(a) && AllChained(b)
    requires Load(digest, a).Some? && Load(digest, b).Some?
    requires Load(digest, a).value.previous == Load(digest, b).value.previous
    ensures a == b
  {
    ChainedFilesCount(digest, a, |a|);
    ChainedFilesCount(digest, b, |b|);
    if a != [] {
      ChainedLine(digest, a, |a|);
      ChainedLine(digest, b, |b|);
      SameHashSameSuffix(digest, a, |a|, b, |b|, |a|);
    }
  }

  /**
   Without full chaining the final hash does not protect what precedes a legacy record: after it, any two
   accepted files are indistinguishable exactly when they count the same number of records.
   */
  lemma LegacyRecordHidesHistory(digest: Digest, f: seq<Line>, g: seq<Line>, last: Line)
    requires Load(digest, f).Some? && Load(digest, g).Some? && last.Legacy()
    ensures Load(digest, f + [last]).Some? && Load(digest, g + [last]).Some?
    ensures Load(digest, f + [last]) == Load(digest, g + [last])
            <==> Load(digest, f).value.sequence == Load(digest, g).value.sequence
  {
    LoadAppend(digest, f, last);
    LoadAppend(digest, g, last);
  }
  // What the final state says about a whole file

  /** The records of the first n lines, without their hashes. */
  function Bodies(file: seq<Line>, n: nat): seq<Body>
    requires n <= |file|
  {
    if n == 0 then []
    else if file[n - 1].Entry? then Bodies(file, n - 1) + [file[n - 1].body]
    else Bodies(file, n - 1)
  }

  /** The state an accepted file loads to tells how many records there are, and the digest of the last. */
  lemma {:induction false} StateIsCountAndLast(digest: Digest, f: seq<Line>, n: nat)
    requires n <= |f| && LoadTo(digest, f, n).Some?
    ensures var b := Bodies(f, n);
            LoadTo(digest, f, n).value == Chain(|b|, if b == [] then "" else digest(b[|b| - 1]))
  {
    if n > 0 {
      StateIsCountAndLast(digest, f, n - 1);
    }
  }

  /** The records with their hashes stripped off: none of them is chained any more. */
  function Stripped(bodies: seq<Body>): seq<Line> {
    seq(|bodies|, i requires 0 <= i < |bodies| => Entry(bodies[i], ""))
  }

  lemma {:induction false} StrippedLoads(digest: Digest, bodies: seq<Body>, n: nat)
    requires n <= |bodies|
    ensures LoadTo(digest, Stripped(bodies), n).Some? && Bodies(Stripped(bodies), n) == bodies[..n]
  {
    if n > 0 {
      StrippedLoads(digest, bodies, n - 1);
      assert bodies[..n] == bodies[..n - 1] + [bodies[n - 1]];
    }
  }

  /** Strip the hashes and replace the first record: the file loads to the same state as before. */
  lemma ForgedFile(digest: Digest, f: seq<Line>) returns (g: seq<Line>)
    requires Load(digest, f).Some? && |Bodies(f, |f|)| >= 2
    ensures Load(digest, g) == Load(digest, f) && Bodies(g, |g|) != Bodies(f, |f|)
  {
    var b := Bodies(f, |f|);
    var forged := b[0 := b[0].(content := b[0].content + "x")];
    g := Stripped(forged);
    StrippedLoads(digest, forged, |forged|);
    StateIsCountAndLast(digest, f, |f|);
    StateIsCountAndLast(digest, g, |g|);
    assert forged[..|forged|] == forged;
    assert |forged[0].content| != |b[0].content|;
  }

  /**
   What the final state protects: as files are loaded, every accepted file that ends in the same state holds the same
   records if and only if there is at most one record. A fully chained file is no exception, because a record without
   a hash is taken as it stands.
   */
  lemma FinalStateFixesRecordsIff(digest: Digest, f: seq<Line>)
    requires CollisionFree(digest) && Load(digest, f).Some?
    ensures (forall g: seq<Line> :: Load(digest, g) == Load(digest, f) ==> Bodies(g, |g|) == Bodies(f, |f|))
            <==> |Bodies(f, |f|)| <= 1
  {
    if |Bodies(f, |f|)| <= 1 {
      forall g: seq<Line> | Load(digest, g) == Load(digest, f) ensures Bodies(g, |g|) == Bodies(f, |f|) {
        StateIsCountAndLast(digest, f, |f|);
        StateIsCountAndLast(digest, g, |g|);
      }
    } else {
      var g := ForgedFile(digest, f);
    }
  }

  // What is in the file

  function ContentsOf(bodies: seq<Body>): seq<string> {
    seq(|bodies|, i requires 0 <= i < |bodies| => bodies[i].content)
  }

  /** What the first n steps recorded. */
  function Recorded(actions: seq<Action>, n: nat): seq<string>
    requires n <= |actions|
  {
    if n == 0 then []
    else Recorded(actions, n - 1) + if actions[n - 1].Append? then [actions[n - 1].content] else []
  }

  lemma {:induction false} BodiesInPrefix(file: seq<Line>, line: Line, n: nat)
    requires n <= |file|
    ensures Bodies(file + [line], n) == Bodies(file, n)
  {
    if n > 0 {
      BodiesInPrefix(file, line, n - 1);
    }
  }

  lemma OneMoreContent(bodies: seq<Body>, body: Body)
    ensures ContentsOf(bodies + [body]) == ContentsOf(bodies) + [body.content]
  {
  }

  /** The file has the earlier records and then ones of version 1 with these contents. */
  ghost predicate HoldsSince(file: seq<Line>, earlier: seq<Body>, contents: seq<string>) {
    var now := Bodies(file, |file|);
    ContentsOf(now) == ContentsOf(earlier) + contents && earlier <= now &&
    forall i :: |earlier| <= i < |now| ==> now[i].version == 1
  }

  lemma OneMoreHeld(digest: Digest, w: Writer, content: string, earlier: seq<Body>, contents: seq<string>)
    requires HoldsSince(w.file, earlier, contents)
    ensures HoldsSince(Longer(digest, w, content).file, earlier, contents + [content])
  {
    var line := Written(digest, w.chain, content);
    BodiesInPrefix(w.file, line, |w.file|);
    OneMoreContent(Bodies(w.file, |w.file|), line.body);
  }

  /** The file holds what it held and every content recorded since, in order, in records of version 1. */
  lemma {:induction false} FileHoldsRecords(digest: Digest, start: Writer, actions: seq<Action>, n: nat)
    requires n <= |actions|
    ensures HoldsSince(Appended(digest, start, actions, n).file, Bodies(start.file, |start.file|),
                       Recorded(actions, n))
  {
    var earlier := Bodies(start.file, |start.file|);
    if n == 0 {
      assert ContentsOf(earlier) == ContentsOf(earlier) + [];
    } else {
      FileHoldsRecords(digest, start, actions, n - 1);
      if actions[n - 1].Append? {
        var w := Appended(digest, start, actions, n - 1);
        OneMoreHeld(digest, w, actions[n - 1].content, earlier, Recorded(actions, n - 1));
      } else {
        assert Recorded(actions, n) == Recorded(actions, n - 1);
      }
    }
  }

  /** Every line of an accepted file is blank or decodes. */
  lemma {:induction false} AcceptedLinesDecode(digest: Digest, f: seq<Line>, n: nat)
    requires n <= |f| && LoadTo(digest, f, n).Some?
    ensures forall i :: 0 <= i < n ==> f[i] != Garbage
  {
    if n > 0 {
      AcceptedLinesDecode(digest, f, n - 1);
    }
  }
}
