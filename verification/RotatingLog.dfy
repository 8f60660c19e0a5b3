/**
The agent's rotating log writer. A log is two files, and what has been written survives in them from some
point on, whatever operating-system call of a rotation fails. Nobody else touches the files.
*/
module RotatingLog {
  import opened Options

  type Bytes = seq<bv8>

  /** The two files, the writer's handle on the current one, and the size it keeps count of. */
  datatype Log = Log(previous: Option<Bytes>, current: Option<Bytes>, isOpen: bool, size: int)

  /** The call of a rotation that fails. A failed close has closed the handle all the same. */
  datatype Fault = NoFault | CloseFails | RemoveFails | RenameFails | OpenFails

  /** One call of Write: its bytes, the fault that a rotation would meet, and how many bytes the file would
      take before an error. */
  datatype Op = Op(bytes: Bytes, fault: Fault, accepted: nat)

  function BytesOf(file: Option<Bytes>): Bytes {
    if file.Some? then file.value else []
  }

  /** What the two files hold, oldest first. */
  function Content(l: Log): Bytes {
    BytesOf(l.previous) + BytesOf(l.current)
  }

  predicate Valid(l: Log) {
    l.isOpen ==> l.current.Some?
  }

  // ----- the specification of one call -----

  function Rotated(l: Log, fault: Fault): Log {
    if !l.isOpen || fault == CloseFails then l.(isOpen := false)
    else if fault == RemoveFails then l.(isOpen := false)
    else if fault == RenameFails then l.(previous := None, isOpen := false)
    else if fault == OpenFails then l.(previous := l.current, current := None, isOpen := false)
    else Log(l.current, Some([]), true, 0)
  }

  predicate NeedsRotation(l: Log, op: Op, maxSize: int) {
    l.size + |op.bytes| > maxSize
  }

  /** The number of bytes a call reports as written. */
  function Reported(l: Log, op: Op, maxSize: int): nat {
    var before := if NeedsRotation(l, op, maxSize) then Rotated(l, op.fault) else l;
    if !before.isOpen then 0 else if op.accepted < |op.bytes| then op.accepted else |op.bytes|
  }

  function Written(l: Log, op: Op, maxSize: int): Log {
    var before := if NeedsRotation(l, op, maxSize) then Rotated(l, op.fault) else l;
    if !before.isOpen then before
    else
      var n := Reported(l, op, maxSize);
      before.(current := Some(BytesOf(before.current) + op.bytes[..n]), size := before.size + n)
  }

  class RotatingWriter {
    var previous: Option<Bytes>
    var current: Option<Bytes>
    var isOpen: bool
    var currentSize: int
    const maxSize: int

    function State(): Log
      reads this
    {
      Log(previous, current, isOpen, currentSize)
    }

    /** Opens the log for appending; a failed Stat leaves the size at zero. */
    constructor (oldFile: Option<Bytes>, logFile: Option<Bytes>, isStatted: bool, maxSize: int)
      ensures this.maxSize == maxSize && Valid(State())
      ensures State() == Log(oldFile, Some(BytesOf(logFile)), true, if isStatted then |BytesOf(logFile)| else 0)
    {
      this.maxSize := maxSize;
      previous, current, isOpen := oldFile, Some(BytesOf(logFile)), true;
      currentSize := if isStatted then |BytesOf(logFile)| else 0;
    }

    method Rotate(fault: Fault) returns (isRotated: bool)
      modifies this
      ensures State() == Rotated(old(State()), fault)
      ensures isRotated <==> isOpen
    {
      if !isOpen || fault == CloseFails {
        isOpen := false;
        return false;
      }
      isOpen := false;
      if fault == RemoveFails {
        return false;
      }
      previous := None;
      if fault == RenameFails {
        return false;
      }
      previous, current := current, None;
      if fault == OpenFails {
        return false;
      }
      current, isOpen, currentSize := Some([]), true, 0;
      return true;
    }

    method Write(op: Op) returns (n: nat, isWritten: bool)
      requires Valid(State())
      modifies this
      ensures Valid(State()) && State() == Written(old(State()), op, maxSize)
      ensures n == Reported(old(State()), op, maxSize)
      ensures isWritten <==> isOpen && n == |op.bytes|
    {
      if currentSize + |op.bytes| > maxSize {
        var isRotated := Rotate(op.fault);
        if !isRotated {
          return 0, false;
        }
      }
      if !isOpen {
        return 0, false;
      }
      n := if op.accepted < |op.bytes| then op.accepted else |op.bytes|;
      current := Some(BytesOf(current) + op.bytes[..n]);
      currentSize := currentSize + n;
      isWritten := n == |op.bytes|;
    }
  }

  // ----- runs of writes -----

  function WrittenAll(l: Log, ops: seq<Op>, maxSize: int): Log {
    if ops == [] then l else Written(WrittenAll(l, ops[..|ops| - 1], maxSize), ops[|ops| - 1], maxSize)
  }

  /** All bytes the calls have reported as written, in order. */
  function ReportedAll(l: Log, ops: seq<Op>, maxSize: int): Bytes {
    if ops == [] then []
    else
      var front, last := ops[..|ops| - 1], ops[|ops| - 1];
      ReportedAll(l, front, maxSize) + last.bytes[..Reported(WrittenAll(l, front, maxSize), last, maxSize)]
  }

  predicate IsSuffix(s: Bytes, t: Bytes) {
    |s| <= |t| && s == t[|t| - |s|..]
  }

  lemma SuffixesGrow(s: Bytes, t: Bytes, more: Bytes)
    requires IsSuffix(s, t)
    ensures IsSuffix(s + more, t + more)
  {
  }

  lemma SuffixesChain(s: Bytes, t: Bytes, base: Bytes, reported: Bytes, more: Bytes)
    requires IsSuffix(t, base + reported) && IsSuffix(s, t + more)
    ensures IsSuffix(s, base + (reported + more))
  {
    SuffixesGrow(t, base + reported, more);
    assert base + (reported + more) == (base + reported) + more;
  }

  lemma AppendingExtends(l: Log, more: Bytes)
    ensures Content(l.(current := Some(BytesOf(l.current) + more))) == Content(l) + more
  {
    var a, b := BytesOf(l.previous), BytesOf(l.current);
    assert a + (b + more) == (a + b) + more;
  }

  lemma RotatingKeepsASuffix(l: Log, fault: Fault)
    requires Valid(l)
    ensures Valid(Rotated(l, fault)) && IsSuffix(Content(Rotated(l, fault)), Content(l))
  {
    assert IsSuffix(BytesOf(l.current), Content(l));
    assert BytesOf(l.current) + [] == BytesOf(l.current) && [] + BytesOf(l.current) == BytesOf(l.current);
  }

  lemma WritingKeepsASuffix(l: Log, op: Op, maxSize: int)
    requires Valid(l)
    ensures Valid(Written(l, op, maxSize))
    ensures IsSuffix(Content(Written(l, op, maxSize)), Content(l) + op.bytes[..Reported(l, op, maxSize)])
  {
    var before := if NeedsRotation(l, op, maxSize) then Rotated(l, op.fault) else l;
    var more := op.bytes[..Reported(l, op, maxSize)];
    assert IsSuffix(Content(before), Content(l)) by {
      RotatingKeepsASuffix(l, op.fault);
    }
    SuffixesGrow(Content(before), Content(l), more);
    if before.isOpen {
      AppendingExtends(before, more);
    } else {
      assert Content(before) + more == Content(before);
    }
  }

  /** Whatever fails: the old file and then the current one hold the end of what was there plus all that
      has been reported as written. Nothing reported is reordered, altered or lost from the middle. */
  lemma {:induction false} TheLogIsASuffix(l: Log, ops: seq<Op>, maxSize: int)
    requires Valid(l)
    ensures Valid(WrittenAll(l, ops, maxSize))
    ensures IsSuffix(Content(WrittenAll(l, ops, maxSize)), Content(l) + ReportedAll(l, ops, maxSize))
  {
    if ops == [] {
      assert Content(l) + [] == Content(l);
    } else {
      var front, last := ops[..|ops| - 1], ops[|ops| - 1];
      var before := WrittenAll(l, front, maxSize);
      var more := last.bytes[..Reported(before, last, maxSize)];
      TheLogIsASuffix(l, front, maxSize);
      WritingKeepsASuffix(before, last, maxSize);
      SuffixesChain(Content(WrittenAll(l, ops, maxSize)), Content(before), Content(l), ReportedAll(l, front, maxSize), more);
    }
  }

  // ----- a rotation that fails -----

  /** Each rotation that was needed has succeeded. */
  predicate IsUnfailing(l: Log, ops: seq<Op>, maxSize: int) {
    ops == [] ||
    (IsUnfailing(l, ops[..|ops| - 1], maxSize) &&
     (NeedsRotation(WrittenAll(l, ops[..|ops| - 1], maxSize), ops[|ops| - 1], maxSize) ==>
        ops[|ops| - 1].fault == NoFault))
  }

  /** The writer is alive exactly as long as no rotation has failed. */
  lemma {:induction false} OneFailedRotationSilencesTheLog(l: Log, ops: seq<Op>, maxSize: int)
    requires l.isOpen
    ensures WrittenAll(l, ops, maxSize).isOpen <==> IsUnfailing(l, ops, maxSize)
  {
    if ops != [] {
      OneFailedRotationSilencesTheLog(l, ops[..|ops| - 1], maxSize);
    }
  }

  /** Once it is not, it writes nothing more and leaves both files as they are, for good. */
  lemma {:induction false} ASilencedLogStaysSilent(l: Log, ops: seq<Op>, maxSize: int)
    requires !l.isOpen
    ensures WrittenAll(l, ops, maxSize) == l && ReportedAll(l, ops, maxSize) == []
  {
    if ops != [] {
      ASilencedLogStaysSilent(l, ops[..|ops| - 1], maxSize);
    }
  }

  // ----- runs without failures -----

  predicate IsHealthy(op: Op) {
    op.fault == NoFault && op.accepted >= |op.bytes|
  }

  function Longest(ops: seq<Op>): nat {
    if ops == [] then 0
    else
      var front := Longest(ops[..|ops| - 1]);
      if |ops[|ops| - 1].bytes| > front then |ops[|ops| - 1].bytes| else front
  }

  function Max(a: int, b: int): int {
    if a > b then a else b
  }

  function Flatten(chunks: seq<Bytes>): Bytes {
    if chunks == [] then [] else Flatten(chunks[..|chunks| - 1]) + chunks[|chunks| - 1]
  }

  /** The files as they were, and then one chunk for each write. */
  function Chunks(l: Log, ops: seq<Op>): seq<Bytes> {
    if ops == [] then [BytesOf(l.previous), BytesOf(l.current)]
    else Chunks(l, ops[..|ops| - 1]) + [ops[|ops| - 1].bytes]
  }

  /** The old file holds the chunks from i to k, and the current one those from k on. */
  ghost predicate IsCutAt(l: Log, chunks: seq<Bytes>, i: nat, k: nat) {
    i <= k <= |chunks| && BytesOf(l.previous) == Flatten(chunks[i..k]) && BytesOf(l.current) == Flatten(chunks[k..])
  }

  lemma FlattenOneMore(chunks: seq<Bytes>, k: nat, more: Bytes)
    requires k <= |chunks|
    ensures Flatten((chunks + [more])[k..]) == Flatten(chunks[k..]) + more
  {
    assert (chunks + [more])[k..] == chunks[k..] + [more];
    assert (chunks[k..] + [more])[..|chunks[k..]|] == chunks[k..];
  }

  /** Without failures the files are cut at write boundaries, and every write is in them as a whole or
      not at all. */
  lemma {:induction false} AHealthyLogIsCutBetweenWrites(l: Log, ops: seq<Op>, maxSize: int) returns (i: nat, k: nat)
    requires l.isOpen && l.current.Some? && forall op <- ops :: IsHealthy(op)
    ensures WrittenAll(l, ops, maxSize).isOpen
    ensures IsCutAt(WrittenAll(l, ops, maxSize), Chunks(l, ops), i, k)
  {
    if ops == [] {
      i, k := 0, 1;
      var chunks := Chunks(l, ops);
      assert chunks[0..1] == [BytesOf(l.previous)] && chunks[1..] == [BytesOf(l.current)];
      assert Flatten([BytesOf(l.previous)]) == [] + BytesOf(l.previous) == BytesOf(l.previous);
      assert Flatten([BytesOf(l.current)]) == [] + BytesOf(l.current) == BytesOf(l.current);
    } else {
      var front, last := ops[..|ops| - 1], ops[|ops| - 1];
      var chunks := Chunks(l, front);
      i, k := AHealthyLogIsCutBetweenWrites(l, front, maxSize);
      var before := WrittenAll(l, front, maxSize);
      assert IsHealthy(last) && last.bytes[..|last.bytes|] == last.bytes;
      if NeedsRotation(before, last, maxSize) {
        i, k := k, |chunks|;
        assert (chunks + [last.bytes])[i..k] == chunks[i..];
        assert chunks[k..] == [] && Flatten(chunks[k..]) == [];
      } else {
        assert (chunks + [last.bytes])[i..k] == chunks[i..k];
      }
      FlattenOneMore(chunks, k, last.bytes);
    }
  }

  /** And the writer's count is the size of its file, which stays within the limit unless the file was
      larger to begin with or a single write is. */
  lemma {:induction false} AHealthyLogKeepsItsSize(l: Log, ops: seq<Op>, maxSize: int)
    requires l.isOpen && l.current.Some? && l.size == |l.current.value| && forall op <- ops :: IsHealthy(op)
    ensures var after := WrittenAll(l, ops, maxSize);
            && after.isOpen && after.current.Some? && after.size == |after.current.value|
            && after.size <= Max(maxSize, Max(l.size, Longest(ops)))
  {
    if ops != [] {
      AHealthyLogKeepsItsSize(l, ops[..|ops| - 1], maxSize);
      assert IsHealthy(ops[|ops| - 1]);
    }
  }
}
