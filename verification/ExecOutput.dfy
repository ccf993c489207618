/**
 * The output side of a script run: stdout and stderr share one byte budget, each kept write
 * becomes one or more records kind(1) | length(4) | payload, and the peer decodes the records.
 */
module ExecOutput {
  import opened Bytes

  const MAX_RECORD_PAYLOAD: nat := 65536

  datatype Record = Record(kind: Byte, payload: seq<Byte>)

  datatype Error = Eof | UnexpectedEof | InvalidRecord

  datatype Decoded = Got(record: Record, rest: seq<Byte>) | Failed(error: Error, rest: seq<Byte>)

  function EncodeRecord(r: Record): (b: seq<Byte>)
    ensures |b| == 5 + |r.payload|
  {
    [r.kind] + BigEndian(|r.payload|, 4) + r.payload
  }

  function EncodeRecords(rs: seq<Record>): seq<Byte> {
    if rs == [] then [] else EncodeRecords(rs[..|rs| - 1]) + EncodeRecord(rs[|rs| - 1])
  }

  function DecodeRecord(b: seq<Byte>): Decoded {
    if |b| < 5 then Failed(if b == [] then Eof else UnexpectedEof, [])
    else
      var n, rest := Value(b[1..5]), b[5..];
      if n > MAX_RECORD_PAYLOAD then Failed(InvalidRecord, rest)
      else if |rest| < n then Failed(if rest == [] then Eof else UnexpectedEof, [])
      else Got(Record(b[0], rest[..n]), rest[n..])
  }

  /** The records read until the first error, and that error. */
  function DecodeRecords(b: seq<Byte>): (seq<Record>, Error)
    decreases |b|
  {
    match DecodeRecord(b)
    case Failed(e, _) => ([], e)
    case Got(r, rest) => ([r] + DecodeRecords(rest).0, DecodeRecords(rest).1)
  }

  predicate Fits(r: Record) {
    |r.payload| <= MAX_RECORD_PAYLOAD
  }

  /** The reader delivers a record exactly when the input starts with its encoding and it fits. */
  lemma RecordsDecodeExactly(b: seq<Byte>, r: Record, rest: seq<Byte>)
    ensures DecodeRecord(b) == Got(r, rest) <==> Fits(r) && b == EncodeRecord(r) + rest
  {
    Radix4();
    if DecodeRecord(b) == Got(r, rest) {
      BigEndianOfValue(b[1..5]);
      var tail := b[5..];
      assert b == [b[0]] + b[1..5] + tail && tail == r.payload + rest;
    }
    if Fits(r) && b == EncodeRecord(r) + rest {
      ValueOfBigEndian(|r.payload|, 4);
      assert b[1..5] == BigEndian(|r.payload|, 4);
      assert b[5..] == r.payload + rest;
      assert (r.payload + rest)[..|r.payload|] == r.payload && (r.payload + rest)[|r.payload|..] == rest;
    }
  }

  lemma {:induction false} EncodeFirst(r: Record, rs: seq<Record>)
    ensures EncodeRecords([r] + rs) == EncodeRecord(r) + EncodeRecords(rs)
  {
    var all := [r] + rs;
    if rs == [] {
      assert all[..0] == [];
      assert EncodeRecords(all) == EncodeRecord(r);
    } else {
      var n := |rs| - 1;
      assert all[..|all| - 1] == [r] + rs[..n];
      EncodeFirst(r, rs[..n]);
      Assoc(EncodeRecord(r), EncodeRecords(rs[..n]), EncodeRecord(rs[n]));
    }
  }

  lemma {:induction false} EncodeSplit(a: seq<Record>, b: seq<Record>)
    ensures EncodeRecords(a + b) == EncodeRecords(a) + EncodeRecords(b)
  {
    if b == [] {
      assert a + b == a;
    } else {
      var n := |b| - 1;
      assert (a + b)[..|a + b| - 1] == a + b[..n];
      EncodeSplit(a, b[..n]);
      Assoc(EncodeRecords(a), EncodeRecords(b[..n]), EncodeRecord(b[n]));
    }
  }

  /** Any records that fit come back unchanged, and the reader then sees a clean end. */
  lemma {:induction false} RecordsRoundTrip(rs: seq<Record>)
    requires forall r :: r in rs ==> Fits(r)
    ensures DecodeRecords(EncodeRecords(rs)) == (rs, Eof)
    decreases |rs|
  {
    if rs != [] {
      var r, tail := rs[0], rs[1..];
      assert rs == [r] + tail;
      EncodeFirst(r, tail);
      RecordsDecodeExactly(EncodeRecords(rs), r, EncodeRecords(tail));
      RecordsRoundTrip(tail);
    }
  }

  // ---------------------------------------------------------------------------
  // Chunking one write, and the shared budget
  // ---------------------------------------------------------------------------

  /** The records one write of kind becomes: full ones, then what is left. */
  function Chunks(kind: Byte, p: seq<Byte>): seq<Record>
    decreases |p|
  {
    if p == [] then []
    else
      var n := if |p| > MAX_RECORD_PAYLOAD then MAX_RECORD_PAYLOAD else |p|;
      [Record(kind, p[..n])] + Chunks(kind, p[n..])
  }

  /** Output as the peer sees it: every byte with the stream it belongs to. */
  function Mark(r: Record): (m: seq<(Byte, Byte)>)
    ensures |m| == |r.payload|
  {
    seq(|r.payload|, i requires 0 <= i < |r.payload| => (r.kind, r.payload[i]))
  }

  function Tagged(rs: seq<Record>): seq<(Byte, Byte)> {
    if rs == [] then [] else Tagged(rs[..|rs| - 1]) + Mark(rs[|rs| - 1])
  }

  lemma {:induction false} TaggedSplit(a: seq<Record>, b: seq<Record>)
    ensures Tagged(a + b) == Tagged(a) + Tagged(b)
  {
    if b == [] {
      assert a + b == a;
    } else {
      var n := |b| - 1;
      assert (a + b)[..|a + b| - 1] == a + b[..n];
      TaggedSplit(a, b[..n]);
      Assoc(Tagged(a), Tagged(b[..n]), Mark(b[n]));
    }
  }

  lemma TaggedOne(r: Record)
    ensures Tagged([r]) == Mark(r)
  {
  }

  /** Chunking changes neither the bytes nor their kind, and every record is non-empty and fits. */
  lemma {:induction false} ChunksKeepTheWrite(kind: Byte, p: seq<Byte>)
    ensures Tagged(Chunks(kind, p)) == Mark(Record(kind, p))
    ensures forall r :: r in Chunks(kind, p) ==> Fits(r) && r.payload != [] && r.kind == kind
    decreases |p|
  {
    if p != [] {
      var n := if |p| > MAX_RECORD_PAYLOAD then MAX_RECORD_PAYLOAD else |p|;
      var first := Record(kind, p[..n]);
      ChunksKeepTheWrite(kind, p[n..]);
      TaggedSplit([first], Chunks(kind, p[n..]));
      TaggedOne(first);
      assert p == p[..n] + p[n..];
    }
  }

  /** The limiter: bytes it may still pass on, whether it dropped any, and the records it let through. */
  datatype Limiter = Limiter(remaining: int, dropped: bool, emitted: seq<Record>)

  function Kept(remaining: int, p: seq<Byte>): seq<Byte> {
    if remaining <= 0 then [] else if |p| > remaining then p[..remaining] else p
  }

  function Pass(l: Limiter, w: Record): Limiter {
    if l.remaining <= 0 then l.(dropped := true)
    else
      var kept := Kept(l.remaining, w.payload);
      Limiter(l.remaining - |kept|, l.dropped || |w.payload| > l.remaining, l.emitted + Chunks(w.kind, kept))
  }

  /** The limiter after the script's writes, stdout and stderr interleaved in any order. */
  function Emit(budget: int, ws: seq<Record>): Limiter {
    if ws == [] then Limiter(budget, false, []) else Pass(Emit(budget, ws[..|ws| - 1]), ws[|ws| - 1])
  }

  function Least(a: int, b: int): int {
    if a <= b then a else b
  }

  lemma MarkPrefix(w: Record, n: nat)
    requires n <= |w.payload|
    ensures Mark(Record(w.kind, w.payload[..n])) == Mark(w)[..n]
  {
  }

  lemma {:induction false} EmitKeepsAPrefix(budget: nat, ws: seq<Record>)
    ensures
      var l := Emit(budget, ws);
      && l.remaining == budget - Least(|Tagged(ws)|, budget)
      && Tagged(l.emitted) == Tagged(ws)[..Least(|Tagged(ws)|, budget)]
  {
    if ws != [] {
      var before, w := ws[..|ws| - 1], ws[|ws| - 1];
      EmitKeepsAPrefix(budget, before);
      var l := Emit(budget, before);
      if l.remaining > 0 {
        var kept := Kept(l.remaining, w.payload);
        ChunksKeepTheWrite(w.kind, kept);
        TaggedSplit(l.emitted, Chunks(w.kind, kept));
        MarkPrefix(w, |kept|);
        assert Tagged(before)[..|Tagged(before)|] == Tagged(before);
        assert kept == w.payload[..|kept|];
      }
    }
  }

  lemma {:induction false} EmittedFit(budget: int, ws: seq<Record>)
    ensures forall r :: r in Emit(budget, ws).emitted ==> Fits(r) && r.payload != []
  {
    if ws != [] {
      var before, w := ws[..|ws| - 1], ws[|ws| - 1];
      EmittedFit(budget, before);
      ChunksKeepTheWrite(w.kind, Kept(Emit(budget, before).remaining, w.payload));
    }
  }

  /**
   * Decoding what the run put on the wire gives exactly the first budget bytes of its output, in
   * write order and each with its own stream, in records within the limit, then a clean end.
   */
  lemma OutputRoundTrip(budget: nat, ws: seq<Record>)
    ensures
      var (rs, end) := DecodeRecords(EncodeRecords(Emit(budget, ws).emitted));
      && end == Eof
      && Tagged(rs) == Tagged(ws)[..Least(|Tagged(ws)|, budget)]
      && forall r :: r in rs ==> 1 <= |r.payload| <= MAX_RECORD_PAYLOAD
  {
    EmittedFit(budget, ws);
    RecordsRoundTrip(Emit(budget, ws).emitted);
    EmitKeepsAPrefix(budget, ws);
  }

  /** Some write begins once the budget is spent. */
  predicate WritesAfterBudget(budget: int, ws: seq<Record>) {
    exists i :: 0 <= i < |ws| && |Tagged(ws[..i])| >= budget
  }

  /**
   * The run is reported truncated exactly when output exceeded the budget or some write, even an
   * empty one, was made when the budget was already spent.
   */
  lemma {:induction false} TruncatedIff(budget: nat, ws: seq<Record>)
    ensures Emit(budget, ws).dropped <==> |Tagged(ws)| > budget || WritesAfterBudget(budget, ws)
  {
    if ws == [] {
    } else {
      var n := |ws| - 1;
      var before, w := ws[..n], ws[n];
      TruncatedIff(budget, before);
      EmitKeepsAPrefix(budget, before);
      assert forall i :: 0 <= i <= n ==> ws[..i] == before[..i];
      assert ws[..n] == before;
      if |Tagged(before)| >= budget {
        assert WritesAfterBudget(budget, ws);
      } else {
        assert WritesAfterBudget(budget, ws) <==> WritesAfterBudget(budget, before);
      }
    }
  }

  /** With a positive budget and non-empty writes, truncated means exactly that output was lost. */
  lemma TruncatedMeansLost(budget: nat, ws: seq<Record>)
    requires forall i :: 0 <= i < |ws| ==> ws[i].payload != []
    ensures Emit(budget, ws).dropped <==> |Tagged(ws)| > budget
  {
    TruncatedIff(budget, ws);
    if i :| 0 <= i < |ws| && |Tagged(ws[..i])| >= budget {
      assert ws == ws[..i] + ws[i..];
      TaggedSplit(ws[..i], ws[i..]);
      NonEmptyTagged(ws[i..]);
    }
  }

  lemma NonEmptyTagged(ws: seq<Record>)
    requires ws != [] && forall i :: 0 <= i < |ws| ==> ws[i].payload != []
    ensures |Tagged(ws)| > 0
  {
  }

  // ---------------------------------------------------------------------------
  // The writers
  // ---------------------------------------------------------------------------

  /** The pipe to the peer. faults says which of the coming writes fail; afterwards none does. */
  class Pipe {
    var out: seq<Byte>
    var faults: seq<bool>

    /** One record: a payload too long for its length field is refused before anything is written. */
    method WriteRecord(r: Record) returns (ok: bool)
      modifies this
      ensures ok ==> Fits(r)
      ensures out == old(out) + if ok then EncodeRecord(r) else []
      ensures !Fits(r) ==> faults == old(faults)
      ensures old(faults) == [] ==> (ok <==> Fits(r)) && faults == []
    {
      if |r.payload| > MAX_RECORD_PAYLOAD {
        return false;
      }
      ok := faults == [] || !faults[0];
      if faults != [] {
        faults := faults[1..];
      }
      if ok {
        out := out + EncodeRecord(r);
      }
    }

    /**
     * The record writer: puts the write's records on the pipe in order, stopping at the first
     * failed one. The returned count is that of the bytes still unsent, so zero on success.
     */
    method WriteChunked(kind: Byte, p: seq<Byte>) returns (n: nat, ok: bool)
      modifies this
      ensures n == 0
      ensures ok ==> out == old(out) + EncodeRecords(Chunks(kind, p))
      ensures exists k :: 0 <= k <= |Chunks(kind, p)| && out == old(out) + EncodeRecords(Chunks(kind, p)[..k])
      ensures old(faults) == [] ==> ok && faults == []
    {
      var left := p;
      ghost var done: seq<Record> := [];
      while left != []
        invariant Chunks(kind, p) == done + Chunks(kind, left)
        invariant out == old(out) + EncodeRecords(done)
        invariant old(faults) == [] ==> faults == []
        decreases |left|
      {
        var chunk := left;
        if |chunk| > MAX_RECORD_PAYLOAD {
          chunk := chunk[..MAX_RECORD_PAYLOAD];
        }
        ghost var r := Record(kind, chunk);
        assert chunk == left[..|chunk|];
        assert Chunks(kind, left) == [r] + Chunks(kind, left[|chunk|..]);
        Assoc(done, [r], Chunks(kind, left[|chunk|..]));
        assert done == Chunks(kind, p)[..|done|];
        ok := WriteRecord(Record(kind, chunk));
        if !ok {
          return 0, false;
        }
        left := left[|chunk|..];
        assert (done + [r])[..|done|] == done;
        Assoc(old(out), EncodeRecords(done), EncodeRecord(r));
        done := done + [r];
      }
      assert done == Chunks(kind, p) && done[..|done|] == done;
      return |left|, true;
    }
  }

  class OutputLimit {
    const dst: Pipe
    var remaining: int
    var dropped: bool
    /** The records passed on so far. */
    ghost var emitted: seq<Record>

    ghost predicate Valid()
      reads this, dst
    {
      dst.out == EncodeRecords(emitted)
    }

    ghost function View(): Limiter
      reads this
    {
      Limiter(remaining, dropped, emitted)
    }

    constructor (dst: Pipe, budget: int)
      requires dst.out == []
      ensures this.dst == dst && Valid() && View() == Emit(budget, [])
    {
      this.dst := dst;
      remaining, dropped, emitted := budget, false, [];
    }

    /**
     * A write that succeeds passes the budget exactly as specified and claims every byte; a healthy
     * pipe always succeeds. After a failure the budget is charged all the same, and only leading
     * records of the write are on the wire.
     */
    method Write(kind: Byte, p: seq<Byte>) returns (n: nat, ok: bool)
      requires Valid()
      modifies this, dst
      ensures Valid()
      ensures remaining == Pass(old(View()), Record(kind, p)).remaining
      ensures dropped == Pass(old(View()), Record(kind, p)).dropped
      ensures ok ==> View() == Pass(old(View()), Record(kind, p)) && n == |p|
      ensures !ok ==> n == 0 && old(emitted) <= emitted <= Pass(old(View()), Record(kind, p)).emitted
      ensures old(dst.faults) == [] ==> ok && dst.faults == []
    {
      n := |p|;
      if remaining <= 0 {
        dropped := true;
        return n, true;
      }
      var kept := p;
      if |kept| > remaining {
        kept := kept[..remaining];
        dropped := true;
      }
      remaining := remaining - |kept|;
      ghost var rs := Chunks(kind, kept);
      var m;
      m, ok := dst.WriteChunked(kind, kept);
      if !ok {
        ghost var k :| 0 <= k <= |rs| && dst.out == old(dst.out) + EncodeRecords(rs[..k]);
        EncodeSplit(emitted, rs[..k]);
        emitted := emitted + rs[..k];
        return 0, false;
      }
      EncodeSplit(emitted, rs);
      emitted := emitted + rs;
    }

    /** A whole run's interleaved writes leave the limiter and the wire as specified. */
    method WriteAll(ws: seq<Record>, ghost budget: int)
      requires Valid() && View() == Emit(budget, []) && dst.faults == []
      modifies this, dst
      ensures Valid() && View() == Emit(budget, ws)
      ensures dst.out == EncodeRecords(Emit(budget, ws).emitted)
    {
      for i := 0 to |ws|
        invariant Valid() && View() == Emit(budget, ws[..i]) && dst.faults == []
      {
        var n, ok := Write(ws[i].kind, ws[i].payload);
        assert ws[..i + 1][..i] == ws[..i];
      }
      assert ws[..|ws|] == ws;
    }
  }
}
