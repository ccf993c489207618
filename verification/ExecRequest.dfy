/**
 * The request side of a script run: a 4-byte length, a JSON header and the script bytes,
 * arriving in chunks of any size. The JSON library is a parameter.
 */
module ExecRequest {
  import opened Bytes
  import opened Wrappers

  const MAX_HEADER_BYTES: nat := 1024

  datatype Header = Header(timeoutSeconds: int, scriptBytes: int)

  /** The JSON codec of the header type. */
  datatype Json = Json(marshal: Header -> seq<Byte>, unmarshal: seq<Byte> -> Option<Header>)

  predicate Sensible(h: Header) {
    h.timeoutSeconds >= 0 && h.scriptBytes >= 0
  }

  /** What the JSON library promises: no value marshals to nothing, and unmarshalling undoes marshalling. */
  ghost predicate Lawful(j: Json) {
    forall h: Header :: j.marshal(h) != [] && j.unmarshal(j.marshal(h)) == Some(h)
  }

  function EncodeHeader(j: Json, h: Header): Option<seq<Byte>> {
    if !Sensible(h) then None
    else if |j.marshal(h)| > MAX_HEADER_BYTES then None
    else Some(BigEndian(|j.marshal(h)|, 4) + j.marshal(h))
  }

  datatype Parsed = Short | Malformed | Complete(header: Header, consumed: nat)

  function ParseHeader(j: Json, b: seq<Byte>): Parsed {
    if |b| < 4 then Short
    else
      var length := Value(b[..4]);
      if length == 0 || length > MAX_HEADER_BYTES then Malformed
      else if |b| < 4 + length then Short
      else
        match j.unmarshal(b[4..4 + length])
        case None => Malformed
        case Some(h) => if Sensible(h) then Complete(h, 4 + length) else Malformed
  }

  /** Once the parser has an answer, no further bytes change it. */
  lemma ParsePrefixStable(j: Json, b: seq<Byte>, more: seq<Byte>)
    requires ParseHeader(j, b) != Short
    ensures ParseHeader(j, b + more) == ParseHeader(j, b)
  {
    assert (b + more)[..4] == b[..4];
    var length := Value(b[..4]);
    if 0 < length <= MAX_HEADER_BYTES {
      assert (b + more)[4..4 + length] == b[4..4 + length];
    }
  }

  /** An encoded header is recognised in front of any bytes, and no proper prefix of it is an answer. */
  lemma ParseOfEncode(j: Json, h: Header, rest: seq<Byte>, k: nat)
    requires Lawful(j) && EncodeHeader(j, h).Some? && k <= |EncodeHeader(j, h).value|
    ensures
      var e := EncodeHeader(j, h).value;
      && ParseHeader(j, e + rest) == Complete(h, |e|)
      && (k < |e| ==> ParseHeader(j, e[..k]) == Short)
  {
    var body := j.marshal(h);
    var e := EncodeHeader(j, h).value;
    Radix4();
    ValueOfBigEndian(|body|, 4);
    assert (e + rest)[..4] == BigEndian(|body|, 4);
    assert (e + rest)[4..4 + |body|] == body;
    if 4 <= k < |e| {
      assert e[..k][..4] == BigEndian(|body|, 4);
    }
  }

  // ---------------------------------------------------------------------------
  // Assembling the request
  // ---------------------------------------------------------------------------

  /** One launched run. */
  datatype Run = Run(script: seq<Byte>, timeoutSeconds: int)

  datatype State = State(inbound: seq<Byte>, closed: bool, runs: seq<Run>)

  datatype WriteError = Accepted | ClosedPipe | AlreadyStarted | BadHeader | ScriptTooLarge | TrailingBytes

  /** b is a header and exactly the script it announces, within the script limit. */
  predicate IsRequest(j: Json, maxScript: int, b: seq<Byte>) {
    var p := ParseHeader(j, b);
    p.Complete? && p.header.scriptBytes <= maxScript && |b| == p.consumed + p.header.scriptBytes
  }

  function RunOf(j: Json, maxScript: int, b: seq<Byte>): Run
    requires IsRequest(j, maxScript, b)
  {
    var p := ParseHeader(j, b);
    Run(b[p.consumed..], p.header.timeoutSeconds)
  }

  /** No request is a proper prefix of another byte string that is a request. */
  lemma RequestsArePrefixFree(j: Json, maxScript: int, b: seq<Byte>, more: seq<Byte>)
    requires IsRequest(j, maxScript, b) && more != []
    ensures !IsRequest(j, maxScript, b + more)
  {
    ParsePrefixStable(j, b, more);
  }

  /** The request so far, one Write at a time. */
  function Assembled(j: Json, maxScript: int, chunks: seq<seq<Byte>>): State {
    if chunks == [] then State([], false, [])
    else Feed(j, maxScript, Assembled(j, maxScript, chunks[..|chunks| - 1]), chunks[|chunks| - 1]).0
  }

  function Feed(j: Json, maxScript: int, s: State, p: seq<Byte>): (State, WriteError) {
    if s.closed then (s, ClosedPipe)
    else if s.runs != [] then (s, AlreadyStarted)
    else
      var b := s.inbound + p;
      var t := s.(inbound := b);
      match ParseHeader(j, b)
      case Malformed => (t, BadHeader)
      case Short => (t, Accepted)
      case Complete(h, consumed) =>
        if h.scriptBytes > maxScript then (t, ScriptTooLarge)
        else if |b| < consumed + h.scriptBytes then (t, Accepted)
        else if |b| > consumed + h.scriptBytes then (t, TrailingBytes)
        else (State([], false, [Run(b[consumed..], h.timeoutSeconds)]), Accepted)
  }

  predicate StartsAt(j: Json, maxScript: int, chunks: seq<seq<Byte>>, k: nat) {
    k <= |chunks| && IsRequest(j, maxScript, Concat(chunks[..k]))
  }

  lemma ConcatGrows(chunks: seq<seq<Byte>>, k: nat)
    requires k < |chunks|
    ensures Concat(chunks[..k + 1]) == Concat(chunks[..k]) + chunks[k]
  {
    assert chunks[..k + 1] == chunks[..k] + [chunks[k]];
    ConcatSplit(chunks[..k], [chunks[k]]);
    ConcatOne(chunks[k]);
  }

  lemma {:induction false} NotStarted(j: Json, maxScript: int, chunks: seq<seq<Byte>>)
    requires forall k: nat :: k <= |chunks| ==> !StartsAt(j, maxScript, chunks, k)
    ensures Assembled(j, maxScript, chunks) == State(Concat(chunks), false, [])
  {
    var n := |chunks|;
    assert chunks[..n] == chunks;
    if n > 0 {
      var before := chunks[..n - 1];
      forall k: nat | k <= n - 1 ensures !StartsAt(j, maxScript, before, k) {
        assert before[..k] == chunks[..k];
        assert !StartsAt(j, maxScript, chunks, k);
      }
      NotStarted(j, maxScript, before);
      ConcatGrows(chunks, n - 1);
      assert !StartsAt(j, maxScript, chunks, n);
    }
  }

  lemma {:induction false} StartedStays(j: Json, maxScript: int, chunks: seq<seq<Byte>>, k: nat)
    requires StartsAt(j, maxScript, chunks, k) && forall i: nat :: i < k ==> !StartsAt(j, maxScript, chunks, i)
    ensures Assembled(j, maxScript, chunks) == State([], false, [RunOf(j, maxScript, Concat(chunks[..k]))])
    decreases |chunks|
  {
    var n := |chunks|;
    assert chunks[..n] == chunks;
    if n == k {
      assert k > 0;
      var before := chunks[..n - 1];
      forall i: nat | i <= n - 1 ensures !StartsAt(j, maxScript, before, i) {
        assert before[..i] == chunks[..i];
        assert !StartsAt(j, maxScript, chunks, i);
      }
      NotStarted(j, maxScript, before);
      ConcatGrows(chunks, n - 1);
    } else {
      var before := chunks[..n - 1];
      forall i: nat | i <= k ensures StartsAt(j, maxScript, before, i) == StartsAt(j, maxScript, chunks, i) {
        assert before[..i] == chunks[..i];
      }
      StartedStays(j, maxScript, before, k);
      assert before[..k] == chunks[..k];
    }
  }

  lemma FirstStart(j: Json, maxScript: int, chunks: seq<seq<Byte>>, k: nat) returns (first: nat)
    requires StartsAt(j, maxScript, chunks, k)
    ensures first <= k && StartsAt(j, maxScript, chunks, first)
    ensures forall i: nat :: i < first ==> !StartsAt(j, maxScript, chunks, i)
  {
    first := 0;
    while !StartsAt(j, maxScript, chunks, first)
      invariant first <= k && forall i: nat :: i < first ==> !StartsAt(j, maxScript, chunks, i)
      decreases k - first
    {
      first := first + 1;
    }
  }

  /**
   * For every sequence of chunks, well-formed or not: a run has started exactly when some whole
   * number of leading chunks makes up a request, and then it is that request's run and the only one.
   */
  lemma StartsIffARequestEndsAtAChunk(j: Json, maxScript: int, chunks: seq<seq<Byte>>)
    ensures Assembled(j, maxScript, chunks).runs != [] <==> exists k: nat :: StartsAt(j, maxScript, chunks, k)
    ensures forall k: nat :: StartsAt(j, maxScript, chunks, k) ==>
      Assembled(j, maxScript, chunks).runs == [RunOf(j, maxScript, Concat(chunks[..k]))]
  {
    if k: nat :| StartsAt(j, maxScript, chunks, k) {
      var first := FirstStart(j, maxScript, chunks, k);
      StartedStays(j, maxScript, chunks, first);
      forall k: nat | StartsAt(j, maxScript, chunks, k)
        ensures Concat(chunks[..k]) == Concat(chunks[..first])
      {
        SameRequest(j, maxScript, chunks, first, k);
      }
    } else {
      NotStarted(j, maxScript, chunks);
    }
  }

  lemma SameRequest(j: Json, maxScript: int, chunks: seq<seq<Byte>>, a: nat, b: nat)
    requires StartsAt(j, maxScript, chunks, a) && StartsAt(j, maxScript, chunks, b) && a <= b
    ensures Concat(chunks[..a]) == Concat(chunks[..b])
  {
    assert chunks[..b] == chunks[..a] + chunks[a..b];
    ConcatSplit(chunks[..a], chunks[a..b]);
    if Concat(chunks[a..b]) != [] {
      RequestsArePrefixFree(j, maxScript, Concat(chunks[..a]), Concat(chunks[a..b]));
    }
  }

  /**
   * Every split of an encoded header and its in-limit script into non-empty chunks starts the run
   * exactly once, on the last chunk, with that script and timeout; every write before it is accepted.
   */
  lemma FragmentationInvariance(j: Json, maxScript: int, h: Header, script: seq<Byte>, chunks: seq<seq<Byte>>, i: nat)
    requires Lawful(j) && EncodeHeader(j, h).Some? && |script| == h.scriptBytes <= maxScript
    requires forall c :: c in chunks ==> c != []
    requires Concat(chunks) == EncodeHeader(j, h).value + script
    requires i < |chunks|
    ensures Assembled(j, maxScript, chunks).runs == [Run(script, h.timeoutSeconds)]
    ensures Assembled(j, maxScript, chunks[..i]).runs == []
    ensures Feed(j, maxScript, Assembled(j, maxScript, chunks[..i]), chunks[i]).1 == Accepted
  {
    var e := EncodeHeader(j, h).value;
    ParseOfEncode(j, h, script, |e|);
    assert chunks[..|chunks|] == chunks;
    assert StartsAt(j, maxScript, chunks, |chunks|);
    StartsIffARequestEndsAtAChunk(j, maxScript, chunks);
    assert (e + script)[|e|..] == script;
    forall k: nat | k < |chunks| ensures !StartsAt(j, maxScript, chunks, k) {
      ShorterIsNoRequest(j, maxScript, chunks, k);
    }
    forall k: nat | k <= i ensures !StartsAt(j, maxScript, chunks[..i], k) {
      assert chunks[..i][..k] == chunks[..k];
      assert !StartsAt(j, maxScript, chunks, k);
    }
    NotStarted(j, maxScript, chunks[..i]);
    AcceptedOnTheWay(j, maxScript, h, script, chunks, i);
  }

  lemma ShorterIsNoRequest(j: Json, maxScript: int, chunks: seq<seq<Byte>>, k: nat)
    requires forall c :: c in chunks ==> c != []
    requires IsRequest(j, maxScript, Concat(chunks)) && k < |chunks|
    ensures !StartsAt(j, maxScript, chunks, k)
  {
    assert chunks == chunks[..k] + chunks[k..];
    ConcatSplit(chunks[..k], chunks[k..]);
    assert chunks[k] in chunks && Concat(chunks[k..]) == chunks[k] + Concat(chunks[k..][1..]);
    if IsRequest(j, maxScript, Concat(chunks[..k])) {
      RequestsArePrefixFree(j, maxScript, Concat(chunks[..k]), Concat(chunks[k..]));
    }
  }

  lemma AcceptedOnTheWay(j: Json, maxScript: int, h: Header, script: seq<Byte>, chunks: seq<seq<Byte>>, i: nat)
    requires Lawful(j) && EncodeHeader(j, h).Some? && |script| == h.scriptBytes <= maxScript
    requires Concat(chunks) == EncodeHeader(j, h).value + script && i < |chunks|
    requires Assembled(j, maxScript, chunks[..i]) == State(Concat(chunks[..i]), false, [])
    ensures Feed(j, maxScript, Assembled(j, maxScript, chunks[..i]), chunks[i]).1 == Accepted
  {
    var e := EncodeHeader(j, h).value;
    var b := Concat(chunks[..i + 1]);
    ConcatGrows(chunks, i);
    assert chunks == chunks[..i + 1] + chunks[i + 1..];
    ConcatSplit(chunks[..i + 1], chunks[i + 1..]);
    assert b == (e + script)[..|b|];
    if |b| < |e| {
      assert b == e[..|b|];
      ParseOfEncode(j, h, [], |b|);
    } else {
      assert b == e + script[..|b| - |e|];
      ParseOfEncode(j, h, script[..|b| - |e|], |e|);
    }
  }

  // ---------------------------------------------------------------------------
  // The stream object
  // ---------------------------------------------------------------------------

  class ExecStream {
    const j: Json
    const maxScriptBytes: int
    var inbound: seq<Byte>
    var started: bool
    var closed: bool
    /** The runs launched so far, in order. */
    var runs: seq<Run>

    ghost predicate Valid()
      reads this
    {
      started <==> runs != []
    }

    ghost function View(): State
      reads this
    {
      State(inbound, closed, runs)
    }

    constructor (j: Json, maxScriptBytes: int)
      ensures Valid() && View() == Assembled(j, maxScriptBytes, [])
      ensures this.j == j && this.maxScriptBytes == maxScriptBytes
    {
      this.j, this.maxScriptBytes := j, maxScriptBytes;
      inbound, started, closed, runs := [], false, false, [];
    }

    method Write(p: seq<Byte>) returns (n: nat, e: WriteError)
      requires Valid()
      modifies this
      ensures Valid()
      ensures (View(), e) == Feed(j, maxScriptBytes, old(View()), p)
      ensures n == if e == Accepted then |p| else 0
    {
      if closed {
        return 0, ClosedPipe;
      }
      if started {
        return 0, AlreadyStarted;
      }
      inbound := inbound + p;
      var parsed := ParseHeader(j, inbound);
      if parsed.Malformed? {
        return 0, BadHeader;
      }
      if parsed.Short? {
        return |p|, Accepted;
      }
      if parsed.header.scriptBytes > maxScriptBytes {
        return 0, ScriptTooLarge;
      }
      var total := parsed.consumed + parsed.header.scriptBytes;
      if |inbound| < total {
        return |p|, Accepted;
      }
      if |inbound| > total {
        return 0, TrailingBytes;
      }
      var script := inbound[parsed.consumed..total];
      var run := Run(script, parsed.header.timeoutSeconds);
      assert script == inbound[parsed.consumed..] && runs + [run] == [run];
      inbound := [];
      started := true;
      runs := runs + [run];
      return |p|, Accepted;
    }

    /** Every chunk of a connection is written whatever the earlier writes answered. */
    method WriteAll(chunks: seq<seq<Byte>>)
      requires Valid() && View() == Assembled(j, maxScriptBytes, [])
      modifies this
      ensures Valid() && View() == Assembled(j, maxScriptBytes, chunks)
    {
      for i := 0 to |chunks|
        invariant Valid() && View() == Assembled(j, maxScriptBytes, chunks[..i])
      {
        var n, e := Write(chunks[i]);
        assert chunks[..i + 1][..i] == chunks[..i];
      }
      assert chunks[..|chunks|] == chunks;
    }
  }
}
