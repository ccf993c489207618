/**
 * One direction of one multiplexed stream: a sender that spends credit before it
 * queues DATA, a receiver that returns credit after its consumer took the bytes,
 * and the two ordered channels between them.
 *
 * A schedule is an arbitrary sequence of events; an event that is not possible in
 * the state it meets is skipped. Every theorem is about all schedules.
 */
module FlowControl {
  import opened Bytes

  /** The largest piece a byte stream is cut into. A datagram is sent whole, in one frame of any size. */
  const MAX_STREAM_FRAME: nat := 32768

  datatype Frame = Data(payload: seq<Byte>) | Fin

  function Size(f: Frame): nat {
    if f.Data? then |f.payload| else 0
  }

  function Payload(f: Frame): seq<Byte> {
    if f.Data? then f.payload else []
  }

  /** Payload bytes held by a queue of frames. */
  function Load(q: seq<Frame>): nat {
    if q == [] then 0 else Size(q[0]) + Load(q[1..])
  }

  /** Payload bytes held by a queue of frames, in order. */
  function Text(q: seq<Frame>): seq<Byte> {
    if q == [] then [] else Payload(q[0]) + Text(q[1..])
  }

  function Sum(ns: seq<nat>): nat {
    if ns == [] then 0 else ns[0] + Sum(ns[1..])
  }

  /** The admission rule of the byte-bounded queue: both its bytes and its frames are bounded. */
  predicate QueueAdmits(q: seq<Frame>, bound: nat, size: nat) {
    Load(q) + size <= bound && |q| < bound
  }

  /** Whether a receiver must return credit now. */
  predicate ShouldFlush(remaining: nat, unacked: nat, threshold: nat) {
    unacked != 0 && (unacked >= threshold || remaining < MAX_STREAM_FRAME)
  }

  // ---------------------------------------------------------------------------
  // The receiving endpoint
  // ---------------------------------------------------------------------------

  /**
   * window is the receive window still granted; queue the bounded inbound queue;
   * inHand the popped bytes the consumer has not taken; taken the bytes consumed
   * but not yet counted; unacked the counted bytes not yet returned; crediting and
   * announcing an update between its three unsynchronised steps.
   */
  datatype Receiver = Receiver(
    window: nat, queue: seq<Frame>, inHand: seq<Byte>,
    taken: nat, unacked: nat, crediting: nat, announcing: nat)

  datatype Admission = Admitted(next: Receiver) | Refused(left: Receiver)

  /** DATA is charged to the window, then offered to the bounded queue. */
  function AdmitData(r: Receiver, bound: nat, payload: seq<Byte>): Admission {
    if |payload| > r.window then Refused(r)
    else
      var charged := r.(window := r.window - |payload|);
      if QueueAdmits(r.queue, bound, |payload|)
      then Admitted(charged.(queue := r.queue + [Data(payload)]))
      else Refused(charged)
  }

  /** The half-close marker takes its place behind the DATA already queued. */
  function AdmitFin(r: Receiver, bound: nat): Admission {
    if QueueAdmits(r.queue, bound, 0) then Admitted(r.(queue := r.queue + [Fin])) else Refused(r)
  }

  /** The consumer is one goroutine: it finishes one frame's credit before the next. */
  predicate ConsumerFree(r: Receiver) {
    r.taken == 0 && r.crediting == 0 && r.announcing == 0
  }

  function PopFrame(r: Receiver): Receiver
    requires r.queue != []
  {
    r.(queue := r.queue[1..], inHand := Payload(r.queue[0]))
  }

  function Take(r: Receiver, n: nat): Receiver
    requires n <= |r.inHand|
  {
    r.(inHand := r.inHand[n..], taken := r.taken + n)
  }

  /** Counts the taken bytes in a 32-bit counter and decides whether to return them. */
  function Release(r: Receiver, threshold: nat): Receiver {
    var unacked := (r.unacked + r.taken) % U32;
    if ShouldFlush(r.window, unacked, threshold)
    then r.(taken := 0, unacked := 0, crediting := unacked)
    else r.(taken := 0, unacked := unacked)
  }

  /** Grows the receive window unless the 32-bit sum would overflow, which drops the update. */
  function Credit(r: Receiver): Receiver {
    if r.window + r.crediting >= U32 then r.(crediting := 0)
    else r.(window := r.window + r.crediting, crediting := 0, announcing := r.crediting)
  }

  // ---------------------------------------------------------------------------
  // The link
  // ---------------------------------------------------------------------------

  /** What one stream is opened with. */
  datatype Params = Params(window: nat, buffer: nat, threshold: nat)

  predicate Sane(c: Params) {
    1 <= c.window < U32
  }

  datatype Link = Link(
    credit: nat, finSent: bool, wire: seq<Frame>,
    receiver: Receiver, updates: seq<nat>,
    sent: seq<Byte>, accepted: seq<Byte>, consumed: seq<Byte>,
    reset: bool, finLost: bool, finDone: bool)

  datatype Event =
    | SendData(payload: seq<Byte>)
    | SendFin
    | Deliver
    | Pop
    | Consume(n: nat)
    | Count
    | Grow
    | Announce
    | Refill

  function Init(c: Params): Link {
    Link(c.window, false, [],
         Receiver(c.window, [], [], 0, 0, 0, 0), [],
         [], [], [], false, false, false)
  }

  predicate Enabled(s: Link, e: Event) {
    !s.reset &&
    match e
    case SendData(p) => !s.finSent && 1 <= |p| <= s.credit
    case SendFin => !s.finSent
    case Deliver => s.wire != []
    case Pop => ConsumerFree(s.receiver) && s.receiver.inHand == [] && s.receiver.queue != []
    case Consume(n) => ConsumerFree(s.receiver) && 1 <= n <= |s.receiver.inHand|
    case Count => s.receiver.taken > 0
    case Grow => s.receiver.crediting > 0
    case Announce => s.receiver.announcing > 0
    case Refill => s.updates != []
  }

  function DeliverFrame(c: Params, s: Link): Link
    requires s.wire != []
  {
    var rest := s.(wire := s.wire[1..]);
    match s.wire[0]
    case Data(p) =>
      (match AdmitData(s.receiver, c.buffer, p)
       case Admitted(r) => rest.(receiver := r, accepted := s.accepted + p)
       case Refused(r) => rest.(receiver := r, reset := true))
    case Fin =>
      (match AdmitFin(s.receiver, c.buffer)
       case Admitted(r) => rest.(receiver := r)
       case Refused(_) => rest.(finLost := true))
  }

  function Apply(c: Params, s: Link, e: Event): Link
    requires Enabled(s, e)
  {
    var r := s.receiver;
    match e
    case SendData(p) => s.(credit := s.credit - |p|, wire := s.wire + [Data(p)], sent := s.sent + p)
    case SendFin => s.(finSent := true, wire := s.wire + [Fin])
    case Deliver => DeliverFrame(c, s)
    case Pop => s.(receiver := PopFrame(r), finDone := s.finDone || r.queue[0].Fin?)
    case Consume(n) => s.(receiver := Take(r, n), consumed := s.consumed + r.inHand[..n])
    case Count => s.(receiver := Release(r, c.threshold))
    case Grow => s.(receiver := Credit(r))
    case Announce => s.(receiver := r.(announcing := 0), updates := s.updates + [r.announcing])
    case Refill =>
      if s.credit + s.updates[0] >= U32
      then s.(updates := s.updates[1..], reset := true)
      else s.(updates := s.updates[1..], credit := s.credit + s.updates[0])
  }

  function Step(c: Params, s: Link, e: Event): Link {
    if Enabled(s, e) then Apply(c, s, e) else s
  }

  function ExecFrom(c: Params, s: Link, es: seq<Event>): Link {
    if es == [] then s
    else Step(c, ExecFrom(c, s, es[..|es| - 1]), es[|es| - 1])
  }

  function Exec(c: Params, es: seq<Event>): Link {
    ExecFrom(c, Init(c), es)
  }

  lemma {:induction false} ExecSplit(c: Params, s: Link, a: seq<Event>, b: seq<Event>)
    ensures ExecFrom(c, ExecFrom(c, s, a), b) == ExecFrom(c, s, a + b)
  {
    if b == [] {
      assert a + b == a;
    } else {
      ExecSplit(c, s, a, b[..|b| - 1]);
      assert (a + b)[..|a + b| - 1] == a + b[..|b| - 1];
    }
  }

  lemma {:induction false} ExecOne(c: Params, s: Link, es: seq<Event>, e: Event)
    ensures ExecFrom(c, s, es + [e]) == Step(c, ExecFrom(c, s, es), e)
  {
  }

  // ---------------------------------------------------------------------------
  // Sums over queues
  // ---------------------------------------------------------------------------

  lemma {:induction false} LoadAppend(a: seq<Frame>, b: seq<Frame>)
    ensures Load(a + b) == Load(a) + Load(b)
  {
    if a == [] {
      assert a + b == b;
    } else {
      assert (a + b)[1..] == a[1..] + b;
      LoadAppend(a[1..], b);
    }
  }

  lemma {:induction false} TextAppend(a: seq<Frame>, b: seq<Frame>)
    ensures Text(a + b) == Text(a) + Text(b)
  {
    if a == [] {
      assert a + b == b;
    } else {
      assert (a + b)[1..] == a[1..] + b;
      TextAppend(a[1..], b);
    }
  }

  lemma {:induction false} SumAppend(a: seq<nat>, b: seq<nat>)
    ensures Sum(a + b) == Sum(a) + Sum(b)
  {
    if a == [] {
      assert a + b == b;
    } else {
      assert (a + b)[1..] == a[1..] + b;
      SumAppend(a[1..], b);
    }
  }

  lemma AppendOne(q: seq<Frame>, f: Frame)
    ensures Load(q + [f]) == Load(q) + Size(f)
    ensures Text(q + [f]) == Text(q) + Payload(f)
  {
    LoadAppend(q, [f]);
    TextAppend(q, [f]);
    assert [f][1..] == [];
  }

  /** Every DATA frame carries at least one byte. */
  predicate NonEmpty(q: seq<Frame>) {
    forall i :: 0 <= i < |q| && q[i].Data? ==> q[i].payload != []
  }

  predicate NoFin(q: seq<Frame>) {
    forall i :: 0 <= i < |q| ==> q[i].Data?
  }

  predicate FinLast(q: seq<Frame>) {
    forall i :: 0 <= i < |q| - 1 ==> q[i].Data?
  }

  /** A queue of non-empty DATA frames holds at least as many bytes as frames. */
  lemma {:induction false} CountBelowLoad(q: seq<Frame>)
    requires NonEmpty(q) && NoFin(q)
    ensures |q| <= Load(q)
  {
    if q != [] {
      CountBelowLoad(q[1..]);
    }
  }

  // ---------------------------------------------------------------------------
  // The invariant
  // ---------------------------------------------------------------------------

  /** Everything the sender spent is a frame on the wire or still in the receive window. */
  predicate SenderBalanced(s: Link) {
    s.credit + Load(s.wire) + Sum(s.updates) + s.receiver.announcing == s.receiver.window
  }

  /** Everything the receive window lost is held, taken, unacknowledged or being returned. */
  predicate ReceiverBalanced(c: Params, r: Receiver) {
    r.window + Load(r.queue) + |r.inHand| + r.taken + r.unacked + r.crediting == c.window
  }

  predicate OneUpdateAtATime(r: Receiver) {
    && (r.taken > 0 ==> r.crediting == 0 && r.announcing == 0)
    && (r.crediting > 0 ==> r.announcing == 0)
  }

  /** Bytes the receiver holds and has not yet counted. */
  function Uncounted(r: Receiver): nat {
    Load(r.queue) + |r.inHand| + r.taken
  }

  /** With nothing left to count, either everything was returned or a whole frame is still granted. */
  predicate NoHoarding(c: Params, r: Receiver) {
    Uncounted(r) == 0 ==> r.unacked == 0 || (r.unacked < c.threshold && r.window >= MAX_STREAM_FRAME)
  }

  /** The half-close marker is the last frame sent, exists at most once, and is popped last. */
  predicate FinOrder(s: Link) {
    && (!s.finSent ==> NoFin(s.wire) && NoFin(s.receiver.queue) && !s.finDone && !s.finLost)
    && (s.wire != [] ==> FinLast(s.wire) && NoFin(s.receiver.queue) && !s.finDone && !s.finLost)
    && FinLast(s.receiver.queue)
    && (s.finDone ==> s.receiver.queue == [] && s.receiver.inHand == [])
  }

  predicate Fidelity(s: Link) {
    && s.sent == s.accepted + Text(s.wire)
    && s.accepted == s.consumed + s.receiver.inHand + Text(s.receiver.queue)
  }

  predicate Inv(c: Params, s: Link) {
    && !s.reset
    && NonEmpty(s.wire) && NonEmpty(s.receiver.queue)
    && SenderBalanced(s)
    && ReceiverBalanced(c, s.receiver)
    && OneUpdateAtATime(s.receiver)
    && NoHoarding(c, s.receiver)
    && FinOrder(s)
    && Fidelity(s)
  }

  // ---------------------------------------------------------------------------
  // Every event keeps the invariant
  // ---------------------------------------------------------------------------

  lemma InitInv(c: Params)
    ensures Inv(c, Init(c))
  {
  }

  lemma SendKeeps(c: Params, s: Link, e: Event)
    requires Inv(c, s) && Enabled(s, e) && (e.SendData? || e.SendFin?)
    ensures Inv(c, Apply(c, s, e))
  {
    var f := if e.SendData? then Data(e.payload) else Fin;
    AppendOne(s.wire, f);
    var t := Apply(c, s, e);
    assert t.sent == s.accepted + (Text(s.wire) + Payload(f));
  }

  /** A peer that spends only its credit is always admitted when the queue can hold the window. */
  lemma DataAdmitted(c: Params, s: Link)
    requires Inv(c, s) && c.buffer >= c.window && s.wire != [] && s.wire[0].Data?
    ensures s.wire[0].payload != []
    ensures |s.wire[0].payload| <= s.receiver.window
    ensures QueueAdmits(s.receiver.queue, c.buffer, |s.wire[0].payload|)
  {
    CountBelowLoad(s.receiver.queue);
  }

  predicate DeliveryAdmitted(c: Params, s: Link) {
    s.wire != [] && s.wire[0].Data? && AdmitData(s.receiver, c.buffer, s.wire[0].payload).Admitted?
  }

  lemma Regroup(a: seq<Byte>, b: seq<Byte>, c: seq<Byte>, d: seq<Byte>)
    ensures a + (b + c) == (a + b) + c && (a + d + b) + c == a + d + (b + c)
  {
  }

  lemma DeliverKeepsBytes(c: Params, s: Link)
    requires Inv(c, s) && DeliveryAdmitted(c, s)
    ensures Fidelity(Apply(c, s, Deliver))
  {
    var r, f := s.receiver, s.wire[0];
    AppendOne(r.queue, f);
    Regroup(s.accepted, f.payload, Text(s.wire[1..]), []);
    Regroup(s.consumed, Text(r.queue), f.payload, r.inHand);
  }

  lemma DeliverKeeps(c: Params, s: Link)
    requires Inv(c, s) && DeliveryAdmitted(c, s)
    ensures Inv(c, Apply(c, s, Deliver))
  {
    DeliverKeepsBytes(c, s);
    AppendOne(s.receiver.queue, s.wire[0]);
  }

  lemma DeliverFinKeeps(c: Params, s: Link)
    requires Inv(c, s) && s.wire != [] && s.wire[0].Fin?
    ensures Inv(c, Apply(c, s, Deliver))
    ensures Apply(c, s, Deliver).finLost <==> |s.receiver.queue| >= c.buffer || Load(s.receiver.queue) > c.buffer
  {
    var t := Apply(c, s, Deliver);
    assert t.wire == [];
    AppendOne(s.receiver.queue, Fin);
  }

  lemma PopKeeps(c: Params, s: Link)
    requires Inv(c, s) && Enabled(s, Pop)
    ensures Inv(c, Apply(c, s, Pop))
  {
    var q := s.receiver.queue;
    var t := Apply(c, s, Pop);
    assert q == [q[0]] + t.receiver.queue;
    if q[0].Data? {
      assert q[0].payload != [];
    }
    assert t.accepted == s.consumed + (Payload(q[0]) + Text(t.receiver.queue));
  }

  lemma ConsumeKeeps(c: Params, s: Link, n: nat)
    requires Inv(c, s) && Enabled(s, Consume(n))
    ensures Inv(c, Apply(c, s, Consume(n)))
  {
    var h := s.receiver.inHand;
    assert h == h[..n] + h[n..];
    var t := Apply(c, s, Consume(n));
    assert t.accepted == t.consumed + h[n..] + Text(s.receiver.queue);
  }

  lemma CountKeeps(c: Params, s: Link)
    requires Sane(c) && Inv(c, s) && Enabled(s, Count)
    ensures Inv(c, Apply(c, s, Count))
  {
    var r := s.receiver;
    assert r.unacked + r.taken < U32;
  }

  lemma GrowKeeps(c: Params, s: Link)
    requires Sane(c) && Inv(c, s) && Enabled(s, Grow)
    ensures Inv(c, Apply(c, s, Grow))
  {
  }

  lemma AnnounceKeeps(c: Params, s: Link)
    requires Inv(c, s) && Enabled(s, Announce)
    ensures Inv(c, Apply(c, s, Announce))
  {
    SumAppend(s.updates, [s.receiver.announcing]);
    assert [s.receiver.announcing][1..] == [];
  }

  lemma RefillKeeps(c: Params, s: Link)
    requires Sane(c) && Inv(c, s) && Enabled(s, Refill)
    ensures Inv(c, Apply(c, s, Refill))
  {
  }

  lemma StepKeeps(c: Params, s: Link, e: Event)
    requires Sane(c) && Inv(c, s) && !Step(c, s, e).reset
    ensures Inv(c, Step(c, s, e))
  {
    if Enabled(s, e) {
      match e {
        case SendData(_) => SendKeeps(c, s, e);
        case SendFin => SendKeeps(c, s, e);
        case Deliver =>
          if s.wire[0].Data? { DeliverKeeps(c, s); } else { DeliverFinKeeps(c, s); }
        case Pop => PopKeeps(c, s);
        case Consume(n) => ConsumeKeeps(c, s, n);
        case Count => CountKeeps(c, s);
        case Grow => GrowKeeps(c, s);
        case Announce => AnnounceKeeps(c, s);
        case Refill => RefillKeeps(c, s);
      }
    }
  }

  /** The invariant holds on every run, whatever the buffer, for as long as the stream is not reset. */
  lemma {:induction false} ExecKeeps(c: Params, es: seq<Event>)
    requires Sane(c) && !Exec(c, es).reset
    ensures Inv(c, Exec(c, es))
  {
    if es == [] {
      InitInv(c);
    } else {
      ExecKeeps(c, es[..|es| - 1]);
      StepKeeps(c, Exec(c, es[..|es| - 1]), es[|es| - 1]);
    }
  }

  /** A buffer that holds the window leaves no event that resets. */
  lemma StepNeverResets(c: Params, s: Link, e: Event)
    requires Sane(c) && c.buffer >= c.window && Inv(c, s)
    ensures !Step(c, s, e).reset
  {
    if Enabled(s, e) {
      match e {
        case Deliver => if s.wire[0].Data? { DataAdmitted(c, s); }
        case Refill => RefillKeeps(c, s);
        case _ =>
      }
    }
  }

  lemma {:induction false} ExecFromKeeps(c: Params, s: Link, es: seq<Event>)
    requires Sane(c) && c.buffer >= c.window && Inv(c, s)
    ensures Inv(c, ExecFrom(c, s, es))
  {
    if es != [] {
      ExecFromKeeps(c, s, es[..|es| - 1]);
      StepNeverResets(c, ExecFrom(c, s, es[..|es| - 1]), es[|es| - 1]);
      StepKeeps(c, ExecFrom(c, s, es[..|es| - 1]), es[|es| - 1]);
    }
  }

  // ---------------------------------------------------------------------------
  // Conservation and fidelity on every run
  // ---------------------------------------------------------------------------

  /** Credit, DATA in flight, bytes at the receiver and updates in flight always add up to the window. */
  lemma {:induction false} CreditConserved(c: Params, es: seq<Event>)
    requires Sane(c) && !Exec(c, es).reset
    ensures
      var s := Exec(c, es);
      s.credit + Load(s.wire) + Load(s.receiver.queue) + |s.receiver.inHand| + s.receiver.taken
      + s.receiver.unacked + s.receiver.crediting + s.receiver.announcing + Sum(s.updates) == c.window
  {
    ExecKeeps(c, es);
  }

  /**
   * Nothing between the two ends is lost, doubled or reordered: what was consumed, then what waits, is what was
   * accepted, and what was accepted is the beginning of what was sent. A reset costs only bytes never accepted.
   */
  predicate InOrder(s: Link) {
    && s.consumed <= s.accepted <= s.sent
    && s.accepted == s.consumed + s.receiver.inHand + Text(s.receiver.queue)
    && (!s.reset ==> s.sent == s.accepted + Text(s.wire))
    && (s.finDone ==> s.consumed == s.sent)
  }

  lemma InvInOrder(c: Params, s: Link)
    requires Inv(c, s)
    ensures InOrder(s)
  {
  }

  /** The step that resets: a refused frame, which was on the wire and so before the half-close marker. */
  lemma ResetInOrder(c: Params, s: Link, e: Event)
    requires Sane(c) && Inv(c, s) && Step(c, s, e).reset
    ensures InOrder(Step(c, s, e))
  {
    InvInOrder(c, s);
    if e.Refill? {
      RefillKeeps(c, s);
    }
  }

  /** The bytes stay in order on every run, reset or not. */
  lemma {:induction false} BytesInOrder(c: Params, es: seq<Event>)
    requires Sane(c)
    ensures InOrder(Exec(c, es))
  {
    if es != [] {
      var before, e := es[..|es| - 1], es[|es| - 1];
      BytesInOrder(c, before);
      if !Exec(c, before).reset {
        ExecKeeps(c, before);
        if Exec(c, es).reset {
          ResetInOrder(c, Exec(c, before), e);
        } else {
          ExecKeeps(c, es);
          InvInOrder(c, Exec(c, es));
        }
      }
    }
  }

  // ---------------------------------------------------------------------------
  // When a compliant peer can be reset, and when its half-close can be lost
  // ---------------------------------------------------------------------------

  /** k one-byte frames, each delivered before the next, with a consumer that does nothing. */
  function Flood(k: nat): seq<Event> {
    if k == 0 then [] else Flood(k - 1) + [SendData([0]), Deliver]
  }

  function Ones(k: nat): (q: seq<Frame>)
    ensures |q| == k && NoFin(q)
  {
    if k == 0 then [] else Ones(k - 1) + [Data([0])]
  }

  lemma {:induction false} LoadOfOnes(k: nat)
    ensures Load(Ones(k)) == k
  {
    if k > 0 {
      LoadOfOnes(k - 1);
      AppendOne(Ones(k - 1), Data([0]));
    }
  }

  /** An untouched consumer, an empty wire and k one-byte frames in the queue. */
  predicate Flooded(c: Params, s: Link, k: nat) {
    && k <= c.window && s.receiver == s.receiver.(window := c.window - k, queue := Ones(k))
    && s == s.(credit := c.window - k, finSent := false, wire := [], reset := false, finLost := false)
  }

  lemma FloodOne(c: Params, s: Link, k: nat)
    requires Flooded(c, s, k) && k < c.window
    ensures
      var t := Step(c, Step(c, s, SendData([0])), Deliver);
      if k < c.buffer then Flooded(c, t, k + 1) else t.reset
  {
    LoadOfOnes(k);
    var t := Step(c, s, SendData([0]));
    assert t.wire == [Data([0])];
    assert t.wire[1..] == [];
  }

  lemma {:induction false} FloodFills(c: Params, k: nat)
    requires k <= c.window && k <= c.buffer
    ensures Flooded(c, Exec(c, Flood(k)), k)
  {
    if k > 0 {
      FloodFills(c, k - 1);
      FloodOne(c, Exec(c, Flood(k - 1)), k - 1);
      FloodExec(c, k - 1);
    }
  }

  lemma FloodExec(c: Params, k: nat)
    ensures Exec(c, Flood(k) + [SendData([0]), Deliver]) == Step(c, Step(c, Exec(c, Flood(k)), SendData([0])), Deliver)
  {
    assert Flood(k) + [SendData([0]), Deliver] == Flood(k) + [SendData([0])] + [Deliver];
    ExecOne(c, Init(c), Flood(k), SendData([0]));
    ExecOne(c, Init(c), Flood(k) + [SendData([0])], Deliver);
  }

  /** No schedule resets a peer that spends only its credit, exactly when the buffer holds the window. */
  lemma ResetUnreachableIffBufferHoldsWindow(c: Params)
    requires Sane(c)
    ensures (forall es :: !Exec(c, es).reset) <==> c.buffer >= c.window
  {
    if c.buffer >= c.window {
      forall es ensures !Exec(c, es).reset {
        InitInv(c);
        ExecFromKeeps(c, Init(c), es);
      }
    } else {
      FloodFills(c, c.buffer);
      FloodOne(c, Exec(c, Flood(c.buffer)), c.buffer);
      FloodExec(c, c.buffer);
      assert Exec(c, Flood(c.buffer + 1)).reset;
    }
  }

  lemma StepKeepsFin(c: Params, s: Link, e: Event)
    requires Inv(c, s) && c.buffer > c.window && !s.finLost
    ensures !Step(c, s, e).finLost
  {
    if e.Deliver? && s.wire != [] && s.wire[0].Fin? {
      CountBelowLoad(s.receiver.queue);
      DeliverFinKeeps(c, s);
    }
  }

  lemma {:induction false} FinKept(c: Params, es: seq<Event>)
    requires Sane(c) && c.buffer > c.window
    ensures !Exec(c, es).finLost
  {
    if es != [] {
      InitInv(c);
      ExecFromKeeps(c, Init(c), es[..|es| - 1]);
      FinKept(c, es[..|es| - 1]);
      StepKeepsFin(c, Exec(c, es[..|es| - 1]), es[|es| - 1]);
    }
  }

  /**
   * The half-close marker of a compliant peer always reaches the queue exactly when
   * the buffer is larger than the window: at equality the frame count can be full.
   */
  lemma FinNeverLostIffBufferExceedsWindow(c: Params)
    requires Sane(c)
    ensures (forall es :: !Exec(c, es).finLost) <==> c.buffer > c.window
  {
    if c.buffer > c.window {
      forall es ensures !Exec(c, es).finLost {
        FinKept(c, es);
      }
    } else {
      FloodFills(c, c.buffer);
      var flood := Flood(c.buffer);
      ExecOne(c, Init(c), flood, SendFin);
      ExecOne(c, Init(c), flood + [SendFin], Deliver);
      assert Exec(c, flood + [SendFin] + [Deliver]).finLost;
    }
  }

  // ---------------------------------------------------------------------------
  // A blocked sender is never blocked for good
  // ---------------------------------------------------------------------------

  /** Nothing is in flight and the consumer has taken and counted everything delivered. */
  predicate Quiescent(s: Link) {
    && s.wire == [] && s.updates == []
    && s.receiver.queue == [] && s.receiver.inHand == [] && ConsumerFree(s.receiver)
  }

  lemma QuiescentCredit(c: Params, s: Link)
    requires Inv(c, s) && Quiescent(s)
    ensures s.credit == c.window - s.receiver.unacked
    ensures s.credit >= MAX_STREAM_FRAME || s.credit == c.window
    ensures s.credit == c.window || s.credit > c.window - c.threshold
  {
  }

  /** The least credit a sender can be left with at rest: what is below the threshold waits only above one piece. */
  function LeastRestCredit(c: Params): nat {
    if c.threshold <= 1 || c.window <= MAX_STREAM_FRAME then c.window
    else if c.threshold - 1 <= c.window - MAX_STREAM_FRAME then c.window - (c.threshold - 1)
    else MAX_STREAM_FRAME
  }

  /** At rest after u consumed bytes whose credit was not returned. */
  predicate Dripped(c: Params, s: Link, u: nat) {
    u <= c.window && s == Resting(s, c.window - u, Receiver(c.window - u, [], [], 0, u, 0, 0))
  }

  /** s with an open stream, empty channels and this credit and receiver. */
  function Resting(s: Link, credit: nat, r: Receiver): Link {
    s.(credit := credit, finSent := false, wire := [], receiver := r, updates := [], reset := false)
  }

  /** One byte sent, delivered, consumed and counted. */
  function Drop(): seq<Event> {
    [SendData([0])] + [Deliver] + [Pop] + [Consume(1)] + [Count]
  }

  function Drip(u: nat): seq<Event> {
    if u == 0 then [] else Drip(u - 1) + Drop()
  }

  lemma DropIsFiveSteps(c: Params, s: Link)
    ensures ExecFrom(c, s, Drop()) ==
      Step(c, Step(c, Step(c, Step(c, Step(c, s, SendData([0])), Deliver), Pop), Consume(1)), Count)
  {
    assert [] + [SendData([0])] == [SendData([0])];
    ExecOne(c, s, [], SendData([0]));
    ExecOne(c, s, [SendData([0])], Deliver);
    ExecOne(c, s, [SendData([0])] + [Deliver], Pop);
    ExecOne(c, s, [SendData([0])] + [Deliver] + [Pop], Consume(1));
    ExecOne(c, s, [SendData([0])] + [Deliver] + [Pop] + [Consume(1)], Count);
  }

  /** One byte of u + 1 sits in the queue; the other u are counted. */
  predicate OneQueued(c: Params, s: Link, u: nat) {
    u < c.window && s == Resting(s, c.window - (u + 1), Receiver(c.window - (u + 1), [Data([0])], [], 0, u, 0, 0))
  }

  lemma ByteArrives(c: Params, s: Link, u: nat)
    requires c.buffer >= 1 && Dripped(c, s, u) && u < c.window
    ensures OneQueued(c, Step(c, Step(c, s, SendData([0])), Deliver), u)
  {
    var sent := Step(c, s, SendData([0]));
    assert sent.wire == [Data([0])] && sent.wire[1..] == [];
  }

  lemma ByteIsCounted(c: Params, s: Link, u: nat)
    requires Sane(c) && OneQueued(c, s, u) && u + 1 < c.threshold && u + 1 + MAX_STREAM_FRAME <= c.window
    ensures Dripped(c, Step(c, Step(c, Step(c, s, Pop), Consume(1)), Count), u + 1)
  {
    var popped := Step(c, s, Pop);
    assert popped.receiver == Receiver(c.window - (u + 1), [], [0], 0, u, 0, 0);
    var taken := Step(c, popped, Consume(1));
    assert taken.receiver == Receiver(c.window - (u + 1), [], [], 1, u, 0, 0);
  }

  lemma {:induction false} DripLeaves(c: Params, u: nat)
    requires Sane(c) && c.buffer >= 1 && (u == 0 || (u < c.threshold && u + MAX_STREAM_FRAME <= c.window))
    ensures Dripped(c, Exec(c, Drip(u)), u)
  {
    if u > 0 {
      DripLeaves(c, u - 1);
      var s := Exec(c, Drip(u - 1));
      ByteArrives(c, s, u - 1);
      ByteIsCounted(c, Step(c, Step(c, s, SendData([0])), Deliver), u - 1);
      DropIsFiveSteps(c, s);
      ExecSplit(c, Init(c), Drip(u - 1), Drop());
    }
  }

  /** At rest the sender can always afford a frame of n bytes exactly when n is within the least rest credit. */
  lemma NoStallIffFrameIsAffordable(c: Params, n: nat)
    requires Sane(c) && c.buffer >= 1
    ensures (forall es :: !Exec(c, es).reset && Quiescent(Exec(c, es)) ==> Exec(c, es).credit >= n)
            <==> n <= LeastRestCredit(c)
  {
    if n <= LeastRestCredit(c) {
      forall es | !Exec(c, es).reset && Quiescent(Exec(c, es)) ensures Exec(c, es).credit >= n {
        ExecKeeps(c, es);
        QuiescentCredit(c, Exec(c, es));
      }
    } else {
      var u := c.window - LeastRestCredit(c);
      DripLeaves(c, u);
      assert Quiescent(Exec(c, Drip(u)));
    }
  }

  /**
   * At rest the sender can always afford a whole piece, exactly when the window holds
   * one. The threshold plays no part: the early flush below one piece covers it.
   */
  lemma NoStallIffWindowHoldsFrame(c: Params)
    requires Sane(c)
    ensures (forall es :: !Exec(c, es).reset && Quiescent(Exec(c, es)) ==> Exec(c, es).credit >= MAX_STREAM_FRAME)
            <==> c.window >= MAX_STREAM_FRAME
  {
    if c.window >= MAX_STREAM_FRAME {
      forall es | !Exec(c, es).reset && Quiescent(Exec(c, es)) ensures Exec(c, es).credit >= MAX_STREAM_FRAME {
        ExecKeeps(c, es);
        QuiescentCredit(c, Exec(c, es));
      }
    } else {
      assert Quiescent(Exec(c, []));
    }
  }

  /** The events of the channels and of the receiver, none of which the sender takes part in. */
  predicate Internal(e: Event) {
    !e.SendData? && !e.SendFin?
  }

  /** Work left before the receiver and the channels are at rest. */
  function Rank(s: Link): nat {
    var r := s.receiver;
    2 * |s.wire| + 6 * Load(s.wire) + |r.queue| + 6 * Load(r.queue) + 6 * |r.inHand|
    + (if r.taken > 0 then 4 else 0) + (if r.crediting > 0 then 3 else 0)
    + (if r.announcing > 0 then 2 else 0) + |s.updates|
  }

  lemma DeliverDecreases(c: Params, s: Link)
    requires c.buffer >= c.window && Inv(c, s) && Enabled(s, Deliver)
    ensures Rank(Apply(c, s, Deliver)) < Rank(s)
    ensures Apply(c, s, Deliver).credit == s.credit
  {
    if s.wire[0].Data? {
      DataAdmitted(c, s);
    }
    AppendOne(s.receiver.queue, s.wire[0]);
    var r := Apply(c, s, Deliver).receiver;
    assert r.queue == s.receiver.queue || r.queue == s.receiver.queue + [s.wire[0]];
  }

  lemma TakeDecreases(c: Params, s: Link, e: Event)
    requires Enabled(s, e) && (e.Pop? || e.Consume?)
    ensures Rank(Apply(c, s, e)) < Rank(s) && Apply(c, s, e).credit == s.credit
  {
  }

  lemma UpdateDecreases(c: Params, s: Link, e: Event)
    requires Inv(c, s) && Enabled(s, e) && (e.Count? || e.Grow? || e.Announce?)
    ensures Rank(Apply(c, s, e)) < Rank(s) && Apply(c, s, e).credit == s.credit
  {
  }

  lemma RefillDecreases(c: Params, s: Link)
    requires Sane(c) && Inv(c, s) && Enabled(s, Refill)
    ensures Rank(Apply(c, s, Refill)) < Rank(s) && Apply(c, s, Refill).credit >= s.credit
  {
    RefillKeeps(c, s);
  }

  lemma InternalDecreases(c: Params, s: Link, e: Event)
    requires Sane(c) && c.buffer >= c.window && Inv(c, s) && Internal(e) && Enabled(s, e)
    ensures Rank(Apply(c, s, e)) < Rank(s)
    ensures Apply(c, s, e).credit >= s.credit
  {
    match e {
      case Deliver => DeliverDecreases(c, s);
      case Pop => TakeDecreases(c, s, e);
      case Consume(_) => TakeDecreases(c, s, e);
      case Refill => RefillDecreases(c, s);
      case _ => UpdateDecreases(c, s, e);
    }
  }

  /** A schedule of internal events none of which is skipped. */
  predicate Effective(c: Params, s: Link, es: seq<Event>) {
    forall i :: 0 <= i < |es| ==> Internal(es[i]) && Enabled(ExecFrom(c, s, es[..i]), es[i])
  }

  lemma {:induction false} InternalRunsAreBounded(c: Params, s: Link, es: seq<Event>)
    requires Sane(c) && c.buffer >= c.window && Inv(c, s) && Effective(c, s, es)
    ensures |es| + Rank(ExecFrom(c, s, es)) <= Rank(s)
    ensures ExecFrom(c, s, es).credit >= s.credit
  {
    if es != [] {
      var before := es[..|es| - 1];
      assert forall i :: 0 <= i < |before| ==> before[..i] == es[..i];
      InternalRunsAreBounded(c, s, before);
      ExecFromKeeps(c, s, before);
      InternalDecreases(c, ExecFrom(c, s, before), es[|es| - 1]);
    }
  }

  /** Short of rest there is something for the receiver or a channel to do. */
  lemma UnrestMoves(s: Link)
    requires !s.reset && !Quiescent(s)
    ensures exists e :: Internal(e) && Enabled(s, e)
  {
    var r := s.receiver;
    var e :=
      if s.wire != [] then Deliver else if s.updates != [] then Refill
      else if r.announcing > 0 then Announce else if r.crediting > 0 then Grow else if r.taken > 0 then Count
      else if r.inHand != [] then Consume(|r.inHand|) else Pop;
    assert Internal(e) && Enabled(s, e);
  }

  /**
   * From every reachable state, an affordable frame that waits for credit gets
   * it after boundedly many receiver and channel steps, whichever are taken: as long
   * as the credit is short some such step is possible, and each one leaves less to do.
   */
  lemma {:induction false} BlockedWriteProceeds(c: Params, es: seq<Event>, more: seq<Event>, size: nat)
    requires Sane(c) && c.buffer >= c.window && size <= LeastRestCredit(c)
    requires Effective(c, Exec(c, es), more)
    ensures |more| <= Rank(Exec(c, es))
    ensures
      var t := Exec(c, es + more);
      size <= t.credit || exists e :: Internal(e) && Enabled(t, e)
  {
    InitInv(c);
    ExecFromKeeps(c, Init(c), es);
    InternalRunsAreBounded(c, Exec(c, es), more);
    ExecFromKeeps(c, Init(c), es + more);
    ExecSplit(c, Init(c), es, more);
    var t := Exec(c, es + more);
    if Quiescent(t) {
      QuiescentCredit(c, t);
    } else {
      UnrestMoves(t);
    }
  }
}
