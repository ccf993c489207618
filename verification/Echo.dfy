/**
 * The echo engine: many echoes in flight over one ping socket, told apart by a 16-bit
 * sequence number that wraps. Events are the sections under the engine's mutex and the
 * channel operations between them.
 */
module Echo {
  import opened Bytes
  import opened Wrappers

  const SPACE: nat := 0x1_0000

  datatype Request = Request(identifier: nat, sequence: nat, data: seq<Byte>)

  datatype Reply = Reply(identifier: nat, sequence: nat, data: seq<Byte>)

  datatype Outcome = Answered(reply: Reply) | TimedOut | Failed

  /** A sender: waiting on its channel, past a timer whose release found nothing, or returned. */
  datatype Phase = Waiting | Polling | Finished(outcome: Outcome)

  /** One registered Send: the sequence it took, the count of candidates tried before that one, its channel. */
  datatype Send = Send(request: Request, wire: nat, tick: nat, delivered: nat, mail: Option<Reply>, phase: Phase)

  /** The read loop between removing an association and putting the reply on its channel. */
  datatype Hand = Idle | Delivering(owner: nat, reply: Reply)

  /** ticks counts every advance of the wrapping counter, which therefore stands at Wrap(ticks + 1). */
  datatype State = State(
    pending: map<nat, nat>, ticks: nat, sends: seq<Send>, hand: Hand, closed: bool, broken: bool)

  datatype Event =
    | Register(request: Request)
    | Datagram(wire: nat, data: seq<Byte>)
    | Deliver
    | Receive(owner: nat)
    | Timer(owner: nat)
    | Poll(owner: nat)
    | Abandon(owner: nat)
    | FailAll
    | Close

  function Wrap(n: nat): (r: nat)
    ensures r < SPACE
  {
    n % SPACE
  }

  /** How many candidates from counter value n on are busy before the first free one or the end. */
  function Busy(pending: map<nat, nat>, n: nat, end: nat): (k: nat)
    requires n <= end
    ensures n + k <= end
    decreases end - n
  {
    if n == end || Wrap(n) !in pending then 0 else 1 + Busy(pending, n + 1, end)
  }

  /** The allocator's answer is the first free candidate, and it gives up only when every one is busy. */
  lemma {:induction false} BusyIsFirstFree(pending: map<nat, nat>, n: nat, end: nat)
    requires n <= end
    ensures
      var k := Busy(pending, n, end);
      && (forall i :: n <= i < n + k ==> Wrap(i) in pending)
      && (n + k < end ==> Wrap(n + k) !in pending)
    decreases end - n
  {
    if n < end && Wrap(n) in pending {
      BusyIsFirstFree(pending, n + 1, end);
    }
  }

  function Init(): State {
    State(map[], 0, [], Idle, false, false)
  }

  /** A reply read off the wire is built from the association it matched. */
  function OwnReply(q: Request): Reply {
    Reply(q.identifier, q.sequence, q.data)
  }

  predicate IsWaiting(s: State, owner: nat) {
    owner < |s.sends| && s.sends[owner].phase == Waiting
  }

  predicate Enabled(max: nat, s: State, e: Event) {
    match e
    case Register(_) => !s.closed && |s.pending| < max
    case Datagram(_, _) => s.hand == Idle && !s.broken
    case Deliver => s.hand.Delivering? && s.hand.owner < |s.sends| && s.sends[s.hand.owner].mail == None
    case Receive(o) => IsWaiting(s, o) && s.sends[o].mail.Some?
    case Timer(o) => IsWaiting(s, o)
    case Poll(o) => o < |s.sends| && s.sends[o].phase == Polling
    case Abandon(o) => IsWaiting(s, o)
    case FailAll => s.hand == Idle && !s.broken
    case Close => !s.closed
  }

  function SetSend(s: State, o: nat, x: Send): State
    requires o < |s.sends|
  {
    s.(sends := s.sends[o := x])
  }

  function Released(s: State, o: nat): map<nat, nat>
    requires o < |s.sends|
  {
    s.pending - {s.sends[o].wire}
  }

  /** The send that takes the candidate after skipping k. */
  function NewSend(ticks: nat, q: Request, k: nat): Send {
    Send(q, Wrap(ticks + 1 + k), ticks + k, 0, None, Waiting)
  }

  function Taken(s: State, x: Send): State {
    s.(ticks := x.tick + 1, pending := s.pending[x.wire := |s.sends|], sends := s.sends + [x])
  }

  /** How many busy sequences the allocator passes over; all of them means it fails. */
  function Candidate(s: State): (k: nat)
    ensures k <= SPACE
  {
    Busy(s.pending, s.ticks + 1, s.ticks + 1 + SPACE)
  }

  function Registered(s: State, q: Request): State {
    var k := Candidate(s);
    if k == SPACE then s.(ticks := s.ticks + SPACE) else Taken(s, NewSend(s.ticks, q, k))
  }

  function Apply(max: nat, s: State, e: Event): State
    requires Enabled(max, s, e)
  {
    match e
    case Register(q) => Registered(s, q)
    case Datagram(wire, data) =>
      if wire !in s.pending || s.pending[wire] >= |s.sends| || s.sends[s.pending[wire]].request.data != data then s
      else
        var q := s.sends[s.pending[wire]].request;
        s.(pending := s.pending - {wire}, hand := Delivering(s.pending[wire], Reply(q.identifier, q.sequence, data)))
    case Deliver =>
      var x := s.sends[s.hand.owner];
      SetSend(s, s.hand.owner, x.(mail := Some(s.hand.reply), delivered := x.delivered + 1)).(hand := Idle)
    case Receive(o) =>
      var x := s.sends[o];
      SetSend(s, o, x.(mail := None, phase := Finished(Answered(x.mail.value))))
    case Timer(o) =>
      var x := s.sends[o];
      var p := if x.wire in s.pending then Finished(TimedOut) else Polling;
      SetSend(s, o, x.(phase := p)).(pending := Released(s, o))
    case Poll(o) =>
      var x := s.sends[o];
      SetSend(s, o, x.(mail := None, phase := Finished(if x.mail.Some? then Answered(x.mail.value) else TimedOut)))
    case Abandon(o) =>
      SetSend(s, o, s.sends[o].(phase := Finished(Failed))).(pending := Released(s, o))
    case FailAll => s.(broken := true, pending := map[])
    case Close => s.(closed := true)
  }

  function Step(max: nat, s: State, e: Event): State {
    if Enabled(max, s, e) then Apply(max, s, e) else s
  }

  function Exec(max: nat, es: seq<Event>): State {
    if es == [] then Init() else Step(max, Exec(max, es[..|es| - 1]), es[|es| - 1])
  }

  // ---------------------------------------------------------------------------
  // The invariant
  // ---------------------------------------------------------------------------

  /** A send's own record: one delivery at most, and only its own data ever comes back to it. */
  predicate SendOk(x: Send, ticks: nat) {
    && x.tick < ticks
    && x.delivered <= 1
    && (x.mail.Some? ==> x.delivered == 1 && x.mail.value == OwnReply(x.request))
    && (x.phase.Finished? && x.phase.outcome.Answered? ==> x.phase.outcome.reply == OwnReply(x.request))
  }

  predicate Numbered(x: Send) {
    x.wire == Wrap(x.tick + 1)
  }

  predicate Sends(sends: seq<Send>, ticks: nat) {
    && (forall i :: 0 <= i < |sends| ==> SendOk(sends[i], ticks))
    && (forall i :: 0 <= i < |sends| ==> Numbered(sends[i]))
    && (forall i, j :: 0 <= i < j < |sends| ==> sends[i].tick < sends[j].tick)
  }

  /** Send o holds sequence w and has not been answered. */
  predicate Holder(w: nat, o: nat, sends: seq<Send>) {
    o < |sends| && sends[o].wire == w && sends[o].delivered == 0
  }

  /** A pending sequence belongs to the latest send that took it. */
  predicate Pending(pending: map<nat, nat>, sends: seq<Send>) {
    && (forall w :: w in pending ==> Holder(w, pending[w], sends))
    && (forall w, j :: w in pending && pending[w] < j < |sends| ==> sends[j].wire != w)
  }

  predicate HandOk(hand: Hand, pending: map<nat, nat>, sends: seq<Send>) {
    hand.Delivering? ==>
      && hand.owner < |sends| && sends[hand.owner].delivered == 0 && hand.reply == OwnReply(sends[hand.owner].request)
      && forall w :: w in pending ==> pending[w] != hand.owner
  }

  predicate Inv(max: nat, s: State) {
    Sends(s.sends, s.ticks) && Pending(s.pending, s.sends) && HandOk(s.hand, s.pending, s.sends) && |s.pending| <= max
  }

  predicate Shrunk(small: map<nat, nat>, big: map<nat, nat>) {
    |small| <= |big| && forall w :: w in small ==> w in big && small[w] == big[w]
  }

  lemma RemoveShrinks(m: map<nat, nat>, w: nat)
    ensures Shrunk(m - {w}, m)
  {
  }

  lemma LaterKeepsSends(sends: seq<Send>, ticks: nat, later: nat)
    requires Sends(sends, ticks) && ticks <= later
    ensures Sends(sends, later)
  {
  }

  lemma TakenKeeps(max: nat, s: State, x: Send)
    requires Inv(max, s) && |s.pending| < max
    requires x.wire !in s.pending && x.delivered == 0 && s.ticks <= x.tick && SendOk(x, x.tick + 1) && Numbered(x)
    ensures Inv(max, Taken(s, x))
  {
    AppendSends(s.sends, s.ticks, x);
    AppendPending(s.pending, s.sends, x);
    AppendHand(s.hand, s.pending, s.sends, x);
  }

  lemma AppendSends(sends: seq<Send>, ticks: nat, x: Send)
    requires Sends(sends, ticks) && ticks <= x.tick && SendOk(x, x.tick + 1) && Numbered(x)
    ensures Sends(sends + [x], x.tick + 1)
  {
  }

  lemma AppendPending(pending: map<nat, nat>, sends: seq<Send>, x: Send)
    requires Pending(pending, sends) && x.wire !in pending && x.delivered == 0
    ensures Pending(pending[x.wire := |sends|], sends + [x])
  {
  }

  lemma AppendHand(hand: Hand, pending: map<nat, nat>, sends: seq<Send>, x: Send)
    requires HandOk(hand, pending, sends)
    ensures HandOk(hand, pending[x.wire := |sends|], sends + [x])
  {
  }

  lemma CandidateIsFree(s: State)
    requires Candidate(s) < SPACE
    ensures Wrap(s.ticks + 1 + Candidate(s)) !in s.pending
  {
    BusyIsFirstFree(s.pending, s.ticks + 1, s.ticks + 1 + SPACE);
  }

  lemma RegisterKeeps(max: nat, s: State, q: Request)
    requires Inv(max, s) && |s.pending| < max
    ensures Inv(max, Registered(s, q))
  {
    var k := Candidate(s);
    if k == SPACE {
      LaterKeepsSends(s.sends, s.ticks, s.ticks + SPACE);
    } else {
      CandidateIsFree(s);
      TakenKeeps(max, s, NewSend(s.ticks, q, k));
    }
  }

  /** x is the same send as y further along. */
  predicate SameSend(x: Send, y: Send) {
    x.request == y.request && x.wire == y.wire && x.tick == y.tick
  }

  lemma SetSends(sends: seq<Send>, ticks: nat, o: nat, x: Send)
    requires Sends(sends, ticks) && o < |sends| && SendOk(x, ticks) && SameSend(x, sends[o])
    ensures Sends(sends[o := x], ticks)
  {
  }

  lemma SetPending(pending: map<nat, nat>, less: map<nat, nat>, sends: seq<Send>, o: nat, x: Send)
    requires Pending(pending, sends) && Shrunk(less, pending) && o < |sends| && SameSend(x, sends[o])
    requires x.delivered == sends[o].delivered || forall w :: w in less ==> less[w] != o
    ensures Pending(less, sends[o := x])
  {
  }

  /** Changing one send's channel or phase, and releasing some sequence, keeps the invariant. */
  lemma ChangeKeeps(max: nat, s: State, o: nat, x: Send, less: map<nat, nat>)
    requires Inv(max, s) && o < |s.sends| && SendOk(x, s.ticks) && SameSend(x, s.sends[o])
    requires x.delivered == s.sends[o].delivered && Shrunk(less, s.pending)
    ensures Inv(max, SetSend(s, o, x).(pending := less))
  {
    SetSends(s.sends, s.ticks, o, x);
    SetPending(s.pending, less, s.sends, o, x);
  }

  lemma DatagramKeeps(max: nat, s: State, e: Event)
    requires Inv(max, s) && Enabled(max, s, e) && e.Datagram?
    ensures Inv(max, Apply(max, s, e))
  {
  }

  lemma DeliverKeeps(max: nat, s: State)
    requires Inv(max, s) && Enabled(max, s, Deliver)
    ensures Inv(max, Apply(max, s, Deliver))
  {
    var o := s.hand.owner;
    var x := s.sends[o].(mail := Some(s.hand.reply), delivered := s.sends[o].delivered + 1);
    assert SendOk(s.sends[o], s.ticks);
    SetSends(s.sends, s.ticks, o, x);
    SetPending(s.pending, s.pending, s.sends, o, x);
  }

  lemma SenderKeeps(max: nat, s: State, e: Event)
    requires Inv(max, s) && Enabled(max, s, e) && (e.Receive? || e.Timer? || e.Poll? || e.Abandon?)
    ensures Inv(max, Apply(max, s, e))
  {
    var x := s.sends[e.owner];
    assert SendOk(x, s.ticks);
    RemoveShrinks(s.pending, x.wire);
    match e
    case Receive(o) =>
      ChangeKeeps(max, s, o, x.(mail := None, phase := Finished(Answered(x.mail.value))), s.pending);
    case Timer(o) =>
      ChangeKeeps(max, s, o, x.(phase := if x.wire in s.pending then Finished(TimedOut) else Polling), Released(s, o));
    case Poll(o) =>
      var out := if x.mail.Some? then Answered(x.mail.value) else TimedOut;
      ChangeKeeps(max, s, o, x.(mail := None, phase := Finished(out)), s.pending);
    case Abandon(o) =>
      ChangeKeeps(max, s, o, x.(phase := Finished(Failed)), Released(s, o));
  }

  lemma StepKeeps(max: nat, s: State, e: Event)
    requires Inv(max, s)
    ensures Inv(max, Step(max, s, e))
  {
    if Enabled(max, s, e) {
      match e {
        case Register(q) => RegisterKeeps(max, s, q);
        case Datagram(_, _) => DatagramKeeps(max, s, e);
        case Deliver => DeliverKeeps(max, s);
        case FailAll =>
        case Close =>
        case _ => SenderKeeps(max, s, e);
      }
    }
  }

  lemma {:induction false} ExecKeeps(max: nat, es: seq<Event>)
    ensures Inv(max, Exec(max, es))
  {
    if es != [] {
      ExecKeeps(max, es[..|es| - 1]);
      StepKeeps(max, Exec(max, es[..|es| - 1]), es[|es| - 1]);
    }
  }

  // ---------------------------------------------------------------------------
  // What holds on every run
  // ---------------------------------------------------------------------------

  /** The budget is never exceeded. */
  lemma {:induction false} InFlightWithinBudget(max: nat, es: seq<Event>)
    ensures |Exec(max, es).pending| <= max
  {
    ExecKeeps(max, es);
  }

  /** The read loop never blocks: the channel it is about to fill is empty and never was filled before. */
  lemma {:induction false} DeliveryNeverBlocks(max: nat, es: seq<Event>)
    requires Exec(max, es).hand.Delivering?
    ensures Enabled(max, Exec(max, es), Deliver)
    ensures Exec(max, es).sends[Exec(max, es).hand.owner].delivered == 0
  {
    ExecKeeps(max, es);
    var s := Exec(max, es);
    assert SendOk(s.sends[s.hand.owner], s.ticks);
  }

  /** A send gets at most one reply, and an answer it returns carries its own identifier, sequence and data. */
  lemma {:induction false} AnswerIsOwn(max: nat, es: seq<Event>, o: nat)
    requires o < |Exec(max, es).sends|
    ensures
      var x := Exec(max, es).sends[o];
      && x.delivered <= 1
      && (x.phase.Finished? && x.phase.outcome.Answered? ==>
            x.phase.outcome.reply == Reply(x.request.identifier, x.request.sequence, x.request.data))
  {
    ExecKeeps(max, es);
    assert SendOk(Exec(max, es).sends[o], Exec(max, es).ticks);
  }

  /**
   * While the counter has advanced fewer than 65536 times since a send took its sequence, the
   * sequence is either free or still that send's own: releasing it disturbs nobody else.
   */
  lemma {:induction false} ReleaseIsOwn(max: nat, es: seq<Event>, o: nat)
    requires o < |Exec(max, es).sends|
    requires Exec(max, es).ticks - (Exec(max, es).sends[o].tick + 1) < SPACE
    ensures
      var s := Exec(max, es);
      s.sends[o].wire in s.pending ==> s.pending[s.sends[o].wire] == o
  {
    ExecKeeps(max, es);
    var s := Exec(max, es);
    var w := s.sends[o].wire;
    if w in s.pending {
      var p := s.pending[w];
      assert Holder(w, p, s.sends) && SendOk(s.sends[p], s.ticks);
      if o < p {
        assert Numbered(s.sends[o]) && Numbered(s.sends[p]) && s.sends[o].tick < s.sends[p].tick;
        LaterHolderIsFar(s.sends[o], s.sends[p]);
      }
    }
  }

  /** Two sends that took the same sequence did so a whole turn of the counter apart. */
  lemma LaterHolderIsFar(x: Send, y: Send)
    requires Numbered(x) && Numbered(y) && x.wire == y.wire && x.tick < y.tick
    ensures x.tick + SPACE <= y.tick
  {
  }

  function Extend(es: seq<Event>, e: Event): seq<Event> {
    es + [e]
  }

  lemma {:induction false} ExtendSteps(max: nat, es: seq<Event>, e: Event)
    ensures Exec(max, Extend(es, e)) == Step(max, Exec(max, es), e)
  {
  }

  const PROBE := Request(0, 0, [])

  /** The first send was answered but has not looked yet; n others came and went since. */
  ghost predicate Lingering(s: State, n: nat) {
    && s.pending == map[] && s.ticks == n + 1 && |s.sends| == n + 1 && s.hand == Idle && !s.closed && !s.broken
    && s.sends[0].phase == Waiting && s.sends[0].tick == 0 && s.sends[0].wire == 1
  }

  lemma RegisterAlone(max: nat, s: State)
    requires max >= 1 && s.pending == map[] && !s.closed
    ensures Step(max, s, Register(PROBE)) == Taken(s, NewSend(s.ticks, PROBE, 0))
  {
  }

  lemma OneMore(max: nat, s: State, n: nat)
    requires max >= 1 && Lingering(s, n)
    ensures
      var t := Step(max, s, Register(PROBE));
      && t == Taken(s, NewSend(n + 1, PROBE, 0))
      && Lingering(Step(max, t, Abandon(n + 1)), n + 1)
  {
  }

  lemma AnswerFirst(max: nat, s: State, x: Send)
    requires max >= 1 && s == Init() && x == NewSend(s.ticks, PROBE, 0)
    ensures Step(max, s, Register(PROBE)) == Taken(s, x)
    ensures Step(max, Taken(s, x), Datagram(1, [])) ==
            State(map[], 1, [x], Delivering(0, Reply(0, 0, [])), false, false)
  {
    RegisterAlone(max, s);
    var t := Taken(s, x);
    assert t.sends[0] == x && t.pending == map[1 := 0];
    assert t.pending - {1} == map[];
  }

  lemma Lingers(max: nat) returns (es: seq<Event>)
    requires max >= 1
    ensures Lingering(Exec(max, es), 0)
  {
    var x := NewSend(0, PROBE, 0);
    AnswerFirst(max, Init(), x);
    es := Extend([], Register(PROBE));
    ExtendSteps(max, [], Register(PROBE));
    ExtendSteps(max, es, Datagram(1, []));
    es := Extend(es, Datagram(1, []));
    ExtendSteps(max, es, Deliver);
    es := Extend(es, Deliver);
  }

  lemma ManyOthers(max: nat, n: nat) returns (es: seq<Event>)
    requires max >= 1
    ensures Lingering(Exec(max, es), n)
  {
    es := Lingers(max);
    for i := 0 to n
      invariant Lingering(Exec(max, es), i)
    {
      OneMore(max, Exec(max, es), i);
      ExtendSteps(max, es, Register(PROBE));
      es := Extend(es, Register(PROBE));
      ExtendSteps(max, es, Abandon(i + 1));
      es := Extend(es, Abandon(i + 1));
    }
  }

  /** The bound is tight: after exactly 65536 advances a waiting send's sequence can be another's. */
  lemma ReleaseCanHitAnother(max: nat) returns (es: seq<Event>)
    requires max >= 1
    ensures
      var s := Exec(max, es);
      && |s.sends| > 0 && IsWaiting(s, 0) && s.ticks - (s.sends[0].tick + 1) == SPACE
      && s.sends[0].wire in s.pending && s.pending[s.sends[0].wire] != 0
  {
    var n := SPACE - 1;
    es := ManyOthers(max, n);
    OneMore(max, Exec(max, es), n);
    ExtendSteps(max, es, Register(PROBE));
    es := Extend(es, Register(PROBE));
    assert Wrap(n + 2) == 1;
  }

  /** A budget below the size of the sequence space always leaves the allocator a free sequence. */
  lemma AllocationSucceedsUnderBudget(s: State)
    requires |s.pending| < SPACE
    ensures Candidate(s) < SPACE
  {
    if Candidate(s) == SPACE {
      BusyIsFirstFree(s.pending, s.ticks + 1, s.ticks + 1 + SPACE);
      AllResidues(s.pending.Keys, s.ticks + 1, SPACE);
    }
  }

  lemma {:induction false} AllResidues(keys: set<nat>, n: nat, k: nat)
    requires k <= SPACE && forall i :: n <= i < n + k ==> Wrap(i) in keys
    ensures |keys| >= k
  {
    if k > 0 {
      var last := Wrap(n + k - 1);
      forall i | n <= i < n + k - 1 ensures Wrap(i) in keys - {last} {
        ApartIsDistinct(i, n + k - 1);
      }
      AllResidues(keys - {last}, n, k - 1);
    }
  }

  lemma ApartIsDistinct(a: nat, b: nat)
    requires a < b < a + SPACE
    ensures Wrap(a) != Wrap(b)
  {
  }

  // ---------------------------------------------------------------------------
  // The engine's locked sections
  // ---------------------------------------------------------------------------

  lemma BusyStep(pending: map<nat, nat>, n: nat, end: nat)
    requires n < end
    ensures Busy(pending, n, end) == if Wrap(n) in pending then 1 + Busy(pending, n + 1, end) else 0
  {
  }

  lemma WrapNext(n: nat)
    ensures Wrap(Wrap(n) + 1) == Wrap(n + 1)
  {
  }

  /** The engine's fields, with the associations it created and what its read loop has in hand. */
  class Echoer {
    const maxConcurrent: nat
    var pending: map<nat, nat>
    var nextSeq: nat
    var sends: seq<Send>
    var hand: Hand
    var closed: bool
    var broken: bool
    /** Bookkeeping: how far the counter has come altogether. */
    var ticks: nat

    ghost function View(): State
      reads this
    {
      State(pending, ticks, sends, hand, closed, broken)
    }

    ghost predicate Valid()
      reads this
    {
      nextSeq == Wrap(ticks + 1) && forall w :: w in pending ==> pending[w] < |sends|
    }

    /** A budget that is not positive becomes 64. */
    constructor (maxConcurrent: int)
      ensures Valid() && View() == Init() && nextSeq == 1
      ensures this.maxConcurrent as int == if maxConcurrent <= 0 then 64 else maxConcurrent
    {
      this.maxConcurrent := if maxConcurrent <= 0 then 64 else maxConcurrent;
      pending, nextSeq, sends, hand, closed, broken, ticks := map[], 1, [], Idle, false, false, 0;
    }

    /** Tries each sequence once, from the counter on, wrapping round. */
    method AllocateSequence() returns (r: Option<nat>)
      requires nextSeq == Wrap(ticks + 1)
      modifies this`nextSeq, this`ticks
      ensures nextSeq == Wrap(ticks + 1)
      ensures
        var k := Candidate(old(View()));
        if k == SPACE then r == None && ticks == old(ticks) + SPACE
        else r == Some(Wrap(old(ticks) + 1 + k)) && ticks == old(ticks) + k + 1
    {
      ghost var end, k := ticks + 1 + SPACE, Candidate(View());
      for attempt := 0 to SPACE
        invariant nextSeq == Wrap(ticks + 1) && ticks == old(ticks) + attempt
        invariant k == attempt + Busy(pending, ticks + 1, end)
      {
        var candidate := nextSeq;
        BusyStep(pending, ticks + 1, end);
        WrapNext(ticks + 1);
        nextSeq := Wrap(nextSeq + 1);
        ticks := ticks + 1;
        if candidate !in pending {
          return Some(candidate);
        }
      }
      return None;
    }

    /**
     * The first section of Send is the machine's step: refused when closed or over budget, otherwise
     * registered under a sequence nobody holds, and out of sequences only when every one is taken.
     */
    method Register(q: Request) returns (r: Option<nat>)
      requires Valid()
      modifies this`pending, this`nextSeq, this`ticks, this`sends
      ensures Valid() && View() == Step(maxConcurrent, old(View()), Event.Register(q))
      ensures r.Some? ==> |sends| == |old(sends)| + 1 && r.value < SPACE && r.value !in old(pending)
      ensures r == None ==> pending == old(pending) && sends == old(sends)
      ensures r == None && !closed && |old(pending)| < maxConcurrent ==> forall w :: 0 <= w < SPACE ==> w in pending
    {
      if closed || |pending| >= maxConcurrent {
        return None;
      }
      ghost var s := View();
      BusyIsFirstFree(pending, ticks + 1, ticks + 1 + SPACE);
      r := AllocateSequence();
      if r.None? {
        forall w | 0 <= w < SPACE ensures w in pending {
          ghost var i := SomeResidue(s.ticks + 1, w);
        }
        return;
      }
      CandidateIsFree(s);
      pending := pending[r.value := |sends|];
      sends := sends + [Send(q, r.value, ticks - 1, 0, None, Waiting)];
    }

    /** A datagram answers the association of its sequence only if it carries that association's data. */
    method HandleDatagram(wire: nat, data: seq<Byte>)
      requires Valid() && hand == Idle && !broken
      modifies this`pending, this`hand
      ensures Valid() && View() == Step(maxConcurrent, old(View()), Datagram(wire, data))
    {
      if wire !in pending {
        return;
      }
      var entry := sends[pending[wire]];
      if entry.request.data != data {
        return;
      }
      hand := Delivering(pending[wire], Reply(entry.request.identifier, entry.request.sequence, data));
      pending := pending - {wire};
    }

    /** The reply goes into the association's one-slot channel. */
    method DeliverReply()
      requires Valid() && hand.Delivering? && hand.owner < |sends| && sends[hand.owner].mail == None
      modifies this`sends, this`hand
      ensures Valid() && View() == Step(maxConcurrent, old(View()), Deliver)
    {
      var x := sends[hand.owner];
      sends := sends[hand.owner := x.(mail := Some(hand.reply), delivered := x.delivered + 1)];
      hand := Idle;
    }

    /** Drops the association of a sequence, whoever holds it, and says whether there was one. */
    method Release(wire: nat) returns (found: bool)
      modifies this`pending
      ensures pending == old(pending) - {wire} && (found <==> wire in old(pending))
    {
      found := wire in pending;
      pending := pending - {wire};
    }

    /** The timer fired: finding the association is a timeout, otherwise the channel is looked at once more. */
    method TimeOut(o: nat) returns (timedOut: bool)
      requires Valid() && IsWaiting(View(), o)
      modifies this`pending, this`sends
      ensures Valid() && View() == Step(maxConcurrent, old(View()), Timer(o))
      ensures timedOut <==> sends[o].phase == Finished(TimedOut)
    {
      var x := sends[o];
      timedOut := Release(x.wire);
      sends := sends[o := x.(phase := if timedOut then Finished(TimedOut) else Polling)];
    }
  }

  /** Any 65536 consecutive counter values meet every sequence. */
  lemma SomeResidue(n: nat, w: nat) returns (i: nat)
    requires w < SPACE
    ensures n <= i < n + SPACE && Wrap(i) == w
  {
    i := if Wrap(n) <= w then n + (w - Wrap(n)) else n + (w + SPACE - Wrap(n));
  }
}
