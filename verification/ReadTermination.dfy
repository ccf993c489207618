/**
 * Reading a client stream while the receive loop and other goroutines push to it and
 * finish it. Each event is one synchronised section of Read, push or finish, so the
 * gap between Read's look at the queue and its look at the terminal error is explicit.
 */
module ReadTermination {
  import opened Bytes

  /** Where a reader stands inside Read. */
  datatype Place =
    | Outside
    | AtBuffer    // about to serve buffered bytes
    | AtQueue     // about to pop the queue
    | AtError     // the queue was empty; about to look at the error
    | Parked      // waiting for the wake token or for done
    | AtDrain     // done was closed; about to pop once more
    | AtLastError // the last pop found nothing; about to report the error

  /** Where the receive loop stands inside push. */
  datatype Pushing = NoPush | Checked(payload: seq<Byte>) | Enqueued

  datatype State = State(
    readBuf: seq<Byte>, queue: seq<seq<Byte>>, token: bool, err: bool, done: bool,
    place: Place, pushing: Pushing,
    accepted: seq<Byte>, returned: seq<Byte>, late: nat, ended: bool)

  datatype Event =
    | CallRead
    | Serve(n: nat)
    | PopQueue
    | LookAtError
    | Wake
    | SeeDone
    | PopLast
    | ReportError
    | PushCheck(payload: seq<Byte>)
    | PushEnqueue
    | PushSignal
    | SetError
    | CloseDone

  function Init(): State {
    State([], [], false, false, false, Outside, NoPush, [], [], 0, false)
  }

  predicate Enabled(s: State, e: Event) {
    match e
    case CallRead => s.place == Outside && !s.ended
    case Serve(n) => s.place == AtBuffer && (if s.readBuf == [] then n == 0 else 1 <= n <= |s.readBuf|)
    case PopQueue => s.place == AtQueue
    case LookAtError => s.place == AtError
    case Wake => s.place == Parked && s.token
    case SeeDone => s.place == Parked && s.done
    case PopLast => s.place == AtDrain
    case ReportError => s.place == AtLastError
    case PushCheck(_) => s.pushing == NoPush
    case PushEnqueue => s.pushing.Checked?
    case PushSignal => s.pushing == Enqueued
    case SetError => !s.err
    case CloseDone => s.err && !s.done
  }

  /** A pop that finds a frame buffers it and starts over; one that finds none starts counting late bytes. */
  function PopTo(s: State, empty: Place): State {
    if s.queue == [] then s.(place := empty, late := 0)
    else s.(queue := s.queue[1..], readBuf := s.readBuf + s.queue[0], place := AtBuffer)
  }

  function Apply(s: State, e: Event): State
    requires Enabled(s, e)
  {
    match e
    case CallRead => s.(place := AtBuffer)
    case Serve(n) =>
      if n == 0 then s.(place := AtQueue)
      else s.(place := Outside, returned := s.returned + s.readBuf[..n], readBuf := s.readBuf[n..])
    case PopQueue => PopTo(s, AtError)
    case LookAtError => if s.err then s.(place := Outside, ended := true) else s.(place := Parked)
    case Wake => s.(place := AtBuffer, token := false)
    case SeeDone => s.(place := AtDrain)
    case PopLast => PopTo(s, AtLastError)
    case ReportError => s.(place := Outside, ended := true)
    case PushCheck(p) => if s.done then s else s.(pushing := Checked(p))
    case PushEnqueue =>
      s.(pushing := Enqueued, queue := s.queue + [s.pushing.payload],
         accepted := s.accepted + s.pushing.payload, late := s.late + |s.pushing.payload|)
    case PushSignal => s.(pushing := NoPush, token := true)
    case SetError => s.(err := true)
    case CloseDone => s.(done := true)
  }

  function Step(s: State, e: Event): State {
    if Enabled(s, e) then Apply(s, e) else s
  }

  function Exec(es: seq<Event>): State {
    if es == [] then Init() else Step(Exec(es[..|es| - 1]), es[|es| - 1])
  }

  lemma {:induction false} ExecOne(es: seq<Event>, e: Event)
    ensures Exec(es + [e]) == Step(Exec(es), e)
  {
  }

  /** Bytes accepted from the peer and not yet returned to the application. */
  function Unread(s: State): seq<Byte> {
    s.readBuf + Concat(s.queue)
  }

  /** The reader has seen an empty queue and has not looked at it again. */
  predicate SawEmpty(s: State) {
    s.place in {AtError, AtLastError}
  }

  predicate Inv(s: State) {
    && s.accepted == s.returned + Unread(s)
    && (s.place !in {Outside, AtBuffer} ==> s.readBuf == [])
    && (SawEmpty(s) ==> s.late == |Concat(s.queue)|)
    && (s.place in {AtError, Parked} && s.queue != [] ==> s.token || s.pushing == Enqueued)
    && (s.place in {AtDrain, AtLastError} ==> s.done)
    && (s.done ==> s.err)
    && (s.ended ==> s.place == Outside && s.err)
  }

  lemma PopKeeps(s: State, empty: Place)
    requires Inv(s) && s.place in {AtQueue, AtDrain} && empty in {AtError, AtLastError}
    requires empty == AtLastError ==> s.done
    ensures Inv(PopTo(s, empty))
  {
  }

  lemma PushKeeps(s: State)
    requires Inv(s) && Enabled(s, PushEnqueue)
    ensures Inv(Apply(s, PushEnqueue))
  {
    var p := s.pushing.payload;
    ConcatSplit(s.queue, [p]);
    ConcatOne(p);
    Assoc(s.returned, Unread(s), p);
    Assoc(s.readBuf, Concat(s.queue), p);
  }

  lemma ServeKeeps(s: State, n: nat)
    requires Inv(s) && Enabled(s, Serve(n))
    ensures Inv(Apply(s, Serve(n)))
  {
  }

  /** The events that move no bytes. */
  lemma MoveKeeps(s: State, e: Event)
    requires Inv(s) && Enabled(s, e) && !e.Serve? && !e.PopQueue? && !e.PopLast? && !e.PushEnqueue?
    ensures Inv(Apply(s, e))
  {
    assert Unread(Apply(s, e)) == Unread(s);
  }

  lemma StepKeeps(s: State, e: Event)
    requires Inv(s)
    ensures Inv(Step(s, e))
  {
    if Enabled(s, e) {
      match e {
        case Serve(n) => ServeKeeps(s, n);
        case PopQueue => PopKeeps(s, AtError);
        case PopLast => PopKeeps(s, AtLastError);
        case PushEnqueue => PushKeeps(s);
        case _ => MoveKeeps(s, e);
      }
    }
  }

  lemma {:induction false} ExecKeeps(es: seq<Event>)
    ensures Inv(Exec(es))
  {
    if es != [] {
      ExecKeeps(es[..|es| - 1]);
      StepKeeps(Exec(es[..|es| - 1]), es[|es| - 1]);
    }
  }

  /** On every schedule the bytes Read returned are a prefix of the accepted bytes, in order. */
  lemma {:induction false} ReturnedIsPrefix(es: seq<Event>)
    ensures Exec(es).returned <= Exec(es).accepted
    ensures Exec(es).accepted == Exec(es).returned + Unread(Exec(es))
  {
    ExecKeeps(es);
  }

  /**
   * A reader parked on an open stream has nothing to read, unless a wake token is
   * waiting for it or the push that filled the queue is about to leave one.
   */
  lemma {:induction false} NoLostWakeUp(es: seq<Event>)
    requires Exec(es).place == Parked && !Exec(es).token && Exec(es).pushing != Enqueued
    ensures Unread(Exec(es)) == []
  {
    ExecKeeps(es);
  }

  predicate Terminates(s: State, e: Event) {
    Enabled(s, e) && (e.ReportError? || (e.LookAtError? && s.err))
  }

  /**
   * Read reports the end of the stream with every accepted byte already returned
   * exactly when no byte was enqueued after the pop that found the queue empty.
   */
  lemma {:induction false} EndIsAfterEveryByteIffNothingLate(es: seq<Event>, e: Event)
    requires Terminates(Exec(es), e)
    ensures Step(Exec(es), e).ended
    ensures Step(Exec(es), e).returned == Step(Exec(es), e).accepted <==> Exec(es).late == 0
  {
    ExecKeeps(es);
    var s := Exec(es);
    assert |Unread(s)| == s.late;
  }

  /** When the failing pop and the look at the error are not separated, nothing is ever late. */
  lemma {:induction false} AtomicPassLosesNothing(es: seq<Event>, pop: Event, look: Event)
    requires (pop == PopQueue && look == LookAtError) || (pop == PopLast && look == ReportError)
    requires Enabled(Exec(es), pop) && Terminates(Step(Exec(es), pop), look)
    ensures
      var t := Exec(es + [pop] + [look]);
      t.ended && t.returned == t.accepted
  {
    ExecOne(es, pop);
    ExecOne(es + [pop], look);
    EndIsAfterEveryByteIffNothingLate(es + [pop], look);
  }

  /**
   * A push and the end that follow an empty pop, in the receive loop's own order, overtake the reader: it
   * reports the end first.
   */
  lemma EndCanOvertakeAByte() returns (es: seq<Event>)
    ensures Exec(es).ended && Exec(es).accepted == [7] && Exec(es).returned == []
  {
    es := [];
    assert Exec(es) == Init();
    es := Extend(es, CallRead);
    es := Extend(es, Serve(0));
    es := Extend(es, PopQueue);
    assert Exec(es) == Init().(place := AtError);
    es := Extend(es, PushCheck([7]));
    es := Extend(es, PushEnqueue);
    es := Extend(es, PushSignal);
    assert Exec(es) == Init().(place := AtError, queue := [[7]], token := true, accepted := [7], late := 1);
    es := Extend(es, SetError);
    es := Extend(es, LookAtError);
  }

  lemma {:induction false} Extend(es: seq<Event>, e: Event) returns (longer: seq<Event>)
    ensures longer == es + [e] && Exec(longer) == Step(Exec(es), e)
  {
    longer := es + [e];
    ExecOne(es, e);
  }
}
