/**
 * Admission of streams across two layers: the dispatcher's ceiling on live and pending
 * streams, and the dial executor's bounded queue and fixed set of workers. Events are
 * the sections under either mutex and the channel operations between them.
 */
module Admission {

  /** maxActive zero means unlimited. */
  datatype Limits = Limits(maxActive: nat, maxPending: nat, maxConcurrent: nat)

  /** The frame reader inside one OPEN: the stream is pending, or its dial already claimed the id. */
  datatype Opening = NotOpening | Reserved(id: nat) | Claimed(id: nat)

  /**
   * Dials are named by tickets. queue and running are outstanding; answered tickets have
   * had their Result called; of those, reporting ones still hold their cancel entry.
   * stale counts the dials that succeeded after their open had stopped being pending.
   */
  datatype State = State(
    live: set<nat>, pending: set<nat>, opening: Opening,
    next: nat, idOf: map<nat, nat>, queue: seq<nat>, running: set<nat>, answered: set<nat>, reporting: set<nat>,
    cancels: set<nat>, results: map<nat, nat>, executorClosed: bool, tableClosed: bool, stale: nat)

  datatype Event =
    | Open(id: nat)
    | Claim
    | Send
    | Take
    | DialOk(ticket: nat)
    | DialFailed(ticket: nat)
    | Report(ticket: nat)
    | DropPending(id: nat)
    | EndStream(id: nat)
    | CloseExecutor
    | CloseTable

  function Init(): State {
    State({}, {}, NotOpening, 0, map[], [], {}, {}, {}, {}, map[], false, false, 0)
  }

  predicate BelowCeiling(l: Limits, s: State) {
    l.maxActive == 0 || |s.live| + |s.pending| < l.maxActive
  }

  /**
   * Closing does not overlap an OPEN in progress: the executor closes first and its workers finish every
   * accepted dial, and only then the table closes.
   */
  predicate Enabled(l: Limits, s: State, e: Event) {
    match e
    case Open(id) => id != 0 && s.opening == NotOpening && id !in s.live && id !in s.pending && BelowCeiling(l, s)
    case Claim => s.opening.Reserved?
    case Send => s.opening.Claimed?
    case Take => s.queue != [] && |s.running| + |s.reporting| < l.maxConcurrent
    case DialOk(t) => t in s.running && t in s.idOf
    case DialFailed(t) => t in s.running && t in s.idOf
    case Report(t) => t in s.reporting && t in s.idOf
    case DropPending(id) => s.opening == NotOpening && id in s.pending
    case EndStream(id) => id in s.live
    case CloseExecutor => s.opening == NotOpening && !s.executorClosed
    case CloseTable => s.executorClosed && s.queue == [] && s.running == {} && s.reporting == {} && !s.tableClosed
  }

  /** The submit failed: the cancel entry, if any, and the pending stream are taken back. */
  function GiveUp(s: State): State
    requires s.opening != NotOpening
  {
    s.(opening := NotOpening, pending := s.pending - {s.opening.id},
       cancels := if s.opening.Claimed? then s.cancels - {s.opening.id} else s.cancels)
  }

  function Accept(s: State): State
    requires s.opening != NotOpening
  {
    var ticket := s.next;
    s.(next := s.next + 1, opening := NotOpening, queue := s.queue + [ticket], idOf := s.idOf[ticket := s.opening.id],
       results := s.results[ticket := 0])
  }

  /** The dial worker calls Result once, and completes the open whether or not it is still pending. */
  function Answer(s: State, t: nat, ok: bool): State
    requires t in s.idOf && t in s.results
  {
    var id := s.idOf[t];
    var enters := ok && id !in s.live && !s.tableClosed;
    s.(running := s.running - {t}, answered := s.answered + {t}, reporting := s.reporting + {t},
       results := s.results[t := s.results[t] + 1],
       pending := s.pending - {id},
       live := if enters then s.live + {id} else s.live,
       stale := if enters && id !in s.pending then s.stale + 1 else s.stale)
  }

  function Apply(l: Limits, s: State, e: Event): State
    requires Enabled(l, s, e)
  {
    match e
    case Open(id) => s.(pending := s.pending + {id}, opening := Reserved(id))
    case Claim =>
      var id := s.opening.id;
      if s.executorClosed || id in s.cancels then GiveUp(s) else s.(cancels := s.cancels + {id}, opening := Claimed(id))
    case Send => if |s.queue| < l.maxPending then Accept(s) else GiveUp(s)
    case Take => s.(queue := s.queue[1..], running := s.running + {s.queue[0]})
    case DialOk(t) => if t in s.results then Answer(s, t, true) else s
    case DialFailed(t) => if t in s.results then Answer(s, t, false) else s
    case Report(t) => s.(reporting := s.reporting - {t}, cancels := s.cancels - {s.idOf[t]})
    case DropPending(id) => s.(pending := s.pending - {id})
    case EndStream(id) => s.(live := s.live - {id})
    case CloseExecutor => s.(executorClosed := true)
    case CloseTable => s.(tableClosed := true, live := {})
  }

  function Step(l: Limits, s: State, e: Event): State {
    if Enabled(l, s, e) then Apply(l, s, e) else s
  }

  function Exec(l: Limits, es: seq<Event>): State {
    if es == [] then Init() else Step(l, Exec(l, es[..|es| - 1]), es[|es| - 1])
  }

  // ---------------------------------------------------------------------------
  // The invariant
  // ---------------------------------------------------------------------------

  predicate Distinct(q: seq<nat>) {
    forall i, j :: 0 <= i < j < |q| ==> q[i] != q[j]
  }

  /** An accepted dial is queued, running or answered, and its Result has been called just when it is answered. */
  predicate TicketOk(s: State, t: nat) {
    && t < s.next && t in s.results
    && (t in s.queue || t in s.running || t in s.answered)
    && !(t in s.queue && t in s.running) && !(t in s.queue && t in s.answered) && !(t in s.running && t in s.answered)
    && s.results[t] == if t in s.answered then 1 else 0
  }

  predicate Tickets(s: State) {
    && Distinct(s.queue)
    && (forall t :: t in s.idOf ==> TicketOk(s, t))
    && (forall t :: t in s.queue ==> t in s.idOf)
    && (forall t :: t in s.running ==> t in s.idOf)
    && (forall t :: t in s.reporting ==> t in s.answered)
    && (forall t :: t in s.answered ==> t in s.idOf)
  }

  /** Tickets whose dial still holds its id in the cancel table. */
  predicate Holds(s: State, t: nat) {
    t in s.queue || t in s.running || t in s.reporting
  }

  /** The cancel table holds the ids of outstanding dials, and no two dials share one. */
  predicate Cancels(s: State) {
    && (forall t, u :: t in s.idOf && u in s.idOf && Holds(s, t) && Holds(s, u) && s.idOf[t] == s.idOf[u] ==> t == u)
    && (forall t :: t in s.idOf && Holds(s, t) ==> s.idOf[t] in s.cancels)
    && (s.opening.Claimed? ==>
          s.opening.id in s.cancels && forall t :: t in s.idOf && Holds(s, t) ==> s.idOf[t] != s.opening.id)
  }

  predicate Bounded(l: Limits, s: State) {
    && |s.queue| <= l.maxPending
    && |s.running| + |s.reporting| <= l.maxConcurrent
    && s.live !! s.pending
    && (l.maxActive > 0 ==> |s.live| + |s.pending| <= l.maxActive + s.stale)
    && (l.maxActive > 0 ==>
          |s.live| + |s.queue| + |s.running| + (if s.opening == NotOpening then 0 else 1)
          <= l.maxActive + l.maxPending + l.maxConcurrent)
  }

  predicate Inv(l: Limits, s: State) {
    Tickets(s) && Cancels(s) && Bounded(l, s)
  }

  lemma AcceptKeeps(l: Limits, s: State)
    requires Inv(l, s) && s.opening.Claimed? && |s.queue| < l.maxPending
    ensures Tickets(Accept(s)) && Cancels(Accept(s))
    ensures Bounded(l, Accept(s))
  {
    var t := Accept(s);
    assert s.next !in s.idOf && s.next !in s.queue;
    assert forall x :: x in t.queue <==> x in s.queue || x == s.next;
    assert forall x :: x in s.idOf ==> (Holds(t, x) <==> Holds(s, x));
  }

  lemma TakeTickets(l: Limits, s: State)
    requires Tickets(s) && Enabled(l, s, Take)
    ensures Tickets(Apply(l, s, Take))
    ensures forall x :: Holds(Apply(l, s, Take), x) <==> Holds(s, x)
  {
    var t := Apply(l, s, Take);
    var head := s.queue[0];
    assert head in s.queue && TicketOk(s, head);
    assert forall x :: x in s.queue <==> x in t.queue || x == head;
    assert head !in t.queue;
    forall x | x in t.idOf ensures TicketOk(t, x) {
      assert TicketOk(s, x);
    }
  }

  lemma TakeKeeps(l: Limits, s: State)
    requires Inv(l, s) && Enabled(l, s, Take)
    ensures Inv(l, Apply(l, s, Take))
  {
    TakeTickets(l, s);
    var head := s.queue[0];
    assert head in s.queue && TicketOk(s, head);
    assert |s.running + {head}| == |s.running| + 1;
  }

  lemma AnswerCounts(l: Limits, s: State, t: nat, ok: bool)
    requires Bounded(l, s) && t in s.running && t !in s.reporting && t in s.idOf && t in s.results
    ensures Bounded(l, Answer(s, t, ok))
  {
  }

  lemma AnswerTickets(l: Limits, s: State, t: nat, ok: bool)
    requires Inv(l, s) && t in s.running && t in s.idOf && t in s.results
    ensures Tickets(Answer(s, t, ok)) && Cancels(Answer(s, t, ok))
  {
    var r := Answer(s, t, ok);
    assert TicketOk(s, t);
    assert forall x :: Holds(r, x) <==> Holds(s, x);
    forall x | x in r.idOf ensures TicketOk(r, x) {
      assert TicketOk(s, x);
    }
  }

  lemma GiveUpKeeps(l: Limits, s: State)
    requires Inv(l, s) && s.opening != NotOpening
    ensures Inv(l, GiveUp(s))
  {
  }

  lemma ReportKeeps(l: Limits, s: State, t: nat)
    requires Inv(l, s) && Enabled(l, s, Report(t))
    ensures Inv(l, Apply(l, s, Report(t)))
  {
  }

  lemma OpenKeeps(l: Limits, s: State, e: Event)
    requires Inv(l, s) && Enabled(l, s, e) && (e.Open? || (e.Claim? && !s.executorClosed && s.opening.id !in s.cancels))
    ensures Inv(l, Apply(l, s, e))
  {
  }

  lemma EndKeeps(l: Limits, s: State, e: Event)
    requires Inv(l, s) && Enabled(l, s, e) && (e.DropPending? || e.EndStream? || e.CloseExecutor? || e.CloseTable?)
    ensures Inv(l, Apply(l, s, e))
  {
    var t := Apply(l, s, e);
    assert forall x :: Holds(t, x) <==> Holds(s, x);
    forall x | x in t.idOf ensures TicketOk(t, x) {
      assert TicketOk(s, x);
    }
  }

  lemma StepKeeps(l: Limits, s: State, e: Event)
    requires Inv(l, s)
    ensures Inv(l, Step(l, s, e))
  {
    if Enabled(l, s, e) {
      match e {
        case Open(_) => OpenKeeps(l, s, e);
        case Claim =>
          if s.executorClosed || s.opening.id in s.cancels { GiveUpKeeps(l, s); } else { OpenKeeps(l, s, e); }
        case Send =>
          if |s.queue| < l.maxPending { AcceptKeeps(l, s); } else { GiveUpKeeps(l, s); }
        case Take => TakeKeeps(l, s);
        case DialOk(t) => AnswerKeeps(l, s, t, true);
        case DialFailed(t) => AnswerKeeps(l, s, t, false);
        case Report(t) => ReportKeeps(l, s, t);
        case _ => EndKeeps(l, s, e);
      }
    }
  }

  lemma AnswerKeeps(l: Limits, s: State, t: nat, ok: bool)
    requires Inv(l, s) && t in s.running && t in s.idOf
    ensures t in s.results && Inv(l, Answer(s, t, ok))
  {
    assert TicketOk(s, t);
    AnswerTickets(l, s, t, ok);
    AnswerCounts(l, s, t, ok);
  }

  lemma {:induction false} ExecKeeps(l: Limits, es: seq<Event>)
    requires l.maxPending >= 1 && l.maxConcurrent >= 1
    ensures Inv(l, Exec(l, es))
  {
    if es != [] {
      ExecKeeps(l, es[..|es| - 1]);
      StepKeeps(l, Exec(l, es[..|es| - 1]), es[|es| - 1]);
    }
  }

  // ---------------------------------------------------------------------------
  // What holds on every run
  // ---------------------------------------------------------------------------

  /** Two outstanding dials never share a stream id, and an outstanding dial can always be cancelled. */
  lemma {:induction false} OneDialPerStream(l: Limits, es: seq<Event>, t: nat, u: nat)
    requires l.maxPending >= 1 && l.maxConcurrent >= 1
    requires t in Exec(l, es).idOf && u in Exec(l, es).idOf && t != u
    requires Holds(Exec(l, es), t) && Holds(Exec(l, es), u)
    ensures Exec(l, es).idOf[t] != Exec(l, es).idOf[u]
    ensures Exec(l, es).idOf[t] in Exec(l, es).cancels
  {
    ExecKeeps(l, es);
  }

  /** No dial is ever answered twice, and once nothing is outstanding every accepted dial was answered. */
  lemma {:induction false} ExactlyOneResult(l: Limits, es: seq<Event>, t: nat)
    requires l.maxPending >= 1 && l.maxConcurrent >= 1 && t in Exec(l, es).idOf
    ensures
      var s := Exec(l, es);
      && t in s.results && s.results[t] <= 1
      && (s.queue == [] && s.running == {} ==> s.results[t] == 1)
      && (s.results[t] == 0 <==> t in s.queue || t in s.running)
  {
    ExecKeeps(l, es);
    assert TicketOk(Exec(l, es), t);
  }

  /**
   * Live and pending streams exceed the ceiling by at most the dials that succeeded after their
   * open had stopped being pending; a run without such dials keeps to the ceiling.
   */
  lemma {:induction false} CeilingExceededOnlyByStaleDials(l: Limits, es: seq<Event>)
    requires l.maxActive >= 1 && l.maxPending >= 1 && l.maxConcurrent >= 1
    ensures |Exec(l, es).live| + |Exec(l, es).pending| <= l.maxActive + Exec(l, es).stale
  {
    ExecKeeps(l, es);
  }

  function Extend(es: seq<Event>, e: Event): seq<Event> {
    es + [e]
  }

  lemma {:induction false} ExtendSteps(l: Limits, es: seq<Event>, e: Event)
    ensures Exec(l, Extend(es, e)) == Step(l, Exec(l, es), e)
  {
  }

  /** No open or dial is in progress and nothing is closed; tickets up to next have been used. */
  predicate Calm(s: State) {
    && s.pending == {} && s.opening == NotOpening && s.queue == [] && s.running == {} && s.reporting == {}
    && s.cancels == {} && !s.executorClosed && !s.tableClosed
    && (forall t :: t in s.idOf ==> t < s.next)
  }

  /** A calm table while one dial for id runs. */
  function DialRuns(s: State, id: nat): State {
    s.(pending := {id}, cancels := {id}, running := {s.next}, next := s.next + 1, idOf := s.idOf[s.next := id],
       results := s.results[s.next := 0])
  }

  lemma {:induction false} DialBegins(l: Limits, es: seq<Event>, id: nat) returns (more: seq<Event>)
    requires Calm(Exec(l, es)) && id != 0 && id !in Exec(l, es).live && BelowCeiling(l, Exec(l, es))
    requires l.maxPending >= 1 && l.maxConcurrent >= 1
    ensures Exec(l, more) == DialRuns(Exec(l, es), id)
  {
    var s := Exec(l, es);
    ExtendSteps(l, es, Open(id));
    more := Extend(es, Open(id));
    ExtendSteps(l, more, Claim);
    more := Extend(more, Claim);
    assert Exec(l, more) == s.(pending := {id}, cancels := {id}, opening := Claimed(id));
    ExtendSteps(l, more, Send);
    more := Extend(more, Send);
    assert Exec(l, more) == DialRuns(s, id).(queue := [s.next], running := {});
    ExtendSteps(l, more, Take);
    more := Extend(more, Take);
  }

  lemma {:induction false} DialEnds(l: Limits, es: seq<Event>, s: State, id: nat) returns (more: seq<Event>)
    requires Calm(s) && id !in s.live && Exec(l, es) == DialRuns(s, id)
    ensures Calm(Exec(l, more)) && Exec(l, more).live == s.live + {id}
  {
    var t := s.next;
    ExtendSteps(l, es, DialOk(t));
    more := Extend(es, DialOk(t));
    assert Exec(l, more) == Answer(DialRuns(s, id), t, true);
    ExtendSteps(l, more, Report(t));
    more := Extend(more, Report(t));
  }

  /** The table can be filled with any number of live streams below the ceiling. */
  lemma {:induction false} Fills(l: Limits, k: nat) returns (es: seq<Event>)
    requires k < l.maxActive && l.maxPending >= 1 && l.maxConcurrent >= 1
    ensures Calm(Exec(l, es)) && |Exec(l, es).live| == k && forall id :: id in Exec(l, es).live ==> id <= k
  {
    if k == 0 {
      es := [];
    } else {
      es := Fills(l, k - 1);
      var s := Exec(l, es);
      es := DialBegins(l, es, k);
      es := DialEnds(l, es, s, k);
    }
  }

  /**
   * Under every ceiling, a peer that abandons an open while its dial runs and opens another stream before
   * the dial succeeds can end up with one stream too many.
   */
  lemma AbandonedDialExceedsTheCeiling(l: Limits) returns (es: seq<Event>)
    requires l.maxActive >= 1 && l.maxPending >= 1 && l.maxConcurrent >= 1
    ensures |Exec(l, es).live| + |Exec(l, es).pending| == l.maxActive + 1
  {
    var n := l.maxActive;
    es := Fills(l, n - 1);
    var s := Exec(l, es);
    es := DialBegins(l, es, n);
    es := OpensAnother(l, es, s, n);
    ExtendSteps(l, es, DialOk(s.next));
    es := Extend(es, DialOk(s.next));
    assert Exec(l, es).live == s.live + {n} && Exec(l, es).pending == {n + 1};
  }

  /** The open of n is abandoned while its dial runs, and stream n + 1 is opened. */
  lemma {:induction false} OpensAnother(l: Limits, es: seq<Event>, s: State, n: nat) returns (more: seq<Event>)
    requires Exec(l, es) == DialRuns(s, n) && Calm(s) && BelowCeiling(l, s) && n + 1 !in s.live
    ensures Exec(l, more) == DialRuns(s, n).(pending := {n + 1}, opening := Reserved(n + 1))
  {
    ExtendSteps(l, es, DropPending(n));
    more := Extend(es, DropPending(n));
    assert Exec(l, more) == DialRuns(s, n).(pending := {});
    ExtendSteps(l, more, Open(n + 1));
    more := Extend(more, Open(n + 1));
  }

  /** Even with stale dials, live streams and outstanding dials together stay bounded. */
  lemma {:induction false} LiveAndDialingBounded(l: Limits, es: seq<Event>)
    requires l.maxActive >= 1 && l.maxPending >= 1 && l.maxConcurrent >= 1
    ensures
      var s := Exec(l, es);
      |s.live| + |s.queue| + |s.running| <= l.maxActive + l.maxPending + l.maxConcurrent
  {
    ExecKeeps(l, es);
  }

  /** Some outstanding dial, or the open in progress, holds the id. */
  ghost predicate IsHeld(s: State, id: nat) {
    s.opening == Claimed(id) || exists t :: t in s.idOf && Holds(s, t) && s.idOf[t] == id
  }

  ghost predicate OnlyHeldIds(s: State) {
    forall id :: id in s.cancels ==> IsHeld(s, id)
  }

  /** A dial that keeps its cancel entry across a step keeps holding its id. */
  lemma StillHeld(s: State, t: State, id: nat)
    requires IsHeld(s, id) && (s.opening == Claimed(id) ==> IsHeld(t, id))
    requires forall x :: x in s.idOf && Holds(s, x) && s.idOf[x] == id ==> x in t.idOf && Holds(t, x) && t.idOf[x] == id
    ensures IsHeld(t, id)
  {
  }

  lemma SendHolds(l: Limits, s: State, id: nat)
    requires Tickets(s) && s.opening.Claimed? && IsHeld(s, id)
    ensures IsHeld(Accept(s), id)
  {
    var t := Accept(s);
    assert s.next in t.queue && s.next !in s.idOf by {
      assert s.next in s.idOf ==> TicketOk(s, s.next);
    }
    if s.opening == Claimed(id) {
      assert s.next in t.idOf && Holds(t, s.next) && t.idOf[s.next] == id;
    } else {
      assert forall x :: x in s.queue ==> x in t.queue;
      StillHeld(s, t, id);
    }
  }

  lemma TakeHolds(l: Limits, s: State, id: nat)
    requires Enabled(l, s, Take) && IsHeld(s, id)
    ensures IsHeld(Apply(l, s, Take), id)
  {
    var t := Apply(l, s, Take);
    assert forall x :: x in s.queue ==> x in t.queue || x == s.queue[0];
    assert s.opening == Claimed(id) ==> IsHeld(t, id);
    StillHeld(s, t, id);
  }

  lemma AnswerHolds(s: State, x: nat, ok: bool, id: nat)
    requires x in s.running && x in s.idOf && x in s.results && IsHeld(s, id)
    ensures IsHeld(Answer(s, x, ok), id)
  {
    var t := Answer(s, x, ok);
    assert s.opening == Claimed(id) ==> IsHeld(t, id);
    StillHeld(s, t, id);
  }

  lemma ReportHolds(l: Limits, s: State, x: nat, id: nat)
    requires Enabled(l, s, Report(x)) && IsHeld(s, id) && id != s.idOf[x]
    ensures IsHeld(Apply(l, s, Report(x)), id)
  {
    var t := Apply(l, s, Report(x));
    assert s.opening == Claimed(id) ==> IsHeld(t, id);
    StillHeld(s, t, id);
  }

  /** Every step but those of a dial's own keeps the tickets where they are. */
  lemma PlainHolds(l: Limits, s: State, e: Event, id: nat)
    requires Enabled(l, s, e) && IsHeld(s, id) && id in Apply(l, s, e).cancels
    requires
      || e.Open? || e.Claim? || e.DropPending? || e.EndStream? || e.CloseExecutor? || e.CloseTable?
      || (e.Send? && |s.queue| >= l.maxPending)
    ensures IsHeld(Apply(l, s, e), id)
  {
    var t := Apply(l, s, e);
    assert s.opening == Claimed(id) ==> IsHeld(t, id);
    StillHeld(s, t, id);
  }

  lemma HeldStep(l: Limits, s: State, e: Event, id: nat)
    requires Tickets(s) && Enabled(l, s, e) && IsHeld(s, id) && id in Apply(l, s, e).cancels
    ensures IsHeld(Apply(l, s, e), id)
  {
    match e {
      case Send => if |s.queue| < l.maxPending { SendHolds(l, s, id); } else { PlainHolds(l, s, e, id); }
      case Take => TakeHolds(l, s, id);
      case DialOk(x) => assert TicketOk(s, x); AnswerHolds(s, x, true, id);
      case DialFailed(x) => assert TicketOk(s, x); AnswerHolds(s, x, false, id);
      case Report(x) => ReportHolds(l, s, x, id);
      case _ => PlainHolds(l, s, e, id);
    }
  }

  lemma OnlyHeldStep(l: Limits, s: State, e: Event)
    requires Tickets(s) && OnlyHeldIds(s)
    ensures OnlyHeldIds(Step(l, s, e))
  {
    if Enabled(l, s, e) {
      forall id | id in Apply(l, s, e).cancels ensures IsHeld(Apply(l, s, e), id) {
        if id in s.cancels {
          HeldStep(l, s, e, id);
        }
      }
    }
  }

  lemma {:induction false} OnlyHeldExec(l: Limits, es: seq<Event>)
    requires l.maxPending >= 1 && l.maxConcurrent >= 1
    ensures OnlyHeldIds(Exec(l, es))
  {
    if es != [] {
      ExecKeeps(l, es[..|es| - 1]);
      OnlyHeldExec(l, es[..|es| - 1]);
      OnlyHeldStep(l, Exec(l, es[..|es| - 1]), es[|es| - 1]);
    }
  }

  /** On every run the cancel table holds exactly the ids of outstanding dials and of the open in progress. */
  lemma {:induction false} CancelsAreOutstanding(l: Limits, es: seq<Event>, id: nat)
    requires l.maxPending >= 1 && l.maxConcurrent >= 1
    ensures id in Exec(l, es).cancels <==> IsHeld(Exec(l, es), id)
  {
    ExecKeeps(l, es);
    OnlyHeldExec(l, es);
  }

  // ---------------------------------------------------------------------------
  // The executor's own methods, as the sections they run
  // ---------------------------------------------------------------------------

  datatype SubmitResult = Submitted | InvalidRequest | ExecutorClosed | DuplicateStream | QueueFull

  /** What a submit and the dispatcher's reaction to a refusal make of a reserved stream. */
  function Submission(l: Limits, s: State): State
    requires s.opening.Reserved?
  {
    if s.executorClosed || s.opening.id in s.cancels || |s.queue| >= l.maxPending then GiveUp(s)
    else Accept(s.(cancels := s.cancels + {s.opening.id}))
  }

  /** The claim and the send together; a claim that finds the queue full leaves no cancel entry behind. */
  lemma SubmissionIsClaimAndSend(l: Limits, s: State)
    requires s.opening.Reserved?
    ensures Step(l, Step(l, s, Claim), Send) == Submission(l, s)
  {
    var id := s.opening.id;
    if !s.executorClosed && id !in s.cancels {
      assert (s.cancels + {id}) - {id} == s.cancels;
    }
  }

  /**
   * The executor. The dispatcher's side of the state, which it does not see, is kept beside it. Every method
   * is a step of the machine, so the machine's invariant is kept.
   */
  class DialExecutor {
    const limits: Limits
    var queue: seq<nat>
    var idOf: map<nat, nat>
    var next: nat
    var running: set<nat>
    var reporting: set<nat>
    var cancels: set<nat>
    var closed: bool
    ghost var live: set<nat>
    ghost var pending: set<nat>
    ghost var opening: Opening
    ghost var answered: set<nat>
    ghost var results: map<nat, nat>
    ghost var tableClosed: bool
    ghost var stale: nat

    ghost function View(): State
      reads this
    {
      State(live, pending, opening, next, idOf, queue, running, answered, reporting, cancels, results, closed,
            tableClosed, stale)
    }

    constructor (maxActive: nat, concurrent: int, pending: int)
      ensures View() == Init() && limits.maxActive == maxActive
      ensures limits.maxConcurrent as int == if concurrent <= 0 then 1 else concurrent
      ensures limits.maxPending as int == if pending <= 0 then 1 else pending
    {
      limits := Limits(maxActive, if pending <= 0 then 1 else pending, if concurrent <= 0 then 1 else concurrent);
      queue, idOf, next, running, reporting, cancels, closed := [], map[], 0, {}, {}, {}, false;
      live, this.pending, opening, answered, results := {}, {}, NotOpening, {}, map[];
      tableClosed, stale := false, 0;
    }

    /**
     * Submitting the dial of a reserved stream is the machine's claim and send; the dispatcher takes a
     * refused stream back. A refusal leaves no cancel entry behind.
     */
    method Submit(id: nat, hasResult: bool) returns (r: SubmitResult)
      requires opening == Reserved(id)
      modifies this
      ensures View() == if id == 0 || !hasResult then GiveUp(old(View()))
                        else Step(limits, Step(limits, old(View()), Claim), Send)
      ensures r == Submitted <==>
              id != 0 && hasResult && !old(closed) && id !in old(cancels) && |old(queue)| < limits.maxPending
      ensures r != Submitted ==> queue == old(queue) && cancels == old(cancels) && pending == old(pending) - {id}
    {
      ghost var s := View();
      SubmissionIsClaimAndSend(limits, s);
      r := TrySubmit(id, hasResult);
      if r == Submitted {
        results, opening := results[s.next := 0], NotOpening;
      } else {
        TakeBack(id);
      }
    }

    /** The executor's own part: a refusal changes nothing, an accepted dial is queued last and cancellable. */
    method TrySubmit(id: nat, hasResult: bool) returns (r: SubmitResult)
      modifies this`queue, this`idOf, this`next, this`cancels
      ensures r == Submitted <==>
              id != 0 && hasResult && !closed && id !in old(cancels) && |old(queue)| < limits.maxPending
      ensures r == Submitted ==>
        && queue == old(queue) + [old(next)] && idOf == old(idOf)[old(next) := id] && next == old(next) + 1
        && cancels == old(cancels) + {id}
      ensures r != Submitted ==>
        queue == old(queue) && idOf == old(idOf) && next == old(next) && cancels == old(cancels)
      ensures r == QueueFull ==> |queue| >= limits.maxPending
      ensures r == DuplicateStream ==> id in cancels
    {
      if id == 0 || !hasResult {
        return InvalidRequest;
      }
      if closed {
        return ExecutorClosed;
      }
      if id in cancels {
        return DuplicateStream;
      }
      cancels := cancels + {id};
      if |queue| < limits.maxPending {
        queue, idOf, next := queue + [next], idOf[next := id], next + 1;
        return Submitted;
      }
      cancels := cancels - {id};
      assert cancels == old(cancels);
      return QueueFull;
    }

    /** The dispatcher's answer to a refused submit. */
    ghost method TakeBack(id: nat)
      modifies this`pending, this`opening
      ensures pending == old(pending) - {id} && opening == NotOpening
    {
      pending, opening := pending - {id}, NotOpening;
    }

    /** An idle worker takes the oldest queued dial. */
    method TakeDial() returns (t: nat)
      requires queue != [] && |running| + |reporting| < limits.maxConcurrent
      modifies this`queue, this`running
      ensures View() == Step(limits, old(View()), Take) && old(queue) == [t] + queue
    {
      t := queue[0];
      queue := queue[1..];
      running := running + {t};
    }

    /** The worker calls the result back, once; the dispatcher registers or rejects the stream there. */
    method ReportResult(t: nat, ok: bool)
      requires t in running && t in idOf && t in results
      modifies this`running, this`reporting, this`live, this`pending, this`answered, this`results, this`stale
      ensures View() == Step(limits, old(View()), if ok then DialOk(t) else DialFailed(t))
      ensures results == old(results)[t := old(results)[t] + 1]
    {
      ghost var s := View();
      ghost var a := Answer(s, t, ok);
      running, reporting := running - {t}, reporting + {t};
      live, pending, answered, results, stale := a.live, a.pending, a.answered, a.results, a.stale;
    }

    /** After the callback the worker drops the cancel entry, and the id may be dialed again. */
    method Finish(t: nat)
      requires t in reporting && t in idOf
      modifies this`reporting, this`cancels
      ensures View() == Step(limits, old(View()), Report(t)) && cancels == old(cancels) - {idOf[t]}
    {
      reporting, cancels := reporting - {t}, cancels - {idOf[t]};
    }
  }
}
