/**
 * The client's session pool for one agent: connection slots between a minimum and a maximum,
 * sessions that reconnect into their slot, least-loaded placement of streams, and scaling by
 * watermarks with a cooldown. Events are the sections under the pool's mutex.
 */
module SessionPool {
  import opened Wrappers

  datatype Config = Config(min: nat, max: nat, high: int, low: int, cooldown: nat)

  /** active is the pool's own count; held is how many acquisitions of this entry are still open. */
  datatype Entry = Entry(slot: nat, active: nat, held: nat, missedPings: nat, rtt: int)

  /** The pool's one scaling goroutine: starting up, resting, or between two sections of an evaluation. */
  datatype Phase = Booting | Resting | Decided(up: bool, victim: nat) | Reserved(up: bool, victim: nat)

  /** scales lists when scaling decisions were reserved, oldest first. */
  datatype State = State(
    slots: set<nat>, scaledDown: set<nat>, sessions: map<nat, nat>, entries: seq<Entry>, nextSlot: nat,
    phase: Phase, scales: seq<int>, clock: int)

  datatype Event =
    | Boot
    | Evaluate
    | Reserve
    | Act
    | Register(slot: nat)
    | Watch(entry: nat)
    | RunnerEnds(slot: nat)
    | RunnerFails(slot: nat)
    | Acquire(entry: nat)
    | Release(entry: nat)
    | Sample(entry: nat, missed: nat, rtt: int)
    | Tick

  function Init(): State {
    State({}, {}, map[], [], 0, Booting, [], 0)
  }

  predicate Sensible(c: Config) {
    1 <= c.min <= c.max
  }

  predicate Healthy(e: Entry) {
    e.missedPings < 2
  }

  /** The entry registered in slot k. */
  function At(s: State, k: nat): Entry
    requires k in s.sessions && s.sessions[k] < |s.entries|
  {
    s.entries[s.sessions[k]]
  }

  predicate InRange(s: State) {
    forall k :: k in s.sessions ==> s.sessions[k] < |s.entries|
  }

  predicate AllHigh(c: Config, s: State)
    requires InRange(s)
  {
    s.sessions != map[] && forall k :: k in s.sessions ==> At(s, k).active >= c.high
  }

  predicate AllLow(c: Config, s: State)
    requires InRange(s)
  {
    s.sessions != map[] && forall k :: k in s.sessions ==> At(s, k).active <= c.low
  }

  function Greatest(slots: set<nat>): (r: nat)
    ensures slots != {} ==> r in slots && forall i :: i in slots ==> i <= r
  {
    if slots == {} then 0
    else
      GreatestExists(slots);
      var x :| x in slots && forall y :: y in slots ==> y <= x;
      x
  }

  lemma GreatestExists(slots: set<nat>)
    requires slots != {}
    ensures exists x :: x in slots && forall y :: y in slots ==> y <= x
  {
    var x := GreatestOf(slots);
  }

  lemma {:induction false} GreatestOf(slots: set<nat>) returns (x: nat)
    requires slots != {}
    ensures x in slots && forall y :: y in slots ==> y <= x
    decreases |slots|
  {
    var a :| a in slots;
    var rest := slots - {a};
    assert forall y :: y in slots ==> y == a || y in rest;
    x := a;
    if rest != {} {
      var z := GreatestOf(rest);
      x := if a < z then z else a;
    }
  }

  /** Less loaded, or equally loaded with a shorter round trip. */
  predicate Better(a: Entry, b: Entry) {
    a.active < b.active || (a.active == b.active && a.rtt < b.rtt)
  }

  /** Entry e is registered and healthy and no healthy registered entry is better. */
  predicate IsChoice(s: State, e: nat) {
    && InRange(s) && e < |s.entries| && s.entries[e].slot in s.sessions && s.sessions[s.entries[e].slot] == e
    && Healthy(s.entries[e])
    && forall k :: k in s.sessions && Healthy(At(s, k)) ==> !Better(At(s, k), s.entries[e])
  }

  function LastScale(s: State): Option<int> {
    if s.scales == [] then None else Some(s.scales[|s.scales| - 1])
  }

  predicate Cooling(c: Config, s: State) {
    match LastScale(s)
    case None => false
    case Some(t) => s.clock - t < c.cooldown
  }

  predicate Enabled(c: Config, s: State, e: Event) {
    match e
    case Boot => s.phase == Booting
    case Evaluate => s.phase == Resting && InRange(s)
    case Reserve => s.phase.Decided?
    case Act => s.phase.Reserved?
    case Register(_) => true
    case Watch(n) => n < |s.entries|
    case RunnerEnds(k) => k in s.slots && k in s.scaledDown
    case RunnerFails(k) => k in s.slots
    case Acquire(n) => IsChoice(s, n)
    case Release(n) => n < |s.entries| && s.entries[n].held > 0
    case Sample(n, _, _) => n < |s.entries|
    case Tick => true
  }

  function StartSlot(s: State): State {
    s.(slots := s.slots + {s.nextSlot}, nextSlot := s.nextSlot + 1)
  }

  function RemoveSlot(s: State, k: nat): State {
    s.(slots := s.slots - {k}, sessions := s.sessions - {k})
  }

  function Decision(c: Config, s: State): Phase
    requires InRange(s)
  {
    if AllHigh(c, s) && |s.slots| < c.max then Decided(true, Greatest(s.slots))
    else if AllLow(c, s) && |s.slots| > c.min then Decided(false, Greatest(s.slots))
    else Resting
  }

  predicate IsRegistered(s: State, n: nat) {
    n < |s.entries| && s.entries[n].slot in s.sessions && s.sessions[s.entries[n].slot] == n
  }

  function SetEntry(s: State, n: nat, e: Entry): State
    requires n < |s.entries|
  {
    s.(entries := s.entries[n := e])
  }

  function Released(s: State, n: nat): Entry
    requires n < |s.entries| && s.entries[n].held > 0
  {
    var e := s.entries[n];
    e.(held := e.held - 1, active := if IsRegistered(s, n) && e.active > 0 then e.active - 1 else e.active)
  }

  function Apply(c: Config, s: State, e: Event): State
    requires Enabled(c, s, e)
  {
    match e
    case Boot => if s.nextSlot < c.min then StartSlot(s) else s.(phase := Resting)
    case Evaluate => s.(phase := Decision(c, s))
    case Reserve =>
      if Cooling(c, s) then s.(phase := Resting)
      else s.(phase := Reserved(s.phase.up, s.phase.victim), scales := s.scales + [s.clock])
    case Act =>
      if s.phase.up then StartSlot(s).(phase := Resting)
      else s.(scaledDown := s.scaledDown + {s.phase.victim}, phase := Resting)
    case Register(k) =>
      if k !in s.slots then s
      else s.(sessions := s.sessions[k := |s.entries|], entries := s.entries + [Entry(k, 0, 0, 0, 0)])
    case Watch(n) => if IsRegistered(s, n) then s.(sessions := s.sessions - {s.entries[n].slot}) else s
    case RunnerEnds(k) => RemoveSlot(s, k)
    case RunnerFails(k) => RemoveSlot(s, k)
    case Acquire(n) => SetEntry(s, n, s.entries[n].(active := s.entries[n].active + 1, held := s.entries[n].held + 1))
    case Release(n) => SetEntry(s, n, Released(s, n))
    case Sample(n, missed, rtt) => SetEntry(s, n, s.entries[n].(missedPings := missed, rtt := rtt))
    case Tick => s.(clock := s.clock + 1)
  }

  function Step(c: Config, s: State, e: Event): State {
    if Enabled(c, s, e) then Apply(c, s, e) else s
  }

  function Exec(c: Config, es: seq<Event>): State {
    if es == [] then Init() else Step(c, Exec(c, es[..|es| - 1]), es[|es| - 1])
  }

  // ---------------------------------------------------------------------------
  // Bounds, registration and accounting
  // ---------------------------------------------------------------------------

  predicate Growing(p: Phase) {
    (p.Decided? || p.Reserved?) && p.up
  }

  predicate SlotsOk(c: Config, s: State) {
    && (forall k :: k in s.slots ==> k < s.nextSlot)
    && |s.slots| <= c.max
    && (s.phase == Booting ==> |s.slots| <= s.nextSlot <= c.min)
    && (Growing(s.phase) ==> |s.slots| < c.max)
  }

  /** Slot k's session belongs to a live slot and its load is exactly its open acquisitions. */
  predicate SessionOk(slots: set<nat>, entries: seq<Entry>, k: nat, n: nat) {
    k in slots && n < |entries| && entries[n].slot == k && entries[n].active == entries[n].held
  }

  predicate SessionsOk(slots: set<nat>, entries: seq<Entry>, sessions: map<nat, nat>) {
    forall k :: k in sessions ==> SessionOk(slots, entries, k, sessions[k])
  }

  predicate Spaced(cooldown: nat, scales: seq<int>) {
    forall i :: 0 <= i < |scales| - 1 ==> scales[i + 1] - scales[i] >= cooldown
  }

  predicate Inv(c: Config, s: State) {
    SlotsOk(c, s) && SessionsOk(s.slots, s.entries, s.sessions) && Spaced(c.cooldown, s.scales)
  }

  lemma RemoveKeeps(c: Config, s: State, k: nat)
    requires Inv(c, s)
    ensures Inv(c, RemoveSlot(s, k))
  {
  }

  lemma RegisterKeeps(c: Config, s: State, k: nat)
    requires Inv(c, s) && k in s.slots
    ensures Inv(c, Apply(c, s, Register(k)))
  {
  }

  lemma EntryEventKeeps(c: Config, s: State, e: Event)
    requires Inv(c, s) && Enabled(c, s, e) && (e.Acquire? || e.Release? || e.Sample?)
    ensures Inv(c, Apply(c, s, e))
  {
  }

  lemma ScalingKeeps(c: Config, s: State, e: Event)
    requires Inv(c, s) && Sensible(c) && Enabled(c, s, e) && (e.Boot? || e.Evaluate? || e.Reserve? || e.Act?)
    ensures Inv(c, Apply(c, s, e))
  {
  }

  lemma WatchKeeps(c: Config, s: State, n: nat)
    requires Inv(c, s) && n < |s.entries|
    ensures Inv(c, Apply(c, s, Watch(n)))
  {
  }

  lemma StepKeeps(c: Config, s: State, e: Event)
    requires Inv(c, s) && Sensible(c)
    ensures Inv(c, Step(c, s, e))
  {
    if Enabled(c, s, e) {
      match e {
        case Register(k) => if k in s.slots { RegisterKeeps(c, s, k); }
        case Watch(n) => WatchKeeps(c, s, n);
        case RunnerEnds(k) => RemoveKeeps(c, s, k);
        case RunnerFails(k) => RemoveKeeps(c, s, k);
        case Acquire(_) => EntryEventKeeps(c, s, e);
        case Release(_) => EntryEventKeeps(c, s, e);
        case Sample(_, _, _) => EntryEventKeeps(c, s, e);
        case Tick =>
        case _ => ScalingKeeps(c, s, e);
      }
    }
  }

  lemma {:induction false} ExecKeeps(c: Config, es: seq<Event>)
    requires Sensible(c)
    ensures Inv(c, Exec(c, es))
  {
    if es != [] {
      ExecKeeps(c, es[..|es| - 1]);
      StepKeeps(c, Exec(c, es[..|es| - 1]), es[|es| - 1]);
    }
  }

  /** At no moment are there more slots than Max, or a session outside a slot. */
  lemma {:induction false} SlotsAndSessionsBounded(c: Config, es: seq<Event>)
    requires Sensible(c)
    ensures |Exec(c, es).slots| <= c.max && Exec(c, es).sessions.Keys <= Exec(c, es).slots
  {
    ExecKeeps(c, es);
    var s := Exec(c, es);
    assert forall k :: k in s.sessions ==> SessionOk(s.slots, s.entries, k, s.sessions[k]);
  }

  /** Each registered session's load counts exactly its own open acquisitions, across any reconnects of its slot. */
  lemma {:induction false} LoadIsOpenAcquisitions(c: Config, es: seq<Event>, k: nat)
    requires Sensible(c) && k in Exec(c, es).sessions
    ensures
      var s := Exec(c, es);
      s.sessions[k] < |s.entries| && s.entries[s.sessions[k]].slot == k
      && s.entries[s.sessions[k]].active == s.entries[s.sessions[k]].held
  {
    ExecKeeps(c, es);
    var s := Exec(c, es);
    assert SessionOk(s.slots, s.entries, k, s.sessions[k]);
  }

  /** Consecutive scaling decisions are at least the cooldown apart. */
  lemma {:induction false} ScalingRespectsCooldown(c: Config, es: seq<Event>, i: nat)
    requires Sensible(c) && i + 1 < |Exec(c, es).scales|
    ensures Exec(c, es).scales[i + 1] - Exec(c, es).scales[i] >= c.cooldown
  {
    ExecKeeps(c, es);
  }

  // ---------------------------------------------------------------------------
  // The initial slots
  // ---------------------------------------------------------------------------

  /** Slots end only because the pool scaled them down. */
  predicate NoFailures(es: seq<Event>) {
    forall i :: 0 <= i < |es| ==> !es[i].RunnerFails?
  }

  predicate Kept(c: Config, s: State) {
    && (forall i :: 0 <= i < s.nextSlot && i < c.min ==> i in s.slots)
    && (forall k :: k in s.scaledDown ==> k >= c.min)
    && (s.phase != Booting ==> s.nextSlot >= c.min)
    && ((s.phase.Decided? || s.phase.Reserved?) && !s.phase.up ==> s.phase.victim >= c.min)
  }

  lemma {:induction false} FewBelow(slots: set<nat>, m: nat)
    requires forall k :: k in slots ==> k < m
    ensures |slots| <= m
  {
    if m > 0 {
      var rest := slots - {m - 1};
      FewBelow(rest, m - 1);
      assert |slots| <= |rest| + 1 by {
        if m - 1 in slots {
          assert slots == rest + {m - 1};
        } else {
          assert slots == rest;
        }
      }
    } else {
      assert slots == {};
    }
  }

  lemma KeptStep(c: Config, s: State, e: Event)
    requires Sensible(c) && Kept(c, s) && !e.RunnerFails?
    ensures Kept(c, Step(c, s, e))
  {
    if e.Evaluate? && Enabled(c, s, e) && |s.slots| > c.min {
      if forall k :: k in s.slots ==> k < c.min {
        FewBelow(s.slots, c.min);
      }
    }
  }

  lemma {:induction false} KeptExec(c: Config, es: seq<Event>)
    requires Sensible(c) && NoFailures(es)
    ensures Kept(c, Exec(c, es))
  {
    if es != [] {
      KeptExec(c, es[..|es| - 1]);
      KeptStep(c, Exec(c, es[..|es| - 1]), es[|es| - 1]);
    }
  }

  /** When runners end only by scale-down, the first Min slots are never chosen and never leave. */
  lemma {:induction false} InitialSlotsSurvive(c: Config, es: seq<Event>, i: nat)
    requires Sensible(c) && NoFailures(es) && i < c.min && Exec(c, es).phase != Booting
    ensures i in Exec(c, es).slots && i !in Exec(c, es).scaledDown
  {
    KeptExec(c, es);
  }

  // ---------------------------------------------------------------------------
  // Placement
  // ---------------------------------------------------------------------------

  /** Loads of healthy sessions are at most one apart. */
  predicate Balanced(s: State)
    requires InRange(s)
  {
    forall j, k :: j in s.sessions && k in s.sessions && Healthy(At(s, j)) && Healthy(At(s, k)) ==>
      At(s, j).active <= At(s, k).active + 1
  }

  lemma AcquireBalances(c: Config, s: State, n: nat)
    requires SessionsOk(s.slots, s.entries, s.sessions) && InRange(s) && Balanced(s) && IsChoice(s, n)
    ensures InRange(Apply(c, s, Acquire(n))) && Balanced(Apply(c, s, Acquire(n)))
  {
  }

  /** From loads at most one apart, any number of acquisitions without a release keeps them so. */
  lemma {:induction false} AcquisitionsStayBalanced(c: Config, es: seq<Event>, more: seq<Event>)
    requires Sensible(c) && forall i :: 0 <= i < |more| ==> more[i].Acquire? || more[i].Tick?
    requires InRange(Exec(c, es)) && Balanced(Exec(c, es))
    ensures InRange(Exec(c, es + more)) && Balanced(Exec(c, es + more))
  {
    if more == [] {
      assert es + more == es;
    } else {
      var n := |more| - 1;
      AcquisitionsStayBalanced(c, es, more[..n]);
      assert (es + more)[..|es + more| - 1] == es + more[..n];
      var s := Exec(c, es + more[..n]);
      ExecKeeps(c, es + more[..n]);
      if more[n].Acquire? && Enabled(c, s, more[n]) {
        AcquireBalances(c, s, more[n].entry);
      }
    }
  }

  // ---------------------------------------------------------------------------
  // The pool's loops
  // ---------------------------------------------------------------------------

  /** One pass in any order finds a least loaded healthy session, ties broken by round trip. */
  method Choose(s: State) returns (r: Option<nat>)
    requires SessionsOk(s.slots, s.entries, s.sessions) && InRange(s)
    ensures r.None? <==> forall k :: k in s.sessions ==> !Healthy(At(s, k))
    ensures r.Some? ==> IsChoice(s, r.value)
  {
    r := None;
    var todo := s.sessions.Keys;
    while todo != {}
      invariant todo <= s.sessions.Keys
      invariant r.Some? ==> IsRegistered(s, r.value) && Healthy(s.entries[r.value])
      invariant r.None? ==> forall k :: k in s.sessions && k !in todo ==> !Healthy(At(s, k))
      invariant r.Some? ==> forall k :: k in s.sessions && k !in todo && Healthy(At(s, k)) ==>
        !Better(At(s, k), s.entries[r.value])
      decreases |todo|
    {
      var k :| k in todo;
      assert SessionOk(s.slots, s.entries, k, s.sessions[k]);
      var n := s.sessions[k];
      if Healthy(s.entries[n]) && (r.None? || Better(s.entries[n], s.entries[r.value])) {
        r := Some(n);
      }
      todo := todo - {k};
    }
  }

  /** The evaluation's two passes decide exactly as specified. */
  method Survey(c: Config, s: State) returns (p: Phase)
    requires InRange(s)
    ensures p == Decision(c, s)
  {
    var allHigh, allLow := s.sessions != map[], s.sessions != map[];
    var todo := s.sessions.Keys;
    while todo != {}
      invariant todo <= s.sessions.Keys
      invariant allHigh <==> s.sessions != map[] && forall k :: k in s.sessions && k !in todo ==>
        At(s, k).active >= c.high
      invariant allLow <==> s.sessions != map[] && forall k :: k in s.sessions && k !in todo ==>
        At(s, k).active <= c.low
      decreases |todo|
    {
      var k :| k in todo;
      if At(s, k).active < c.high {
        allHigh := false;
      }
      if At(s, k).active > c.low {
        allLow := false;
      }
      todo := todo - {k};
    }
    var victim := FindGreatest(s.slots);
    if allHigh && |s.slots| < c.max {
      return Decided(true, victim);
    }
    if allLow && |s.slots| > c.min {
      return Decided(false, victim);
    }
    return Resting;
  }

  method FindGreatest(slots: set<nat>) returns (r: nat)
    ensures r == Greatest(slots)
  {
    var todo := slots;
    r := 0;
    var none := true;
    while todo != {}
      invariant todo <= slots && (none <==> todo == slots) && (none ==> r == 0)
      invariant !none ==> r in slots && forall k :: k in slots && k !in todo ==> k <= r
      decreases |todo|
    {
      var k :| k in todo;
      if none || k > r {
        r, none := k, false;
      }
      todo := todo - {k};
    }
  }

  class AgentSessionPool {
    const config: Config
    var slots: set<nat>
    var scaledDown: set<nat>
    var sessions: map<nat, nat>
    var entries: seq<Entry>
    var nextSlot: nat
    var phase: Phase
    var scales: seq<int>
    var clock: int

    function View(): State
      reads this
    {
      State(slots, scaledDown, sessions, entries, nextSlot, phase, scales, clock)
    }

    ghost predicate Valid()
      reads this
    {
      Inv(config, View())
    }

    constructor (config: Config)
      ensures Valid() && View() == Init() && this.config == config
    {
      this.config := config;
      slots, scaledDown, sessions, entries, nextSlot := {}, {}, map[], [], 0;
      phase, scales, clock := Booting, [], 0;
    }

    /** Places a stream on a least loaded healthy session and counts it there, or reports that there is none. */
    method AcquireSession() returns (r: Option<nat>)
      requires Valid()
      modifies this`entries
      ensures Valid()
      ensures r.Some? ==>
        && Enabled(config, old(View()), Acquire(r.value))
        && View() == Step(config, old(View()), Acquire(r.value))
      ensures r.None? ==> View() == old(View())
    {
      ghost var s := View();
      assert InRange(s) by {
        assert forall k :: k in s.sessions ==> SessionOk(s.slots, s.entries, k, s.sessions[k]);
      }
      r := Choose(View());
      if r.Some? {
        EntryEventKeeps(config, s, Acquire(r.value));
        var e := entries[r.value];
        entries := entries[r.value := e.(active := e.active + 1, held := e.held + 1)];
      }
    }

    /** Gives an acquisition back; only the entry now registered in its slot has its load reduced. */
    method ReleaseSession(n: nat)
      requires Valid() && n < |entries| && entries[n].held > 0
      modifies this`entries
      ensures Valid() && View() == Step(config, old(View()), Release(n))
    {
      ghost var s := View();
      EntryEventKeeps(config, s, Release(n));
      var e := entries[n];
      if e.slot in sessions && sessions[e.slot] == n && e.active > 0 {
        entries := entries[n := e.(active := e.active - 1, held := e.held - 1)];
      } else {
        entries := entries[n := e.(held := e.held - 1)];
      }
    }

    /** A session connected into slot k replaces whatever was registered there, unless the slot is gone. */
    method RegisterSession(k: nat) returns (ok: bool)
      requires Valid()
      modifies this`sessions, this`entries
      ensures Valid() && View() == Step(config, old(View()), Register(k)) && (ok <==> k in slots)
    {
      ok := k in slots;
      if ok {
        RegisterKeeps(config, View(), k);
        sessions := sessions[k := |entries|];
        entries := entries + [Entry(k, 0, 0, 0, 0)];
      }
    }
  }
}
