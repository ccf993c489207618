/**
 * The agent's connection controller: between Min and Max connections, scaled by two-evaluation
 * streaks of high or low load, with a cooldown before scaling down. Every section runs under
 * the controller's mutex, so an event is one section.
 */
module Controller {
  import opened Wrappers

  // ---------------------------------------------------------------------------
  // Connection ids
  // ---------------------------------------------------------------------------

  function Digit(d: nat): char
    requires d < 10
  {
    "0123456789"[d]
  }

  function Itoa(v: nat): string {
    if v < 10 then [Digit(v)] else Itoa(v / 10) + [Digit(v % 10)]
  }

  function DigitValue(c: char): nat {
    if '0' <= c <= '9' then (c - '0') as nat else 0
  }

  /** The number a digit string denotes. */
  function Atoi(s: string): nat {
    if s == "" then 0 else 10 * Atoi(s[..|s| - 1]) + DigitValue(s[|s| - 1])
  }

  lemma DigitRoundTrip(d: nat)
    requires d < 10
    ensures DigitValue(Digit(d)) == d
  {
  }

  lemma {:induction false} AtoiOfItoa(v: nat)
    ensures Atoi(Itoa(v)) == v
  {
    if v < 10 {
      DigitRoundTrip(v);
      assert Itoa(v)[..0] == "";
    } else {
      AtoiOfItoa(v / 10);
      DigitRoundTrip(v % 10);
      assert Itoa(v)[..|Itoa(v)| - 1] == Itoa(v / 10);
    }
  }

  /** The digit loop computes the decimal numeral. */
  method ItoaLoop(n: nat) returns (r: string)
    ensures r == Itoa(n)
  {
    if n == 0 {
      return "0";
    }
    var v: nat, digits := n, "";
    while v > 0
      invariant v > 0 ==> Itoa(n) == Itoa(v) + digits
      invariant v == 0 ==> Itoa(n) == digits
    {
      digits := [Digit(v % 10)] + digits;
      v := v / 10;
    }
    return digits;
  }

  function Id(n: nat): string {
    "conn-" + Itoa(n)
  }

  /** Different numbers give different ids. */
  lemma IdsAreDistinct(a: nat, b: nat)
    requires Id(a) == Id(b)
    ensures a == b
  {
    assert Id(a)[5..] == Itoa(a) && Id(b)[5..] == Itoa(b);
    AtoiOfItoa(a);
    AtoiOfItoa(b);
  }

  /** String comparison, byte by byte. */
  predicate Less(a: string, b: string) {
    if b == "" then false
    else if a == "" then true
    else a[0] < b[0] || (a[0] == b[0] && Less(a[1..], b[1..]))
  }

  lemma {:induction false} LessIsTotal(a: string, b: string)
    ensures Less(a, b) || a == b || Less(b, a)
    decreases |a|
  {
    if a != "" && b != "" && a[0] == b[0] {
      LessIsTotal(a[1..], b[1..]);
      assert a == [a[0]] + a[1..] && b == [b[0]] + b[1..];
    }
  }

  lemma {:induction false} LessIsTransitive(a: string, b: string, c: string)
    requires Less(a, b) && Less(b, c)
    ensures Less(a, c) && !Less(c, a)
    decreases |a|
  {
    if a != "" && a[0] == b[0] == c[0] {
      LessIsTransitive(a[1..], b[1..], c[1..]);
    } else if a == "" {
    }
  }

  predicate IsGreatest(ids: set<string>, v: string) {
    v in ids && forall x :: x in ids ==> x == v || Less(x, v)
  }

  // ---------------------------------------------------------------------------
  // The state machine
  // ---------------------------------------------------------------------------

  datatype Options = Options(
    min: nat, max: nat, highWatermark: int, lowWatermark: int, cooldown: int, highRtt: int, highPendingDials: int,
    highOpenP95: int, highTtfbP95: int, highWriterWait: int)

  datatype Stats = Stats(
    activeStreams: int, queuePressure: int, rtt: int, pendingDials: int, openP95: int, ttfbP95: int, writerWait: int,
    poolSupported: bool)

  datatype Action = Keep | Up | Down

  /** What one evaluation saw and did. */
  datatype Evaluation = Evaluation(now: int, high: bool, low: bool, action: Action)

  datatype State = State(
    connections: set<string>, stats: map<string, Stats>, highStreak: nat, lowStreak: nat, nextNumber: nat,
    lastScale: Option<int>, running: bool, closed: bool, log: seq<Evaluation>)

  datatype Event = Start | Report(id: string, stats: Stats) | Evaluate(now: int, victim: string) | CloseAll

  function Init(): State {
    State({}, map[], 0, 0, 0, None, false, false, [])
  }

  function OrDefault(x: int, d: int): int {
    if x <= 0 then d else x
  }

  predicate Sensible(o: Options) {
    1 <= o.min <= o.max
  }

  predicate IsHigh(o: Options, x: Stats) {
    || x.activeStreams >= o.highWatermark || x.queuePressure >= 80 || x.rtt >= o.highRtt
    || x.pendingDials >= o.highPendingDials || x.openP95 >= o.highOpenP95 || x.ttfbP95 >= o.highTtfbP95
    || x.writerWait >= o.highWriterWait
  }

  /** Some connection is under pressure and some connection's server supports pooling. */
  predicate HighAndSupported(o: Options, stats: map<string, Stats>) {
    && (exists k :: k in stats && IsHigh(o, stats[k]))
    && (exists k :: k in stats && stats[k].poolSupported)
  }

  predicate AllLow(o: Options, stats: map<string, Stats>) {
    forall k :: k in stats ==> stats[k].activeStreams <= o.lowWatermark
  }

  predicate Cooled(o: Options, last: Option<int>, now: int) {
    match last
    case None => true
    case Some(t) => now - t >= o.cooldown
  }

  function Started(o: Options, s: State): State {
    if |s.connections| >= o.max then s
    else s.(nextNumber := s.nextNumber + 1, connections := s.connections + {Id(s.nextNumber + 1)})
  }

  function StartedTimes(o: Options, s: State, n: nat): State {
    if n == 0 then s else Started(o, StartedTimes(o, s, n - 1))
  }

  function Streak(seen: bool, before: nat): nat {
    if seen then before + 1 else 0
  }

  function Verdict(o: Options, s: State, now: int): Action {
    var up := Streak(HighAndSupported(o, s.stats), s.highStreak);
    var down := Streak(AllLow(o, s.stats), s.lowStreak);
    if up >= 2 && |s.connections| < o.max then Up
    else if down >= 2 && |s.connections| > o.min && Cooled(o, s.lastScale, now) then Down
    else Keep
  }

  predicate Enabled(o: Options, s: State, e: Event) {
    match e
    case Start => !s.running && !s.closed
    case Report(id, _) => id != ""
    case Evaluate(now, victim) =>
      s.running && (!s.closed && Verdict(o, s, now) == Down ==> IsGreatest(s.connections, victim))
    case CloseAll => s.running
  }

  function Counted(o: Options, s: State): State {
    s.(highStreak := Streak(HighAndSupported(o, s.stats), s.highStreak),
       lowStreak := Streak(AllLow(o, s.stats), s.lowStreak))
  }

  /** Acts on a finished evaluation; a scaling starts both streaks afresh. */
  function Outcome(o: Options, s: State, x: Evaluation, victim: string): State {
    var t := s.(log := s.log + [x]);
    match x.action
    case Keep => t
    case Up => Started(o, t).(highStreak := 0, lowStreak := 0, lastScale := Some(x.now))
    case Down =>
      t.(connections := s.connections - {victim}, stats := s.stats - {victim}, highStreak := 0, lowStreak := 0,
         lastScale := Some(x.now))
  }

  function Evaluated(o: Options, s: State, now: int, victim: string): State {
    var x := Evaluation(now, HighAndSupported(o, s.stats), AllLow(o, s.stats), Verdict(o, s, now));
    Outcome(o, Counted(o, s), x, victim)
  }

  function Apply(o: Options, s: State, e: Event): State
    requires Enabled(o, s, e)
  {
    match e
    case Start => StartedTimes(o, s, o.min).(running := true)
    case Report(id, x) => s.(stats := s.stats[id := x])
    case Evaluate(now, victim) => if s.closed then s else Evaluated(o, s, now, victim)
    case CloseAll => s.(closed := true, connections := {})
  }

  function Step(o: Options, s: State, e: Event): State {
    if Enabled(o, s, e) then Apply(o, s, e) else s
  }

  function Exec(o: Options, es: seq<Event>): State {
    if es == [] then Init() else Step(o, Exec(o, es[..|es| - 1]), es[|es| - 1])
  }

  // ---------------------------------------------------------------------------
  // Bounds and ids
  // ---------------------------------------------------------------------------

  ghost predicate IsIssued(id: string, n: nat) {
    exists i :: 1 <= i <= n && id == Id(i)
  }

  /** Every connection carries an id issued so far. */
  ghost predicate Issued(connections: set<string>, n: nat) {
    forall id :: id in connections ==> IsIssued(id, n)
  }

  ghost predicate Bounds(o: Options, s: State) {
    && Issued(s.connections, s.nextNumber)
    && (!s.running ==> s.connections == {} && s.nextNumber == 0)
    && (s.running && !s.closed ==> o.min <= |s.connections| <= o.max)
  }

  lemma NextIsNew(connections: set<string>, n: nat)
    requires Issued(connections, n)
    ensures Id(n + 1) !in connections && Issued(connections + {Id(n + 1)}, n + 1)
  {
    var next := Id(n + 1);
    if next in connections {
      assert IsIssued(next, n);
      var i :| 1 <= i <= n && next == Id(i);
      IdsAreDistinct(i, n + 1);
    }
    assert IsIssued(next, n + 1);
    forall id | id in connections ensures IsIssued(id, n + 1) {
      assert IsIssued(id, n);
    }
  }

  /** A started connection's id is new, so the count really grows. */
  lemma StartAddsOne(o: Options, s: State)
    requires Issued(s.connections, s.nextNumber) && |s.connections| < o.max
    ensures |Started(o, s).connections| == |s.connections| + 1
    ensures Started(o, s).nextNumber == s.nextNumber + 1 && Issued(Started(o, s).connections, s.nextNumber + 1)
  {
    NextIsNew(s.connections, s.nextNumber);
  }

  /** n connections, under the first n numbers. */
  ghost predicate FirstNumbers(s: State, n: nat) {
    s.nextNumber == n && |s.connections| == n && Issued(s.connections, n)
  }

  lemma StartAddsNumber(o: Options, s: State, n: nat)
    requires FirstNumbers(s, n) && n < o.max
    ensures FirstNumbers(Started(o, s), n + 1)
  {
    StartAddsOne(o, s);
  }

  lemma {:induction false} StartupAddsMin(o: Options, s: State, n: nat)
    requires s.connections == {} && s.nextNumber == 0 && n <= o.max
    ensures FirstNumbers(StartedTimes(o, s, n), n)
  {
    if n > 0 {
      StartupAddsMin(o, s, n - 1);
      StartAddsNumber(o, StartedTimes(o, s, n - 1), n - 1);
    }
  }

  lemma EvaluateBounds(o: Options, s: State, now: int, victim: string)
    requires Sensible(o) && Bounds(o, s) && s.running && !s.closed
    requires Verdict(o, s, now) == Down ==> victim in s.connections
    ensures Bounds(o, Evaluated(o, s, now, victim))
  {
    match Verdict(o, s, now)
    case Up => UpBounds(o, s, now, victim);
    case Down => OneLess(s.connections, s.nextNumber, victim);
    case Keep =>
  }

  lemma UpBounds(o: Options, s: State, now: int, victim: string)
    requires Bounds(o, s) && s.running && !s.closed && Verdict(o, s, now) == Up
    ensures Bounds(o, Evaluated(o, s, now, victim))
  {
    StartAddsOne(o, s);
  }

  lemma OneLess(connections: set<string>, n: nat, victim: string)
    requires Issued(connections, n) && victim in connections
    ensures |connections - {victim}| == |connections| - 1 && Issued(connections - {victim}, n)
  {
  }

  lemma BoundsStep(o: Options, s: State, e: Event)
    requires Sensible(o) && Bounds(o, s)
    ensures Bounds(o, Step(o, s, e))
  {
    if Enabled(o, s, e) {
      match e {
        case Start => StartupAddsMin(o, s, o.min);
        case Evaluate(now, victim) => if !s.closed { EvaluateBounds(o, s, now, victim); }
        case _ =>
      }
    }
  }

  lemma {:induction false} BoundsExec(o: Options, es: seq<Event>)
    requires Sensible(o)
    ensures Bounds(o, Exec(o, es))
  {
    if es != [] {
      BoundsExec(o, es[..|es| - 1]);
      BoundsStep(o, Exec(o, es[..|es| - 1]), es[|es| - 1]);
    }
  }

  /** From start-up until everything is closed, the number of connections stays between Min and Max. */
  lemma {:induction false} ConnectionsWithinBounds(o: Options, es: seq<Event>)
    requires Sensible(o) && Exec(o, es).running && !Exec(o, es).closed
    ensures o.min <= |Exec(o, es).connections| <= o.max
  {
    BoundsExec(o, es);
  }

  // ---------------------------------------------------------------------------
  // Hysteresis
  // ---------------------------------------------------------------------------

  /** How many of the latest evaluations in a row saw high load, counting back to the last scaling. */
  function HighRun(log: seq<Evaluation>): nat {
    if log == [] then 0
    else
      var x := log[|log| - 1];
      if x.action == Keep && x.high then HighRun(log[..|log| - 1]) + 1 else 0
  }

  function LowRun(log: seq<Evaluation>): nat {
    if log == [] then 0
    else
      var x := log[|log| - 1];
      if x.action == Keep && x.low then LowRun(log[..|log| - 1]) + 1 else 0
  }

  /** When the controller last scaled. */
  function LastAction(log: seq<Evaluation>): Option<int> {
    if log == [] then None
    else
      var x := log[|log| - 1];
      if x.action == Keep then LastAction(log[..|log| - 1]) else Some(x.now)
  }

  /** Evaluation i, if it scaled, had every right to. */
  predicate Warranted(o: Options, log: seq<Evaluation>, i: nat) {
    i < |log| &&
    match log[i].action
    case Keep => true
    case Up => i >= 1 && log[i].high && log[i - 1].high && log[i - 1].action == Keep
    case Down =>
      && i >= 1 && log[i].low && log[i - 1].low && log[i - 1].action == Keep
      && Cooled(o, LastAction(log[..i]), log[i].now)
  }

  ghost predicate Recorded(o: Options, s: State) {
    && s.highStreak == HighRun(s.log) && s.lowStreak == LowRun(s.log) && s.lastScale == LastAction(s.log)
    && forall i :: 0 <= i < |s.log| ==> Warranted(o, s.log, i)
  }

  lemma AppendKeepsWarranted(o: Options, log: seq<Evaluation>, x: Evaluation)
    requires forall i :: 0 <= i < |log| ==> Warranted(o, log, i)
    ensures forall i :: 0 <= i < |log| ==> Warranted(o, log + [x], i)
  {
    var t := log + [x];
    forall i | 0 <= i < |log| ensures Warranted(o, t, i) {
      assert Warranted(o, log, i);
      assert t[..i] == log[..i];
    }
  }

  lemma AppendRuns(log: seq<Evaluation>, x: Evaluation)
    ensures HighRun(log + [x]) == if x.action == Keep && x.high then HighRun(log) + 1 else 0
    ensures LowRun(log + [x]) == if x.action == Keep && x.low then LowRun(log) + 1 else 0
    ensures LastAction(log + [x]) == if x.action == Keep then LastAction(log) else Some(x.now)
  {
  }

  /** A streak of one means the latest evaluation saw it and did not scale. */
  lemma RunsReachBack(log: seq<Evaluation>)
    ensures HighRun(log) >= 1 ==> |log| >= 1 && log[|log| - 1].high && log[|log| - 1].action == Keep
    ensures LowRun(log) >= 1 ==> |log| >= 1 && log[|log| - 1].low && log[|log| - 1].action == Keep
  {
  }

  /** The new evaluation is warranted by the streaks before it. */
  lemma VerdictIsWarranted(o: Options, s: State, x: Evaluation)
    requires Recorded(o, s) && x.action == Verdict(o, s, x.now)
    requires x.high == HighAndSupported(o, s.stats) && x.low == AllLow(o, s.stats)
    ensures Warranted(o, s.log + [x], |s.log|)
  {
    RunsReachBack(s.log);
    var log := s.log + [x];
    assert log[..|s.log|] == s.log && log[|s.log|] == x;
  }

  lemma LogGrows(o: Options, s: State, now: int, victim: string, x: Evaluation)
    requires x == Evaluation(now, HighAndSupported(o, s.stats), AllLow(o, s.stats), Verdict(o, s, now))
    ensures
      var t := Evaluated(o, s, now, victim);
      && t.log == s.log + [x]
      && t.highStreak == (if x.action == Keep && x.high then s.highStreak + 1 else 0)
      && t.lowStreak == (if x.action == Keep && x.low then s.lowStreak + 1 else 0)
      && t.lastScale == (if x.action == Keep then s.lastScale else Some(x.now))
  {
  }

  lemma EvaluateRecords(o: Options, s: State, now: int, victim: string)
    requires Recorded(o, s)
    ensures Recorded(o, Evaluated(o, s, now, victim))
  {
    var x := Evaluation(now, HighAndSupported(o, s.stats), AllLow(o, s.stats), Verdict(o, s, now));
    LogGrows(o, s, now, victim, x);
    AppendRuns(s.log, x);
    AppendKeepsWarranted(o, s.log, x);
    VerdictIsWarranted(o, s, x);
    var log := s.log + [x];
    assert forall i :: 0 <= i < |log| ==> Warranted(o, log, i);
  }

  /** Starting connections changes nothing but the connections and their number. */
  lemma {:induction false} StartupKeeps(o: Options, s: State, n: nat)
    ensures var t := StartedTimes(o, s, n); t == s.(connections := t.connections, nextNumber := t.nextNumber)
  {
    if n > 0 {
      StartupKeeps(o, s, n - 1);
    }
  }

  lemma {:induction false} RecordedExec(o: Options, es: seq<Event>)
    ensures Recorded(o, Exec(o, es))
  {
    if es != [] {
      RecordedExec(o, es[..|es| - 1]);
      var s, e := Exec(o, es[..|es| - 1]), es[|es| - 1];
      StartupKeeps(o, s, o.min);
      if e.Evaluate? {
        EvaluateRecords(o, s, e.now, e.victim);
      }
    }
  }

  /**
   * Every scale-up follows two consecutive evaluations with high load and support, every scale-down two
   * consecutive low ones and the cooldown since the last scaling, and no two scalings are adjacent.
   */
  lemma {:induction false} ScalingIsWarranted(o: Options, es: seq<Event>, i: nat)
    requires i < |Exec(o, es).log| && Exec(o, es).log[i].action != Keep
    ensures
      var log := Exec(o, es).log;
      && i >= 1 && log[i - 1].action == Keep
      && (log[i].action == Up ==> log[i - 1].high && log[i].high)
      && (log[i].action == Down ==> log[i - 1].low && log[i].low && Cooled(o, LastAction(log[..i]), log[i].now))
  {
    RecordedExec(o, es);
    assert Warranted(o, Exec(o, es).log, i);
  }

  lemma {:induction false} ScalingsAreTwoApart(o: Options, es: seq<Event>, i: nat, j: nat)
    requires i < j < |Exec(o, es).log| && Exec(o, es).log[i].action != Keep && Exec(o, es).log[j].action != Keep
    ensures j - i >= 2
  {
    ScalingIsWarranted(o, es, j);
  }

  // ---------------------------------------------------------------------------
  // Which connection is scaled down
  // ---------------------------------------------------------------------------

  function Digits(v: nat): (d: nat)
    ensures d >= 1
  {
    if v < 10 then 1 else Digits(v / 10) + 1
  }

  /** v without its last k digits. */
  function Drop(v: nat, k: nat): nat {
    if k == 0 then v else Drop(v / 10, k - 1)
  }

  function Pow10(k: nat): nat {
    if k == 0 then 1 else 10 * Pow10(k - 1)
  }

  /** Dropping k digits is dividing by ten to the power k. */
  lemma {:induction false} DropDivides(v: nat, k: nat)
    ensures Drop(v, k) * Pow10(k) <= v < (Drop(v, k) + 1) * Pow10(k)
  {
    if k > 0 {
      DropDivides(v / 10, k - 1);
      TenTimes(v, v / 10, Drop(v, k), Pow10(k - 1));
    }
  }

  /** Being at most b without its last k digits, by arithmetic alone. */
  lemma DropAtLeast(a: nat, b: nat, k: nat)
    ensures a <= Drop(b, k) <==> a * Pow10(k) <= b
  {
    DropDivides(b, k);
    if a <= Drop(b, k) {
      Scales(a, Drop(b, k), Pow10(k));
    } else {
      Scales(Drop(b, k) + 1, a, Pow10(k));
    }
  }

  lemma Scales(a: nat, b: nat, p: nat)
    requires a <= b
    ensures a * p <= b * p
  {
  }

  lemma TenTimes(v: nat, q: nat, d: nat, p: nat)
    requires q == v / 10 && d * p <= q < (d + 1) * p
    ensures d * (10 * p) <= v < (d + 1) * (10 * p)
  {
    assert d * (10 * p) == 10 * (d * p);
    assert (d + 1) * (10 * p) == 10 * ((d + 1) * p);
  }

  lemma {:induction false} ItoaLength(v: nat)
    ensures |Itoa(v)| == Digits(v)
  {
    if v >= 10 {
      ItoaLength(v / 10);
    }
  }

  lemma {:induction false} MoreDigits(a: nat, b: nat)
    requires a <= b
    ensures Digits(a) <= Digits(b)
  {
    if a >= 10 {
      MoreDigits(a / 10, b / 10);
    }
  }

  /** A common beginning does not matter. */
  lemma {:induction false} LessPrefix(p: string, a: string, b: string)
    ensures Less(p + a, p + b) <==> Less(a, b)
  {
    if p == "" {
      assert p + a == a && p + b == b;
    } else {
      LessPrefix(p[1..], a, b);
      assert (p + a)[1..] == p[1..] + a && (p + b)[1..] == p[1..] + b;
    }
  }

  /** Among equally long strings the last character decides only between equal beginnings. */
  lemma {:induction false} LessSnoc(a: string, b: string, x: char, y: char)
    requires |a| == |b|
    ensures Less(a + [x], b + [y]) <==> Less(a, b) || (a == b && x < y)
  {
    if a == "" {
      assert a + [x] == [x] && b + [y] == [y];
    } else {
      LessSnoc(a[1..], b[1..], x, y);
      assert (a + [x])[1..] == a[1..] + [x] && (b + [y])[1..] == b[1..] + [y];
      assert a == [a[0]] + a[1..] && b == [b[0]] + b[1..];
    }
  }

  /** A string sorts before a longer one when it does so within its own length, or is a beginning of it. */
  lemma {:induction false} LessCut(a: string, b: string)
    requires |a| <= |b|
    ensures Less(a, b) <==> Less(a, b[..|a|]) || (a == b[..|a|] && |a| < |b|)
  {
    if a != "" {
      LessCut(a[1..], b[1..]);
      assert b[..|a|][1..] == b[1..][..|a| - 1];
      assert a == [a[0]] + a[1..] && b[..|a|] == [b[0]] + b[1..][..|a| - 1];
    }
  }

  lemma DigitOrder(d: nat, e: nat)
    requires d < 10 && e < 10
    ensures Digit(d) < Digit(e) <==> d < e
    ensures Digit(d) == Digit(e) <==> d == e
  {
  }

  lemma LastDigitOrder(a: nat, b: nat)
    ensures a < b <==> a / 10 < b / 10 || (a / 10 == b / 10 && a % 10 < b % 10)
  {
  }

  /** Numerals of equal length sort as their numbers do when they do so without their last digits. */
  lemma LongerNumerals(a: nat, b: nat)
    requires a >= 10 && b >= 10 && Digits(a / 10) == Digits(b / 10)
    requires Less(Itoa(a / 10), Itoa(b / 10)) <==> a / 10 < b / 10
    ensures Less(Itoa(a), Itoa(b)) <==> a < b
  {
    ItoaLength(a / 10);
    ItoaLength(b / 10);
    LessSnoc(Itoa(a / 10), Itoa(b / 10), Digit(a % 10), Digit(b % 10));
    DigitOrder(a % 10, b % 10);
    AtoiOfItoa(a / 10);
    AtoiOfItoa(b / 10);
    LastDigitOrder(a, b);
  }

  /** Numerals of equal length sort as their numbers do. */
  lemma {:induction false} SameLengthOrder(a: nat, b: nat)
    requires Digits(a) == Digits(b)
    ensures Less(Itoa(a), Itoa(b)) <==> a < b
  {
    if a < 10 {
      DigitOrder(a, b);
    } else {
      SameLengthOrder(a / 10, b / 10);
      LongerNumerals(a, b);
    }
  }

  /** Cutting k characters off a numeral drops k digits of its number. */
  lemma {:induction false} LeadingDigits(b: nat, k: nat)
    requires k < Digits(b)
    ensures Digits(Drop(b, k)) == Digits(b) - k && |Itoa(b)| == Digits(b)
    ensures Itoa(b)[..Digits(b) - k] == Itoa(Drop(b, k))
    decreases k
  {
    ItoaLength(b);
    if k > 0 {
      LeadingDigits(b / 10, k - 1);
      assert Itoa(b)[..Digits(b) - k] == Itoa(b / 10)[..Digits(b / 10) - (k - 1)];
    } else {
      assert Itoa(b)[..|Itoa(b)|] == Itoa(b);
    }
  }

  /** a followed by zeros until it is as long as b is still at most b. */
  predicate SortsBefore(a: nat, b: nat) {
    Digits(a) <= Digits(b) && a * Pow10(Digits(b) - Digits(a)) <= b
  }

  /** Strings that stand for numbers order as the numbers do, once cut to the shorter length. */
  lemma CutOrder(x: string, y: string, top: string, a: nat, d: nat)
    requires |x| <= |y| && y[..|x|] == top && (Less(x, top) <==> a < d) && (x == top <==> a == d)
    requires |x| == |y| ==> a < d
    ensures Less(x, y) <==> a <= d
  {
    LessCut(x, y);
  }

  /** Numerals of equal length are equal, and sort, as their numbers. */
  lemma NumeralsCompare(a: nat, d: nat)
    requires Digits(a) == Digits(d)
    ensures (Less(Itoa(a), Itoa(d)) <==> a < d) && (Itoa(a) == Itoa(d) <==> a == d)
  {
    SameLengthOrder(a, d);
    AtoiOfItoa(a);
    AtoiOfItoa(d);
  }

  lemma CutNumeral(a: nat, b: nat, d: nat)
    requires Digits(a) <= Digits(b) && d == Drop(b, Digits(b) - Digits(a))
    ensures Digits(d) == Digits(a) == |Itoa(a)| <= |Itoa(b)| == Digits(b) && Itoa(b)[..|Itoa(a)|] == Itoa(d)
  {
    LeadingDigits(b, Digits(b) - Digits(a));
    ItoaLength(a);
  }

  lemma NumeralOrder(a: nat, b: nat)
    requires a < b && Digits(a) <= Digits(b)
    ensures Less(Itoa(a), Itoa(b)) <==> a <= Drop(b, Digits(b) - Digits(a))
  {
    var d := Drop(b, Digits(b) - Digits(a));
    CutNumeral(a, b, d);
    NumeralsCompare(a, d);
    CutOrder(Itoa(a), Itoa(b), Itoa(d), a, d);
  }

  lemma SortsByDrop(a: nat, b: nat)
    requires a < b
    ensures Digits(a) <= Digits(b) && (SortsBefore(a, b) <==> a <= Drop(b, Digits(b) - Digits(a)))
  {
    MoreDigits(a, b);
    DropAtLeast(a, b, Digits(b) - Digits(a));
  }

  /** An id sorts before a later one exactly when its number, filled up with zeros, is at most the later number. */
  lemma IdOrder(a: nat, b: nat)
    requires a < b
    ensures Less(Id(a), Id(b)) <==> SortsBefore(a, b)
  {
    LessPrefix("conn-", Itoa(a), Itoa(b));
    SortsByDrop(a, b);
    NumeralOrder(a, b);
  }

  /**
   * On every run the connection that would be scaled down is the newest exactly when every other live
   * number, filled up with zeros to the newest one's length, is at most the newest one.
   */
  lemma {:induction false} NewestIsTheVictimIff(o: Options, es: seq<Event>, n: nat)
    requires Sensible(o) && Id(n) in Exec(o, es).connections
    requires forall a: nat :: Id(a) in Exec(o, es).connections ==> a <= n
    ensures IsGreatest(Exec(o, es).connections, Id(n)) <==>
            forall a: nat | a < n :: Id(a) in Exec(o, es).connections ==> SortsBefore(a, n)
  {
    BoundsExec(o, es);
    var live := Exec(o, es).connections;
    if forall a: nat | a < n :: Id(a) in live ==> SortsBefore(a, n) {
      forall x | x in live ensures x == Id(n) || Less(x, Id(n)) {
        assert IsIssued(x, Exec(o, es).nextNumber);
        var i :| 1 <= i <= Exec(o, es).nextNumber && x == Id(i);
        if i < n {
          IdOrder(i, n);
        }
      }
    }
    if IsGreatest(live, Id(n)) {
      forall a: nat | a < n && Id(a) in live ensures SortsBefore(a, n) {
        if Id(a) == Id(n) {
          IdsAreDistinct(a, n);
        }
        IdOrder(a, n);
      }
    }
  }

  /** The ninth connection is scaled down before the tenth. */
  lemma NinthGoesBeforeTheTenth()
    ensures Less(Id(10), Id(9)) && !SortsBefore(9, 10)
  {
    assert Digits(10) == 2 && Digits(9) == 1 && Pow10(1) == 10;
    IdOrder(9, 10);
    LessIsTotal(Id(9), Id(10));
    if Id(9) == Id(10) {
      IdsAreDistinct(9, 10);
    }
  }

  // ---------------------------------------------------------------------------
  // Scaling up does not wait
  // ---------------------------------------------------------------------------

  function Extend(es: seq<Event>, e: Event): seq<Event> {
    es + [e]
  }

  lemma {:induction false} ExtendSteps(o: Options, es: seq<Event>, e: Event)
    ensures Exec(o, Extend(es, e)) == Step(o, Exec(o, es), e)
  {
    assert Extend(es, e)[..|es|] == es;
  }

  /** A report that is high and supports pooling. */
  function Pressed(o: Options): Stats {
    Stats(o.highWatermark, 0, 0, 0, 0, 0, 0, true)
  }

  ghost predicate UnderPressure(o: Options, s: State, connections: nat, streak: nat) {
    && s == s.(running := true, closed := false, stats := map["c" := Pressed(o)], highStreak := streak)
    && |s.connections| == connections && s.lowStreak <= streak && Issued(s.connections, s.nextNumber)
  }

  lemma PressureIsHigh(o: Options, stats: map<string, Stats>)
    requires stats == map["c" := Pressed(o)]
    ensures HighAndSupported(o, stats)
  {
    assert "c" in stats && IsHigh(o, stats["c"]) && stats["c"].poolSupported;
  }

  /** t is s one evaluation at now later. */
  predicate LoggedOne(s: State, t: State, now: int, action: Action) {
    && |t.log| == |s.log| + 1 && t.log[..|s.log|] == s.log
    && t.log[|s.log|].now == now && t.log[|s.log|].action == action
  }

  /** Under pressure the first evaluation waits. */
  lemma FirstPress(o: Options, s: State, n: nat, now: int)
    requires UnderPressure(o, s, n, 0)
    ensures
      var t := Step(o, s, Evaluate(now, ""));
      LoggedOne(s, t, now, Keep) && UnderPressure(o, t, n, 1)
  {
    PressureIsHigh(o, s.stats);
  }

  /** The second one scales up, whatever the time. */
  lemma SecondPress(o: Options, s: State, n: nat, now: int)
    requires UnderPressure(o, s, n, 1) && n < o.max
    ensures
      var t := Step(o, s, Evaluate(now, ""));
      LoggedOne(s, t, now, Up) && UnderPressure(o, t, n + 1, 0)
  {
    PressureIsHigh(o, s.stats);
    assert Verdict(o, s, now) == Up;
    StartAddsOne(o, s);
  }

  lemma PressureBuilds(o: Options) returns (es: seq<Event>)
    requires Sensible(o)
    ensures UnderPressure(o, Exec(o, es), o.min, 0) && Exec(o, es).log == []
  {
    es := Extend([], Start);
    ExtendSteps(o, [], Start);
    StartupAddsMin(o, Init(), o.min);
    StartupKeeps(o, Init(), o.min);
    ExtendSteps(o, es, Report("c", Pressed(o)));
    es := Extend(es, Report("c", Pressed(o)));
  }

  /** t is s two evaluations later, the second of which scaled up. */
  predicate LoggedTwo(s: State, t: State, now: int, interval: int) {
    && |t.log| == |s.log| + 2 && t.log[..|s.log|] == s.log
    && t.log[|s.log|].now == now && t.log[|s.log| + 1].now == now + interval && t.log[|s.log| + 1].action == Up
  }

  lemma OneAndOne(s: State, m: State, t: State, now: int, interval: int)
    requires LoggedOne(s, m, now, Keep) && LoggedOne(m, t, now + interval, Up)
    ensures LoggedTwo(s, t, now, interval)
  {
    assert t.log[..|s.log|] == m.log[..|s.log|] && t.log[|s.log|] == t.log[..|m.log|][|s.log|];
  }

  /** Two evaluations under pressure, an interval apart, log a wait and a scale-up. */
  lemma TwoPresses(o: Options, s: State, n: nat, now: int, interval: int)
    requires UnderPressure(o, s, n, 0) && n < o.max
    ensures
      var t := Step(o, Step(o, s, Evaluate(now, "")), Evaluate(now + interval, ""));
      LoggedTwo(s, t, now, interval) && UnderPressure(o, t, n + 1, 0)
  {
    FirstPress(o, s, n, now);
    var m := Step(o, s, Evaluate(now, ""));
    SecondPress(o, m, n, now + interval);
    OneAndOne(s, m, Step(o, m, Evaluate(now + interval, "")), now, interval);
  }

  lemma {:induction false} TwoEvaluations(
    o: Options, es: seq<Event>, n: nat, now: int, interval: int) returns (more: seq<Event>)
    requires UnderPressure(o, Exec(o, es), n, 0) && n < o.max
    ensures LoggedTwo(Exec(o, es), Exec(o, more), now, interval) && UnderPressure(o, Exec(o, more), n + 1, 0)
  {
    TwoPresses(o, Exec(o, es), n, now, interval);
    ExtendSteps(o, es, Evaluate(now, ""));
    more := Extend(es, Evaluate(now, ""));
    ExtendSteps(o, more, Evaluate(now + interval, ""));
    more := Extend(more, Evaluate(now + interval, ""));
  }

  /** Four evaluations an interval apart, the second and the fourth of which scaled up. */
  predicate TwoUps(log: seq<Evaluation>, now: int, interval: int) {
    && |log| == 4 && log[1].action == Up && log[3].action == Up
    && log[0].now == now && log[1].now == now + interval
    && log[2].now == now + 2 * interval && log[3].now == now + 3 * interval
  }

  lemma TwoAndTwo(s: State, m: State, t: State, now: int, interval: int)
    requires s.log == [] && LoggedTwo(s, m, now, interval) && LoggedTwo(m, t, now + 2 * interval, interval)
    ensures TwoUps(t.log, now, interval)
  {
    assert t.log[0] == t.log[..2][0] && t.log[1] == t.log[..2][1];
  }

  /** At every evaluation interval below half the cooldown, two scale-ups can fall within the cooldown. */
  lemma ScaleUpIgnoresTheCooldown(o: Options, now: int, interval: int) returns (es: seq<Event>)
    requires Sensible(o) && o.min + 2 <= o.max && 0 < interval && 2 * interval < o.cooldown
    ensures TwoUps(Exec(o, es).log, now, interval)
    ensures Exec(o, es).log[3].now - Exec(o, es).log[1].now < o.cooldown
  {
    var start := PressureBuilds(o);
    var mid := TwoEvaluations(o, start, o.min, now, interval);
    es := TwoEvaluations(o, mid, o.min + 1, now + 2 * interval, interval);
    TwoAndTwo(Exec(o, start), Exec(o, mid), Exec(o, es), now, interval);
  }

  // ---------------------------------------------------------------------------
  // The controller's own loops
  // ---------------------------------------------------------------------------

  lemma GreatestGrows(ids: set<string>, v: string, k: string)
    requires IsGreatest(ids, v)
    ensures IsGreatest(ids + {k}, if Less(v, k) then k else v)
  {
    LessIsTotal(k, v);
    if Less(v, k) {
      forall x | x in ids ensures Less(x, k) {
        if x != v {
          LessIsTransitive(x, v, k);
        }
      }
    }
  }

  /** One pass in any order finds the greatest id. */
  method FindVictim(ids: set<string>) returns (r: Option<string>)
    ensures r.None? <==> ids == {}
    ensures r.Some? ==> IsGreatest(ids, r.value)
  {
    var todo := ids;
    ghost var seen: set<string> := {};
    r := None;
    while todo != {}
      invariant seen + todo == ids && (r.None? <==> seen == {})
      invariant r.Some? ==> IsGreatest(seen, r.value)
      decreases |todo|
    {
      var k :| k in todo;
      if r.Some? {
        GreatestGrows(seen, r.value, k);
      }
      if r.None? || Less(r.value, k) {
        r := Some(k);
      }
      seen := seen + {k};
      todo := todo - {k};
    }
    assert seen == ids;
  }

  class ConnectionController {
    const options: Options
    var connections: set<string>
    var stats: map<string, Stats>
    var highStreak: nat
    var lowStreak: nat
    var nextNumber: nat
    var lastScale: Option<int>
    var running: bool
    var closed: bool
    /** What past evaluations saw and did. */
    ghost var log: seq<Evaluation>

    ghost function View(): State
      reads this
    {
      State(connections, stats, highStreak, lowStreak, nextNumber, lastScale, running, closed, log)
    }

    ghost predicate Valid()
      reads this
    {
      Sensible(options) && Bounds(options, View())
    }

    /**
     * A minimum that is not positive becomes one, a maximum below the minimum becomes the minimum, and every
     * other setting that is not positive, or for the low watermark negative, its default. Times are in
     * milliseconds.
     */
    constructor (min: int, max: int, rest: Options)
      ensures Valid() && View() == Init()
      ensures options.min as int == if min <= 0 then 1 else min
      ensures options.max as int == if max < options.min then options.min else max
      ensures options.highWatermark == OrDefault(rest.highWatermark, 16) > 0
      ensures options.lowWatermark == (if rest.lowWatermark < 0 then 2 else rest.lowWatermark) >= 0
      ensures options.cooldown == OrDefault(rest.cooldown, 30_000) > 0
      ensures options.highRtt == OrDefault(rest.highRtt, 500) > 0
      ensures options.highPendingDials == OrDefault(rest.highPendingDials, 1) > 0
      ensures options.highOpenP95 == OrDefault(rest.highOpenP95, 1000) > 0
      ensures options.highTtfbP95 == OrDefault(rest.highTtfbP95, 1000) > 0
      ensures options.highWriterWait == OrDefault(rest.highWriterWait, 100) > 0
    {
      var low := if min <= 0 then 1 else min;
      options := Options(
        low, if max < low then low else max,
        OrDefault(rest.highWatermark, 16), if rest.lowWatermark < 0 then 2 else rest.lowWatermark,
        OrDefault(rest.cooldown, 30_000), OrDefault(rest.highRtt, 500), OrDefault(rest.highPendingDials, 1),
        OrDefault(rest.highOpenP95, 1000), OrDefault(rest.highTtfbP95, 1000), OrDefault(rest.highWriterWait, 100));
      connections, stats, highStreak, lowStreak, nextNumber := {}, map[], 0, 0, 0;
      lastScale, running, closed, log := None, false, false, [];
    }

    method StartOne()
      modifies this`connections, this`nextNumber
      ensures View() == Started(options, old(View()))
    {
      if |connections| >= options.max {
        return;
      }
      nextNumber := nextNumber + 1;
      var number := ItoaLoop(nextNumber);
      connections := connections + {"conn-" + number};
    }

    method StartMin()
      modifies this`connections, this`nextNumber
      ensures View() == StartedTimes(options, old(View()), options.min)
    {
      for i := 0 to options.min
        invariant View() == StartedTimes(options, old(View()), i)
      {
        StartOne();
      }
    }

    /** Run's start-up section. */
    method Run() returns (ok: bool)
      requires Valid() && !running
      modifies this
      ensures Valid() && View() == Step(options, old(View()), Start) && (ok <==> !old(closed))
    {
      BoundsStep(options, View(), Start);
      if closed {
        return false;
      }
      StartMin();
      running := true;
      return true;
    }

    /** One pass over the reports in any order summarises the load. */
    method Summarise() returns (high: bool, low: bool)
      ensures high <==> HighAndSupported(options, stats)
      ensures low <==> AllLow(options, stats)
    {
      var supported, pressed := false, false;
      low := true;
      var todo := stats.Keys;
      while todo != {}
        invariant todo <= stats.Keys
        invariant supported <==> exists k :: k in stats && k !in todo && stats[k].poolSupported
        invariant pressed <==> exists k :: k in stats && k !in todo && IsHigh(options, stats[k])
        invariant low <==> forall k :: k in stats && k !in todo ==> stats[k].activeStreams <= options.lowWatermark
        decreases |todo|
      {
        var k :| k in todo;
        supported := supported || stats[k].poolSupported;
        if IsHigh(options, stats[k]) {
          pressed := true;
        }
        if stats[k].activeStreams > options.lowWatermark {
          low := false;
        }
        todo := todo - {k};
      }
      high := pressed && supported;
    }

    /** The streaks with this evaluation counted decide exactly as specified. */
    method Decide(now: int, high: bool, low: bool) returns (a: Action)
      requires high == HighAndSupported(options, stats) && low == AllLow(options, stats)
      modifies this`highStreak, this`lowStreak
      ensures highStreak == Streak(high, old(highStreak)) && lowStreak == Streak(low, old(lowStreak))
      ensures a == Verdict(options, old(View()), now)
    {
      highStreak := if high then highStreak + 1 else 0;
      lowStreak := if low then lowStreak + 1 else 0;
      if highStreak >= 2 && |connections| < options.max {
        return Up;
      }
      if lowStreak >= 2 && |connections| > options.min &&
        (lastScale.None? || now - lastScale.value >= options.cooldown) {
        return Down;
      }
      return Keep;
    }

    method Carry(x: Evaluation, name: string)
      modifies this
      ensures View() == Outcome(options, old(View()), x, name)
    {
      log := log + [x];
      match x.action {
        case Up =>
          StartOne();
          lastScale, highStreak, lowStreak := Some(x.now), 0, 0;
        case Down =>
          connections, stats := connections - {name}, stats - {name};
          lastScale, highStreak, lowStreak := Some(x.now), 0, 0;
        case Keep =>
      }
    }

    /** An evaluation of an open controller, with the id that would have to go. */
    method Scale(now: int, name: string)
      modifies this
      ensures View() == Evaluated(options, old(View()), now, name)
    {
      var high, low := Summarise();
      var action := Decide(now, high, low);
      assert View() == Counted(options, old(View()));
      Carry(Evaluation(now, high, low, action), name);
    }

    method EvaluateLoad(now: int)
      requires Valid() && running
      modifies this
      ensures Valid()
      ensures exists victim :: Enabled(options, old(View()), Evaluate(now, victim)) &&
                View() == Step(options, old(View()), Evaluate(now, victim))
    {
      ghost var s := View();
      var victim := FindVictim(connections);
      var name := if victim.Some? then victim.value else "";
      assert Enabled(options, s, Evaluate(now, name));
      BoundsStep(options, s, Evaluate(now, name));
      if !closed {
        Scale(now, name);
      }
      assert View() == Step(options, s, Evaluate(now, name));
    }
  }
}
