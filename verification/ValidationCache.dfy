/**
 * Remote validation behind a cache: one exchange per key at a time, waiters share the leader's
 * answer, answers are kept for a time that depends on their polarity, and the table is bounded.
 * Events are the sections under the cache's mutex and the steps between them; time is an
 * abstract clock.
 */
module ValidationCache {
  import opened Wrappers

  /** Cache keys are built from several fields joined by separators, so none is empty. */
  type Key = k: string | k != "" witness "k"

  datatype Config = Config(positiveTtl: nat, negativeTtl: nat, max: nat)

  /** An exchange with the remote, from being listed as in flight to waking its waiters. */
  datatype Stage = Asking | Told | Stored | Unlisted | Done

  datatype Exchange = Exchange(key: Key, stage: Stage, allowed: bool, finishedAt: int)

  datatype Entry = Entry(allowed: bool, exchange: nat, expiresAt: int, lastAccess: int)

  /** Where a returned answer came from. */
  datatype Source = Hit(exchange: nat) | Led(exchange: nat) | Joined(exchange: nat) | GaveUp

  datatype Phase = Started | Leading(exchange: nat) | Waiting(exchange: nat) | Returned(answer: bool, source: Source)

  /** One call of Validate and the time it read before taking the lock. */
  datatype Call = Call(key: Key, now: int, phase: Phase)

  datatype State = State(
    entries: map<Key, Entry>, inFlight: map<Key, nat>, exchanges: seq<Exchange>, calls: seq<Call>,
    closed: bool, clock: int)

  datatype Event =
    | Begin(key: Key)
    | Lookup(call: nat)
    | Answer(exchange: nat, allowed: bool)
    | Store(exchange: nat, victim: Option<Key>)
    | Unlist(exchange: nat)
    | Wake(exchange: nat)
    | Return(call: nat)
    | Quit(call: nat)
    | Invalidate
    | CloseCache
    | Tick

  function Init(): State {
    State(map[], map[], [], [], false, 0)
  }

  function Ttl(c: Config, allowed: bool): nat {
    if allowed then c.positiveTtl else c.negativeTtl
  }

  /** k was accessed no later than any other entry. */
  predicate IsOldest(entries: map<Key, Entry>, k: Key) {
    k in entries && forall j :: j in entries ==> entries[k].lastAccess <= entries[j].lastAccess
  }

  /** A full table gives up one of its least recently accessed entries; otherwise there is no victim. */
  predicate VictimOk(c: Config, s: State, victim: Option<Key>) {
    if !s.closed && |s.entries| >= c.max && s.entries != map[]
    then victim.Some? && IsOldest(s.entries, victim.value)
    else victim == None
  }

  predicate StageIs(s: State, x: nat, g: Stage) {
    x < |s.exchanges| && s.exchanges[x].stage == g
  }

  predicate Enabled(c: Config, s: State, e: Event) {
    match e
    case Begin(_) => true
    case Lookup(i) => i < |s.calls| && s.calls[i].phase == Started
    case Answer(x, _) => StageIs(s, x, Asking)
    case Store(x, victim) => StageIs(s, x, Told) && VictimOk(c, s, victim)
    case Unlist(x) => StageIs(s, x, Stored)
    case Wake(x) => StageIs(s, x, Unlisted)
    case Return(i) =>
      && i < |s.calls| && (s.calls[i].phase.Leading? || s.calls[i].phase.Waiting?)
      && StageIs(s, s.calls[i].phase.exchange, Done)
    case Quit(i) => i < |s.calls| && s.calls[i].phase.Waiting?
    case Invalidate => !s.closed
    case CloseCache => true
    case Tick => true
  }

  function Fresh(s: State, k: Key, now: int): bool {
    !s.closed && k in s.entries && now <= s.entries[k].expiresAt
  }

  function SetPhase(s: State, i: nat, p: Phase): State
    requires i < |s.calls|
  {
    s.(calls := s.calls[i := s.calls[i].(phase := p)])
  }

  function SetStage(s: State, x: nat, g: Stage): State
    requires x < |s.exchanges|
  {
    s.(exchanges := s.exchanges[x := s.exchanges[x].(stage := g)])
  }

  function LookedUp(s: State, i: nat): State
    requires i < |s.calls|
  {
    var k, now := s.calls[i].key, s.calls[i].now;
    if Fresh(s, k, now) then
      var e := s.entries[k];
      SetPhase(s, i, Returned(e.allowed, Hit(e.exchange))).(entries := s.entries[k := e.(lastAccess := now)])
    else
      var t := if s.closed then s else s.(entries := s.entries - {k});
      if k in s.inFlight then SetPhase(t, i, Waiting(s.inFlight[k]))
      else
        SetPhase(t, i, Leading(|s.exchanges|)).(
          inFlight := s.inFlight[k := |s.exchanges|], exchanges := s.exchanges + [Exchange(k, Asking, false, 0)])
  }

  function NewEntry(c: Config, s: State, x: nat): Entry
    requires x < |s.exchanges|
  {
    var e := s.exchanges[x];
    Entry(e.allowed, x, e.finishedAt + Ttl(c, e.allowed), e.finishedAt)
  }

  function StoredEntries(c: Config, s: State, x: nat, victim: Option<Key>): map<Key, Entry>
    requires x < |s.exchanges|
  {
    if s.closed then s.entries
    else
      (if victim.Some? then s.entries - {victim.value} else s.entries)[s.exchanges[x].key := NewEntry(c, s, x)]
  }

  function Apply(c: Config, s: State, e: Event): State
    requires Enabled(c, s, e)
  {
    match e
    case Begin(k) => s.(calls := s.calls + [Call(k, s.clock, Started)])
    case Lookup(i) => LookedUp(s, i)
    case Answer(x, allowed) =>
      s.(exchanges := s.exchanges[x := s.exchanges[x].(stage := Told, allowed := allowed, finishedAt := s.clock)])
    case Store(x, victim) => SetStage(s, x, Stored).(entries := StoredEntries(c, s, x, victim))
    case Unlist(x) => SetStage(s, x, Unlisted).(inFlight := s.inFlight - {s.exchanges[x].key})
    case Wake(x) => SetStage(s, x, Done)
    case Return(i) =>
      var x := s.calls[i].phase.exchange;
      SetPhase(s, i, Returned(s.exchanges[x].allowed, if s.calls[i].phase.Leading? then Led(x) else Joined(x)))
    case Quit(i) => SetPhase(s, i, Returned(false, GaveUp))
    case Invalidate => s.(entries := map[])
    case CloseCache => s.(entries := map[], inFlight := map[], closed := true)
    case Tick => s.(clock := s.clock + 1)
  }

  function Step(c: Config, s: State, e: Event): State {
    if Enabled(c, s, e) then Apply(c, s, e) else s
  }

  function Exec(c: Config, es: seq<Event>): State {
    if es == [] then Init() else Step(c, Exec(c, es[..|es| - 1]), es[|es| - 1])
  }

  // ---------------------------------------------------------------------------
  // The invariant
  // ---------------------------------------------------------------------------

  /** Exchange x was about key k and answered allowed. */
  predicate Said(xs: seq<Exchange>, x: nat, k: Key, allowed: bool) {
    x < |xs| && xs[x].key == k && xs[x].stage != Asking && xs[x].allowed == allowed
  }

  /** An entry is what its exchange answered, kept for that polarity's time from when it finished. */
  predicate EntryOk(c: Config, xs: seq<Exchange>, k: Key, e: Entry) {
    Said(xs, e.exchange, k, e.allowed) && e.expiresAt == xs[e.exchange].finishedAt + Ttl(c, e.allowed)
  }

  predicate About(xs: seq<Exchange>, x: nat, k: Key) {
    x < |xs| && xs[x].key == k
  }

  /**
   * What a returned answer rests on: a cached exchange that finished no longer ago than its
   * polarity's time to live, the call's own exchange, one it joined, or nothing when it gave up.
   */
  predicate Justified(c: Config, xs: seq<Exchange>, k: Key, now: int, answer: bool, source: Source) {
    match source
    case Hit(x) => Said(xs, x, k, answer) && now <= xs[x].finishedAt + Ttl(c, answer)
    case Led(x) => Said(xs, x, k, answer)
    case Joined(x) => Said(xs, x, k, answer)
    case GaveUp => !answer
  }

  predicate CallOk(c: Config, xs: seq<Exchange>, v: Call) {
    match v.phase
    case Started => true
    case Leading(x) => About(xs, x, v.key)
    case Waiting(x) => About(xs, x, v.key)
    case Returned(a, source) => Justified(c, xs, v.key, v.now, a, source)
  }

  predicate IsListed(g: Stage) {
    g.Asking? || g.Told? || g.Stored?
  }

  /** The in-flight table lists exchanges still to be unlisted, and until the cache closes all of them. */
  predicate Listing(s: State) {
    && (forall k :: k in s.inFlight ==> About(s.exchanges, s.inFlight[k], k))
    && (forall k :: k in s.inFlight ==> IsListed(s.exchanges[s.inFlight[k]].stage))
    && (!s.closed ==> forall x :: 0 <= x < |s.exchanges| && IsListed(s.exchanges[x].stage) ==>
          s.exchanges[x].key in s.inFlight && s.inFlight[s.exchanges[x].key] == x)
  }

  predicate TableOk(c: Config, xs: seq<Exchange>, entries: map<Key, Entry>) {
    forall k :: k in entries ==> EntryOk(c, xs, k, entries[k])
  }

  predicate Entries(c: Config, s: State) {
    && (s.closed ==> s.entries == map[])
    && |s.entries| <= c.max
    && TableOk(c, s.exchanges, s.entries)
  }

  predicate Calls(c: Config, s: State) {
    forall i :: 0 <= i < |s.calls| ==> CallOk(c, s.exchanges, s.calls[i])
  }

  predicate Inv(c: Config, s: State) {
    Listing(s) && Entries(c, s) && Calls(c, s)
  }

  /** Exchanges only move on: keys never change, and an answer once given stays. */
  ghost predicate Grows(xs: seq<Exchange>, ys: seq<Exchange>) {
    && |xs| <= |ys|
    && forall x :: 0 <= x < |xs| ==>
         && ys[x].key == xs[x].key
         && (xs[x].stage != Asking ==>
               ys[x].stage != Asking && ys[x].allowed == xs[x].allowed && ys[x].finishedAt == xs[x].finishedAt)
  }

  lemma GrowsKeepsEntries(c: Config, xs: seq<Exchange>, ys: seq<Exchange>, entries: map<Key, Entry>)
    requires Grows(xs, ys) && TableOk(c, xs, entries)
    ensures TableOk(c, ys, entries)
  {
  }

  lemma GrowsKeepsCalls(c: Config, xs: seq<Exchange>, ys: seq<Exchange>, calls: seq<Call>)
    requires Grows(xs, ys) && forall i :: 0 <= i < |calls| ==> CallOk(c, xs, calls[i])
    ensures forall i :: 0 <= i < |calls| ==> CallOk(c, ys, calls[i])
  {
  }

  lemma SmallerTable(m: map<Key, Entry>, k: Key)
    ensures |m - {k}| <= |m| && (k in m ==> |m - {k}| == |m| - 1)
  {
  }

  lemma PhaseKeeps(c: Config, s: State, i: nat, p: Phase)
    requires Inv(c, s) && i < |s.calls| && CallOk(c, s.exchanges, s.calls[i].(phase := p))
    ensures Inv(c, SetPhase(s, i, p))
  {
  }

  lemma HitKeeps(c: Config, s: State, i: nat)
    requires Inv(c, s) && i < |s.calls| && Fresh(s, s.calls[i].key, s.calls[i].now)
    ensures Inv(c, LookedUp(s, i))
  {
  }

  lemma PurgeKeeps(c: Config, s: State, k: Key)
    requires Inv(c, s)
    ensures Inv(c, s.(entries := s.entries - {k}))
  {
  }

  lemma LeadKeeps(c: Config, s: State, i: nat)
    requires Inv(c, s) && i < |s.calls| && s.calls[i].key !in s.inFlight
    ensures Inv(c, SetPhase(s, i, Leading(|s.exchanges|)).(
      inFlight := s.inFlight[s.calls[i].key := |s.exchanges|],
      exchanges := s.exchanges + [Exchange(s.calls[i].key, Asking, false, 0)]))
  {
  }

  lemma LookupKeeps(c: Config, s: State, i: nat)
    requires Inv(c, s) && i < |s.calls|
    ensures Inv(c, LookedUp(s, i))
  {
    var k := s.calls[i].key;
    if Fresh(s, k, s.calls[i].now) {
      HitKeeps(c, s, i);
    } else {
      PurgeKeeps(c, s, k);
      var t := if s.closed then s else s.(entries := s.entries - {k});
      if k in s.inFlight {
        PhaseKeeps(c, t, i, Waiting(s.inFlight[k]));
      } else {
        LeadKeeps(c, t, i);
      }
    }
  }

  /** Moving one exchange on keeps the calls and entries. */
  lemma MoveKeeps(c: Config, s: State, x: nat, y: Exchange)
    requires Inv(c, s) && x < |s.exchanges| && y.key == s.exchanges[x].key
    requires s.exchanges[x].stage != Asking ==>
      y.stage != Asking && y.allowed == s.exchanges[x].allowed && y.finishedAt == s.exchanges[x].finishedAt
    ensures Entries(c, s.(exchanges := s.exchanges[x := y])) && Calls(c, s.(exchanges := s.exchanges[x := y]))
    ensures IsListed(y.stage) == IsListed(s.exchanges[x].stage) ==> Inv(c, s.(exchanges := s.exchanges[x := y]))
  {
    var ys := s.exchanges[x := y];
    GrowsKeepsCalls(c, s.exchanges, ys, s.calls);
    GrowsKeepsEntries(c, s.exchanges, ys, s.entries);
  }

  lemma PutKeeps(c: Config, s: State, k: Key, e: Entry)
    requires Inv(c, s) && !s.closed && |s.entries| < c.max && EntryOk(c, s.exchanges, k, e)
    ensures Inv(c, s.(entries := s.entries[k := e]))
  {
  }

  lemma EvictKeeps(c: Config, s: State, victim: Option<Key>)
    requires Inv(c, s) && c.max >= 1 && !s.closed && VictimOk(c, s, victim)
    ensures
      var t := if victim.Some? then s.(entries := s.entries - {victim.value}) else s;
      Inv(c, t) && |t.entries| < c.max
  {
  }

  lemma StoreKeeps(c: Config, s: State, x: nat, victim: Option<Key>)
    requires Inv(c, s) && c.max >= 1 && Enabled(c, s, Store(x, victim))
    ensures Inv(c, Apply(c, s, Store(x, victim)))
  {
    if s.closed {
      MoveKeeps(c, s, x, s.exchanges[x].(stage := Stored));
    } else {
      EvictKeeps(c, s, victim);
      var t := if victim.Some? then s.(entries := s.entries - {victim.value}) else s;
      PutKeeps(c, t, s.exchanges[x].key, NewEntry(c, s, x));
      MoveKeeps(c, t.(entries := t.entries[s.exchanges[x].key := NewEntry(c, s, x)]), x,
        s.exchanges[x].(stage := Stored));
    }
  }

  lemma UnlistKeeps(c: Config, s: State, x: nat)
    requires Inv(c, s) && StageIs(s, x, Stored)
    ensures Inv(c, Apply(c, s, Unlist(x)))
  {
    MoveKeeps(c, s, x, s.exchanges[x].(stage := Unlisted));
  }

  lemma StepKeeps(c: Config, s: State, e: Event)
    requires Inv(c, s) && c.max >= 1
    ensures Inv(c, Step(c, s, e))
  {
    if Enabled(c, s, e) {
      match e {
        case Begin(k) =>
        case Lookup(i) => LookupKeeps(c, s, i);
        case Answer(x, allowed) =>
          MoveKeeps(c, s, x, s.exchanges[x].(stage := Told, allowed := allowed, finishedAt := s.clock));
        case Store(x, victim) => StoreKeeps(c, s, x, victim);
        case Unlist(x) => UnlistKeeps(c, s, x);
        case Wake(x) => MoveKeeps(c, s, x, s.exchanges[x].(stage := Done));
        case Return(i) =>
          assert CallOk(c, s.exchanges, s.calls[i]);
          var x := s.calls[i].phase.exchange;
          var source := if s.calls[i].phase.Leading? then Led(x) else Joined(x);
          PhaseKeeps(c, s, i, Returned(s.exchanges[x].allowed, source));
        case Quit(i) => PhaseKeeps(c, s, i, Returned(false, GaveUp));
        case Invalidate =>
        case CloseCache =>
        case Tick =>
      }
    }
  }

  lemma {:induction false} ExecKeeps(c: Config, es: seq<Event>)
    requires c.max >= 1
    ensures Inv(c, Exec(c, es))
  {
    if es != [] {
      ExecKeeps(c, es[..|es| - 1]);
      StepKeeps(c, Exec(c, es[..|es| - 1]), es[|es| - 1]);
    }
  }

  // ---------------------------------------------------------------------------
  // What holds on every run
  // ---------------------------------------------------------------------------

  /** The state before event i of the run. */
  function At(c: Config, es: seq<Event>, i: nat): State
    requires i <= |es|
  {
    Exec(c, es[..i])
  }

  lemma {:induction false} Next(c: Config, es: seq<Event>, n: nat)
    requires n < |es|
    ensures At(c, es, n + 1) == Step(c, At(c, es, n), es[n])
  {
    assert es[..n + 1][..n] == es[..n];
  }

  /** Event j is call i looking its key up. */
  predicate LookedUpAt(c: Config, es: seq<Event>, i: nat, k: Key, now: int, j: nat) {
    && j < |es| && es[j] == Lookup(i) && i < |At(c, es, j).calls|
    && At(c, es, j).calls[i].key == k && At(c, es, j).calls[i].now == now
  }

  /** What the lookup found says where the answer comes from: an entry, nothing, or an exchange in flight. */
  predicate FoundAt(c: Config, es: seq<Event>, k: Key, now: int, source: Source, j: nat) {
    j <= |es| &&
    var s := At(c, es, j);
    match source
    case Hit(x) => Fresh(s, k, now) && s.entries[k].exchange == x
    case Led(x) => !Fresh(s, k, now) && k !in s.inFlight && x == |s.exchanges|
    case Joined(x) =>
      && !Fresh(s, k, now) && k in s.inFlight && s.inFlight[k] == x
      && x < |s.exchanges| && IsListed(s.exchanges[x].stage)
    case GaveUp => !Fresh(s, k, now) && k in s.inFlight
  }

  ghost predicate Found(c: Config, es: seq<Event>, n: nat, i: nat, k: Key, now: int, source: Source) {
    n <= |es| && exists j :: 0 <= j < n && LookedUpAt(c, es, i, k, now, j) && FoundAt(c, es, k, now, source, j)
  }

  ghost predicate CallFound(c: Config, es: seq<Event>, n: nat, i: nat, v: Call) {
    match v.phase
    case Started => true
    case Leading(x) => Found(c, es, n, i, v.key, v.now, Led(x))
    case Waiting(x) => Found(c, es, n, i, v.key, v.now, Joined(x))
    case Returned(_, source) => Found(c, es, n, i, v.key, v.now, source)
  }

  lemma {:induction false} FindingLasts(c: Config, es: seq<Event>, n: nat, i: nat, v: Call)
    requires n < |es| && CallFound(c, es, n, i, v)
    ensures CallFound(c, es, n + 1, i, v)
  {
  }

  /** The lookup of call i finds what its new phase says. */
  lemma {:induction false} LookupFinds(c: Config, es: seq<Event>, n: nat, i: nat)
    requires n < |es| && es[n] == Lookup(i) && Enabled(c, At(c, es, n), es[n]) && Listing(At(c, es, n))
    ensures CallFound(c, es, n + 1, i, LookedUp(At(c, es, n), i).calls[i])
  {
    var s := At(c, es, n);
    var k, now := s.calls[i].key, s.calls[i].now;
    assert LookedUpAt(c, es, i, k, now, n);
    if Fresh(s, k, now) {
      assert FoundAt(c, es, k, now, Hit(s.entries[k].exchange), n);
    } else if k in s.inFlight {
      assert FoundAt(c, es, k, now, Joined(s.inFlight[k]), n);
    } else {
      assert FoundAt(c, es, k, now, Led(|s.exchanges|), n);
    }
  }

  lemma {:induction false} QuitFinds(c: Config, es: seq<Event>, n: nat, i: nat, v: Call)
    requires n < |es| && v.phase.Waiting? && CallFound(c, es, n, i, v)
    ensures Found(c, es, n + 1, i, v.key, v.now, GaveUp)
  {
    var j :| 0 <= j < n && LookedUpAt(c, es, i, v.key, v.now, j) &&
      FoundAt(c, es, v.key, v.now, Joined(v.phase.exchange), j);
    assert FoundAt(c, es, v.key, v.now, GaveUp, j);
  }

  lemma {:induction false} CallStep(c: Config, es: seq<Event>, n: nat, i: nat)
    requires n < |es| && Listing(At(c, es, n)) && i < |At(c, es, n).calls|
    requires CallFound(c, es, n, i, At(c, es, n).calls[i])
    ensures i < |Step(c, At(c, es, n), es[n]).calls|
    ensures CallFound(c, es, n + 1, i, Step(c, At(c, es, n), es[n]).calls[i])
  {
    var s := At(c, es, n);
    FindingLasts(c, es, n, i, s.calls[i]);
    if Enabled(c, s, es[n]) {
      if es[n] == Lookup(i) {
        LookupFinds(c, es, n, i);
      } else if es[n] == Quit(i) {
        QuitFinds(c, es, n, i, s.calls[i]);
      }
    }
  }

  lemma {:induction false} CallsFound(c: Config, es: seq<Event>, n: nat)
    requires c.max >= 1 && n <= |es|
    ensures forall i :: 0 <= i < |At(c, es, n).calls| ==> CallFound(c, es, n, i, At(c, es, n).calls[i])
  {
    if n > 0 {
      var m := n - 1;
      CallsFound(c, es, m);
      ExecKeeps(c, es[..m]);
      Next(c, es, m);
      var s, t := At(c, es, m), At(c, es, n);
      forall i | 0 <= i < |t.calls| ensures CallFound(c, es, n, i, t.calls[i]) {
        if i < |s.calls| {
          CallStep(c, es, m, i);
        } else {
          NewCallsStart(c, s, es[m], i);
        }
      }
    }
  }

  lemma NewCallsStart(c: Config, s: State, e: Event, i: nat)
    requires |s.calls| <= i < |Step(c, s, e).calls|
    ensures Step(c, s, e).calls[i].phase == Started
  {
  }

  /**
   * Every answer given for a key is that of one exchange about that key: one that had finished within its
   * polarity's time to live when the call looked it up, the call's own, or one that was in flight when the
   * call joined it; or the call gave up waiting for one in flight.
   */
  lemma {:induction false} AnswersAreTheRemotes(c: Config, es: seq<Event>, i: nat)
    requires c.max >= 1 && i < |Exec(c, es).calls| && Exec(c, es).calls[i].phase.Returned?
    ensures
      var s := Exec(c, es);
      var v := s.calls[i];
      && Justified(c, s.exchanges, v.key, v.now, v.phase.answer, v.phase.source)
      && Found(c, es, |es|, i, v.key, v.now, v.phase.source)
  {
    ExecKeeps(c, es);
    CallsFound(c, es, |es|);
    assert es[..|es|] == es;
    var s := At(c, es, |es|);
    assert s == Exec(c, es);
    assert CallOk(c, s.exchanges, s.calls[i]) && CallFound(c, es, |es|, i, s.calls[i]);
  }

  /** Before the cache closes, no key has two exchanges in flight. */
  lemma {:induction false} SingleFlight(c: Config, es: seq<Event>, x: nat, y: nat)
    requires c.max >= 1 && !Exec(c, es).closed && x < |Exec(c, es).exchanges| && y < |Exec(c, es).exchanges|
    requires IsListed(Exec(c, es).exchanges[x].stage) && IsListed(Exec(c, es).exchanges[y].stage)
    requires Exec(c, es).exchanges[x].key == Exec(c, es).exchanges[y].key
    ensures x == y
  {
    ExecKeeps(c, es);
  }

  lemma {:induction false} EntriesBounded(c: Config, es: seq<Event>)
    requires c.max >= 1
    ensures |Exec(c, es).entries| <= c.max
  {
    ExecKeeps(c, es);
  }

  function Extend(es: seq<Event>, e: Event): seq<Event> {
    es + [e]
  }

  lemma {:induction false} ExtendSteps(c: Config, es: seq<Event>, e: Event)
    ensures Exec(c, Extend(es, e)) == Step(c, Exec(c, es), e)
  {
  }

  /** Closing forgets what is in flight, so a later call for the same key starts a second exchange beside it. */
  lemma SecondFlightAfterClose(c: Config) returns (es: seq<Event>)
    ensures
      var xs := Exec(c, es).exchanges;
      |xs| == 2 && xs[0].key == xs[1].key && IsListed(xs[0].stage) && IsListed(xs[1].stage)
  {
    var k: Key := "k";
    es := Extend([], Begin(k));
    ExtendSteps(c, [], Begin(k));
    ExtendSteps(c, es, Lookup(0));
    es := Extend(es, Lookup(0));
    assert Exec(c, es).exchanges == [Exchange(k, Asking, false, 0)];
    ExtendSteps(c, es, CloseCache);
    es := Extend(es, CloseCache);
    ExtendSteps(c, es, Begin(k));
    es := Extend(es, Begin(k));
    assert |Exec(c, es).calls| == 2 && Exec(c, es).calls[1] == Call(k, 0, Started);
    ExtendSteps(c, es, Lookup(1));
    es := Extend(es, Lookup(1));
  }

  // ---------------------------------------------------------------------------
  // The cache's own methods
  // ---------------------------------------------------------------------------

  /** One pass in any order finds a least recently accessed entry. */
  method FindOldest(entries: map<Key, Entry>) returns (r: Option<Key>)
    ensures r.None? <==> entries == map[]
    ensures r.Some? ==> IsOldest(entries, r.value)
  {
    var oldestKey: string, oldest := "", 0;
    var todo := entries.Keys;
    while todo != {}
      invariant todo <= entries.Keys
      invariant oldestKey == "" <==> todo == entries.Keys
      invariant oldestKey != "" ==> oldestKey in entries && entries[oldestKey].lastAccess == oldest
      invariant oldestKey != "" ==> forall j :: j in entries && j !in todo ==> oldest <= entries[j].lastAccess
      decreases |todo|
    {
      var k :| k in todo;
      if oldestKey == "" || entries[k].lastAccess < oldest {
        oldestKey, oldest := k, entries[k].lastAccess;
      }
      todo := todo - {k};
    }
    if oldestKey == "" {
      return None;
    }
    return Some(oldestKey);
  }

  /** The cache, and beside it the exchanges and calls that use it. */
  class RemoteValidationCache {
    const config: Config
    var entries: map<Key, Entry>
    var inFlight: map<Key, nat>
    var closed: bool
    var exchanges: seq<Exchange>
    var calls: seq<Call>
    var clock: int

    ghost function View(): State
      reads this
    {
      State(entries, inFlight, exchanges, calls, closed, clock)
    }

    ghost predicate Valid()
      reads this
    {
      config.max >= 1 && |entries| <= config.max && (closed ==> entries == map[])
    }

    /** Times to live and a maximum that are not positive become their defaults; times are in seconds. */
    constructor (positiveTtl: int, negativeTtl: int, maxEntries: int)
      ensures Valid() && View() == Init() && config.max as int == (if maxEntries <= 0 then 10000 else maxEntries)
      ensures config.positiveTtl as int == if positiveTtl <= 0 then 15 else positiveTtl
      ensures config.negativeTtl as int == if negativeTtl <= 0 then 2 else negativeTtl
    {
      config := Config(
        if positiveTtl <= 0 then 15 else positiveTtl, if negativeTtl <= 0 then 2 else negativeTtl,
        if maxEntries <= 0 then 10000 else maxEntries);
      entries, inFlight, closed, exchanges, calls, clock := map[], map[], false, [], [], 0;
    }

    /** A hit exactly when the entry has not expired at now; it becomes the most recently accessed. A miss drops it. */
    method Lookup(k: Key, now: int) returns (r: Option<Entry>)
      requires Valid()
      modifies this`entries
      ensures Valid()
      ensures r.Some? <==> !closed && k in old(entries) && now <= old(entries)[k].expiresAt
      ensures r.Some? ==> r.value == old(entries)[k].(lastAccess := now) && entries == old(entries)[k := r.value]
      ensures r.None? ==> entries == if closed then old(entries) else old(entries) - {k}
    {
      if closed {
        return None;
      }
      if k !in entries || now > entries[k].expiresAt {
        SmallerTable(entries, k);
        entries := entries - {k};
        return None;
      }
      var entry := entries[k].(lastAccess := now);
      assert entries[k := entry].Keys == entries.Keys;
      entries := entries[k := entry];
      return Some(entry);
    }

    /** The section at the head of Validate: answer from the cache, join the exchange in flight, or lead a new one. */
    method BeginValidation(i: nat)
      requires Valid() && i < |calls| && calls[i].phase == Started
      modifies this
      ensures Valid() && View() == Step(config, old(View()), Event.Lookup(i))
    {
      var k, now := calls[i].key, calls[i].now;
      var entry := Lookup(k, now);
      if entry.Some? {
        SetCall(i, Returned(entry.value.allowed, Hit(entry.value.exchange)));
        return;
      }
      if k in inFlight {
        SetCall(i, Waiting(inFlight[k]));
        return;
      }
      SetCall(i, Leading(|exchanges|));
      inFlight := inFlight[k := |exchanges|];
      exchanges := exchanges + [Exchange(k, Asking, false, 0)];
    }

    method SetCall(i: nat, p: Phase)
      requires i < |calls|
      modifies this`calls
      ensures calls == old(calls)[i := old(calls)[i].(phase := p)]
    {
      calls := calls[i := calls[i].(phase := p)];
    }

    /** A full table first gives up a least recently accessed entry, even when k is already there. */
    method Store(k: Key, e: Entry) returns (victim: Option<Key>)
      requires Valid()
      modifies this`entries
      ensures Valid() && VictimOk(config, old(View()), victim)
      ensures closed ==> entries == old(entries)
      ensures !closed ==> entries == (if victim.Some? then old(entries) - {victim.value} else old(entries))[k := e]
    {
      victim := None;
      if closed {
        return;
      }
      if |entries| >= config.max {
        victim := FindOldest(entries);
        if victim.Some? {
          SmallerTable(entries, victim.value);
          entries := entries - {victim.value};
        }
      }
      assert entries[k := e].Keys == entries.Keys + {k};
      entries := entries[k := e];
    }

    /** The leader stores the answer of its exchange, kept for its polarity's time to live. */
    method StoreAnswer(x: nat)
      requires Valid() && StageIs(View(), x, Told)
      modifies this`entries, this`exchanges
      ensures Valid()
      ensures exists victim :: Enabled(config, old(View()), Event.Store(x, victim)) &&
                View() == Step(config, old(View()), Event.Store(x, victim))
    {
      ghost var s := View();
      var e := exchanges[x];
      var victim := Store(e.key, Entry(e.allowed, x, e.finishedAt + Ttl(config, e.allowed), e.finishedAt));
      exchanges := exchanges[x := e.(stage := Stored)];
      assert Enabled(config, s, Event.Store(x, victim)) && View() == Step(config, s, Event.Store(x, victim));
    }

    /** The exchange leaves the in-flight table, whichever exchange is listed under its key. */
    method UnlistExchange(x: nat)
      requires StageIs(View(), x, Stored)
      modifies this`inFlight, this`exchanges
      ensures View() == Step(config, old(View()), Unlist(x))
    {
      inFlight := inFlight - {exchanges[x].key};
      exchanges := exchanges[x := exchanges[x].(stage := Unlisted)];
    }
  }
}
