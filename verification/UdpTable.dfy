/**
 * The UDP association table: one tunnel stream per local source, a bounded table, eviction
 * of the least recently used source, expiry, and readers that clean up after themselves.
 * Events are the sections under the manager's mutex and the steps between them.
 */
module UdpTable {
  import opened Wrappers

  type Key = string

  datatype Association = Association(key: Key, lastUsed: int)

  /**
   * Every stream ever opened is an index into streams. fresh ones were opened by a handler that has
   * not reached the table yet, doomed ones are in the hands of a step that will close them.
   */
  datatype State = State(
    items: map<Key, nat>, streams: seq<Association>, held: set<nat>, doomed: set<nat>, shut: set<nat>,
    closed: bool, clock: int)

  datatype Event =
    | Opened(key: Key)
    | Insert(id: nat, victim: Option<Key>)
    | CloseStream(id: nat)
    | Touch(id: nat)
    | ReadFails(id: nat)
    | Expire(now: int)
    | CloseTable
    | Tick

  datatype Limits = Limits(max: nat, idle: int)

  function Init(): State {
    State(map[], [], {}, {}, {}, false, 0)
  }

  function Used(s: State, k: Key): int {
    if k in s.items && s.items[k] < |s.streams| then s.streams[s.items[k]].lastUsed else 0
  }

  /** k has gone unused the longest, and strictly longer than some other source. */
  predicate IsEvictable(s: State, k: Key) {
    && k in s.items
    && (forall j :: j in s.items ==> Used(s, k) <= Used(s, j))
    && (exists j :: j in s.items && Used(s, k) < Used(s, j))
  }

  predicate AllAlike(s: State) {
    forall j, k :: j in s.items && k in s.items ==> Used(s, j) == Used(s, k)
  }

  predicate Idle(l: Limits, s: State, now: int, k: Key) {
    now - Used(s, k) >= l.idle
  }

  predicate IsFull(l: Limits, s: State) {
    |s.items| >= l.max
  }

  /** The victim is chosen just when the table is full, has no entry for the source and is not shut. */
  predicate VictimOk(l: Limits, s: State, id: nat, victim: Option<Key>) {
    if id < |s.streams| && !s.closed && s.streams[id].key !in s.items && IsFull(l, s)
    then (match victim case Some(k) => IsEvictable(s, k) case None => AllAlike(s))
    else victim == None
  }

  predicate Enabled(l: Limits, s: State, e: Event) {
    match e
    case Opened(_) => true
    case Insert(id, victim) => id in s.held && id < |s.streams| && VictimOk(l, s, id, victim)
    case CloseStream(id) => id in s.doomed
    case Touch(id) => id < |s.streams|
    case ReadFails(id) => id < |s.streams| && id !in s.held
    case Expire(_) => true
    case CloseTable => true
    case Tick => true
  }

  function Values(s: State, gone: set<Key>): set<nat>
    requires gone <= s.items.Keys
  {
    set k | k in gone :: s.items[k]
  }

  function Doom(s: State, id: nat): State {
    s.(held := s.held - {id}, doomed := s.doomed + {id})
  }

  function Drop(s: State, gone: set<Key>): State
    requires gone <= s.items.Keys
  {
    s.(items := s.items - gone, doomed := s.doomed + Values(s, gone))
  }

  function Put(s: State, id: nat): State
    requires id < |s.streams|
  {
    s.(items := s.items[s.streams[id].key := id], held := s.held - {id})
  }

  function Inserted(l: Limits, s: State, id: nat, victim: Option<Key>): State
    requires id < |s.streams| && (victim.Some? ==> victim.value in s.items)
  {
    if s.closed || s.streams[id].key in s.items then Doom(s, id)
    else if IsFull(l, s) then (if victim == None then Doom(s, id) else Put(Drop(s, {victim.value}), id))
    else Put(s, id)
  }

  function Expired(l: Limits, s: State, now: int): set<Key> {
    set k | k in s.items && Idle(l, s, now, k)
  }

  function Apply(l: Limits, s: State, e: Event): State
    requires Enabled(l, s, e)
  {
    match e
    case Opened(key) => s.(streams := s.streams + [Association(key, s.clock)], held := s.held + {|s.streams|})
    case Insert(id, victim) => Inserted(l, s, id, victim)
    case CloseStream(id) => s.(doomed := s.doomed - {id}, shut := s.shut + {id})
    case Touch(id) => s.(streams := s.streams[id := s.streams[id].(lastUsed := s.clock)])
    case ReadFails(id) =>
      var k := s.streams[id].key;
      if k in s.items && s.items[k] == id then Drop(s, {k}) else s.(doomed := s.doomed + {id})
    case Expire(now) => Drop(s, Expired(l, s, now))
    case CloseTable => Drop(s, s.items.Keys).(closed := true)
    case Tick => s.(clock := s.clock + 1)
  }

  function Step(l: Limits, s: State, e: Event): State {
    if Enabled(l, s, e) then Apply(l, s, e) else s
  }

  function Exec(l: Limits, es: seq<Event>): State {
    if es == [] then Init() else Step(l, Exec(l, es[..|es| - 1]), es[|es| - 1])
  }

  // ---------------------------------------------------------------------------
  // The invariant
  // ---------------------------------------------------------------------------

  /** The entry of source k is k's own live stream. */
  predicate EntryOk(s: State, k: Key) {
    k in s.items &&
    var id := s.items[k];
    && id < |s.streams| && s.streams[id].key == k
    && id !in s.held && id !in s.doomed && id !in s.shut
  }

  predicate InTable(s: State, id: nat) {
    id < |s.streams| && s.streams[id].key in s.items && s.items[s.streams[id].key] == id
  }

  /** A stream is in a handler's hands, in the table, about to be closed, or closed. */
  predicate Accounted(s: State, id: nat) {
    id in s.held || InTable(s, id) || id in s.doomed || id in s.shut
  }

  predicate Inv(l: Limits, s: State) {
    && |s.items| <= l.max
    && (forall k :: k in s.items ==> EntryOk(s, k))
    && (forall id :: 0 <= id < |s.streams| ==> Accounted(s, id))
    && (forall id :: id in s.held ==> id < |s.streams| && id !in s.doomed && id !in s.shut)
    && (forall id :: id in s.doomed ==> id < |s.streams|)
    && (forall id :: id in s.shut ==> id < |s.streams|)
    && (s.closed ==> s.items == map[])
  }

  lemma DropKeeps(l: Limits, s: State, gone: set<Key>)
    requires Inv(l, s) && gone <= s.items.Keys
    ensures Inv(l, Drop(s, gone)) && |Drop(s, gone).items| == |s.items| - |gone|
  {
    var t := Drop(s, gone);
    assert t.items.Keys == s.items.Keys - gone;
    forall k | k in t.items ensures EntryOk(t, k) {
      assert EntryOk(s, k);
      forall j | j in gone ensures s.items[j] != s.items[k] {
        assert EntryOk(s, j);
      }
    }
    forall id | 0 <= id < |t.streams| ensures Accounted(t, id) {
      assert Accounted(s, id);
      var k := s.streams[id].key;
      if InTable(s, id) && k in gone {
        assert s.items[k] in Values(s, gone);
      }
    }
    forall id | id in Values(s, gone) ensures id < |t.streams| && id !in t.held {
      var k :| k in gone && s.items[k] == id;
      assert EntryOk(s, k);
    }
  }

  lemma PutKeeps(l: Limits, s: State, id: nat)
    requires Inv(l, s) && id in s.held && !s.closed && s.streams[id].key !in s.items && |s.items| < l.max
    ensures Inv(l, Put(s, id))
  {
    var t := Put(s, id);
    assert t.items.Keys == s.items.Keys + {s.streams[id].key};
    forall k | k in t.items ensures EntryOk(t, k) {
      assert k in s.items ==> EntryOk(s, k);
    }
    forall i | 0 <= i < |t.streams| ensures Accounted(t, i) {
      assert Accounted(s, i);
    }
  }

  lemma DoomKeeps(l: Limits, s: State, id: nat)
    requires Inv(l, s) && id < |s.streams| && !InTable(s, id)
    ensures Inv(l, Doom(s, id))
  {
    var t := Doom(s, id);
    forall k | k in t.items ensures EntryOk(t, k) {
      assert EntryOk(s, k);
    }
    forall i | 0 <= i < |t.streams| ensures Accounted(t, i) {
      assert Accounted(s, i);
    }
  }

  lemma InsertKeeps(l: Limits, s: State, id: nat, victim: Option<Key>)
    requires Inv(l, s) && id in s.held && VictimOk(l, s, id, victim) && l.max >= 1
    ensures victim.Some? ==> victim.value in s.items
    ensures Inv(l, Inserted(l, s, id, victim))
  {
    assert !InTable(s, id) by {
      var k := s.streams[id].key;
      assert k in s.items ==> EntryOk(s, k);
    }
    if s.closed || s.streams[id].key in s.items || (IsFull(l, s) && victim == None) {
      DoomKeeps(l, s, id);
    } else if IsFull(l, s) {
      DropKeeps(l, s, {victim.value});
      PutKeeps(l, Drop(s, {victim.value}), id);
    } else {
      PutKeeps(l, s, id);
    }
  }

  lemma ReadFailsKeeps(l: Limits, s: State, id: nat)
    requires Inv(l, s) && id < |s.streams| && id !in s.held
    ensures Inv(l, Apply(l, s, ReadFails(id)))
  {
    if InTable(s, id) {
      DropKeeps(l, s, {s.streams[id].key});
    } else {
      DoomKeeps(l, s, id);
      assert s.held - {id} == s.held;
    }
  }

  lemma LocalKeeps(l: Limits, s: State, e: Event)
    requires Inv(l, s) && Enabled(l, s, e) && (e.Opened? || e.CloseStream? || e.Touch? || e.Tick?)
    ensures Inv(l, Apply(l, s, e))
  {
    var t := Apply(l, s, e);
    forall k | k in t.items ensures EntryOk(t, k) {
      assert EntryOk(s, k);
    }
    forall i | 0 <= i < |t.streams| ensures Accounted(t, i) {
      assert i < |s.streams| ==> Accounted(s, i);
    }
  }

  lemma CloseKeeps(l: Limits, s: State)
    requires Inv(l, s)
    ensures Inv(l, Drop(s, s.items.Keys).(closed := true))
  {
    DropKeeps(l, s, s.items.Keys);
    var d := Drop(s, s.items.Keys);
    var t := d.(closed := true);
    assert t.items == map[];
    forall i | 0 <= i < |t.streams| ensures Accounted(t, i) {
      assert Accounted(d, i);
    }
  }

  lemma StepKeeps(l: Limits, s: State, e: Event)
    requires Inv(l, s) && l.max >= 1
    ensures Inv(l, Step(l, s, e))
  {
    if Enabled(l, s, e) {
      match e {
        case Insert(id, victim) => InsertKeeps(l, s, id, victim);
        case ReadFails(id) => ReadFailsKeeps(l, s, id);
        case Expire(now) => DropKeeps(l, s, Expired(l, s, now));
        case CloseTable => CloseKeeps(l, s);
        case _ => LocalKeeps(l, s, e);
      }
    }
  }

  lemma {:induction false} ExecKeeps(l: Limits, es: seq<Event>)
    requires l.max >= 1
    ensures Inv(l, Exec(l, es))
  {
    if es != [] {
      ExecKeeps(l, es[..|es| - 1]);
      StepKeeps(l, Exec(l, es[..|es| - 1]), es[|es| - 1]);
    }
  }

  // ---------------------------------------------------------------------------
  // What holds on every run
  // ---------------------------------------------------------------------------

  /** The table never outgrows its limit, and every entry is its own source's open stream. */
  lemma {:induction false} TableIsBounded(l: Limits, es: seq<Event>)
    requires l.max >= 1
    ensures |Exec(l, es).items| <= l.max
    ensures forall k :: k in Exec(l, es).items ==> EntryOk(Exec(l, es), k)
  {
    ExecKeeps(l, es);
  }

  /** No stream leaks: each one is in a handler's hands, in the table, about to be closed, or closed. */
  lemma {:induction false} EveryStreamAccounted(l: Limits, es: seq<Event>, id: nat)
    requires l.max >= 1 && id < |Exec(l, es).streams|
    ensures Accounted(Exec(l, es), id)
  {
    ExecKeeps(l, es);
  }

  /** Once the table is closed and every step in progress has finished, every stream ever opened is closed. */
  lemma {:induction false} ClosedMeansAllClosed(l: Limits, es: seq<Event>, id: nat)
    requires l.max >= 1 && id < |Exec(l, es).streams|
    requires Exec(l, es).closed && Exec(l, es).held == {} && Exec(l, es).doomed == {}
    ensures id in Exec(l, es).shut
  {
    ExecKeeps(l, es);
    assert Accounted(Exec(l, es), id);
  }

  /** After the close the table stays empty whatever happens next. */
  lemma {:induction false} ClosedStaysEmpty(l: Limits, es: seq<Event>, more: seq<Event>)
    requires l.max >= 1 && Exec(l, es).closed
    ensures Exec(l, es + more).closed && Exec(l, es + more).items == map[]
  {
    ExecKeeps(l, es + more);
    if more == [] {
      assert es + more == es;
    } else {
      var n := |more| - 1;
      ClosedStaysEmpty(l, es, more[..n]);
      assert (es + more)[..|es + more| - 1] == es + more[..n];
    }
  }

  // ---------------------------------------------------------------------------
  // The life of a stream
  // ---------------------------------------------------------------------------

  /** The state before event i of the run. */
  function At(l: Limits, es: seq<Event>, i: nat): State
    requires i <= |es|
  {
    Exec(l, es[..i])
  }

  lemma {:induction false} Next(l: Limits, es: seq<Event>, n: nat)
    requires n < |es|
    ensures At(l, es, n + 1) == Step(l, At(l, es, n), es[n])
  {
    assert es[..n + 1][..n] == es[..n];
  }

  /** Event e takes stream id out of the table of s, and what entitles it to. */
  predicate Cause(l: Limits, s: State, e: Event, id: nat) {
    && id < |s.streams|
    && (|| e == ReadFails(id)
        || (e.Expire? && e.now - s.streams[id].lastUsed >= l.idle)
        || e == CloseTable
        || (e.Insert? && e.id != id && e.victim == Some(s.streams[id].key) && IsEvictable(s, s.streams[id].key)))
  }

  /** Why a freshly opened stream may be turned away: no table, no need, or no room. */
  predicate Unwanted(l: Limits, s: State, id: nat) {
    id < |s.streams| && (s.closed || s.streams[id].key in s.items || (IsFull(l, s) && AllAlike(s)))
  }

  predicate IsInsertOf(e: Event, id: nat) {
    e.Insert? && e.id == id
  }

  /** Event i is the handler of stream id turning it away. */
  predicate TurnedAwayAt(l: Limits, es: seq<Event>, id: nat, i: nat) {
    i < |es| && IsInsertOf(es[i], id) && Unwanted(l, At(l, es, i), id)
  }

  /** Event j takes stream id out of the table. */
  predicate TakenOutAt(l: Limits, es: seq<Event>, id: nat, j: nat) {
    j < |es| && Cause(l, At(l, es, j), es[j], id)
  }

  /** In the first n states stream id is in the table from after event i up to before event j, and at no other time. */
  predicate Stays(l: Limits, es: seq<Event>, n: nat, id: nat, i: int, j: int) {
    n <= |es| && forall k :: 0 <= k <= n ==> (InTable(At(l, es, k), id) <==> Within(k, i, j))
  }

  predicate Within(k: int, i: int, j: int) {
    i < k <= j
  }

  ghost predicate TurnedAway(l: Limits, es: seq<Event>, n: nat, id: nat) {
    Stays(l, es, n, id, n, n) && exists i :: 0 <= i < n && TurnedAwayAt(l, es, id, i)
  }

  ghost predicate CameAndStayed(l: Limits, es: seq<Event>, n: nat, id: nat) {
    n <= |es| && exists i :: 0 <= i < n && IsInsertOf(es[i], id) && Stays(l, es, n, id, i, n)
  }

  ghost predicate CameAndWent(l: Limits, es: seq<Event>, n: nat, id: nat) {
    n <= |es| && exists i, j ::
      0 <= i < j < n && IsInsertOf(es[i], id) && TakenOutAt(l, es, id, j) && Stays(l, es, n, id, i, j)
  }

  /** Where stream id stands after n events, with how it came to be there. */
  ghost predicate Life(l: Limits, es: seq<Event>, n: nat, id: nat) {
    n <= |es| &&
    var s := At(l, es, n);
    if id >= |s.streams| || id in s.held then Stays(l, es, n, id, n, n)
    else if InTable(s, id) then CameAndStayed(l, es, n, id)
    else TurnedAway(l, es, n, id) || CameAndWent(l, es, n, id)
  }

  /** A stream not yet opened, or in its handler's hands, is not in the table. */
  lemma NotYetIn(l: Limits, s: State, id: nat)
    requires Inv(l, s) && (id >= |s.streams| || id in s.held)
    ensures !InTable(s, id)
  {
    assert id < |s.streams| && s.streams[id].key in s.items ==> EntryOk(s, s.streams[id].key);
  }

  lemma StreamsRemain(l: Limits, s: State, e: Event, id: nat)
    requires id < |s.streams|
    ensures id < |Step(l, s, e).streams| && (id in Step(l, s, e).held ==> id in s.held)
  {
  }

  /** A held stream stays held, or its handler reaches the table, which takes it in or turns it away. */
  lemma HeldMoves(l: Limits, s: State, e: Event, id: nat)
    requires id in s.held && id < |s.streams| && id !in Step(l, s, e).held
    ensures IsInsertOf(e, id) && (InTable(Step(l, s, e), id) || Unwanted(l, s, id))
  {
  }

  /** A stream in the table stays there, or an event with a cause takes it out. */
  lemma ListedMoves(l: Limits, s: State, e: Event, id: nat)
    requires Inv(l, s) && InTable(s, id) && !InTable(Step(l, s, e), id)
    ensures Cause(l, s, e, id)
  {
    assert EntryOk(s, s.streams[id].key);
  }

  /** A stream that is neither held nor in the table never comes back. */
  lemma GoneMoves(l: Limits, s: State, e: Event, id: nat)
    requires id < |s.streams| && id !in s.held && !InTable(s, id)
    ensures !InTable(Step(l, s, e), id)
  {
  }

  /** One more state in which the stream is, or is not, in the table. */
  lemma StaysOn(l: Limits, es: seq<Event>, n: nat, id: nat, i: int, j: int, i': int, j': int)
    requires n < |es| && Stays(l, es, n, id, i, j) && (InTable(At(l, es, n + 1), id) <==> i' < n + 1 <= j')
    requires forall k: int :: 0 <= k <= n ==> (Within(k, i, j) <==> Within(k, i', j'))
    ensures Stays(l, es, n + 1, id, i', j')
  {
    forall k | 0 <= k <= n + 1 ensures InTable(At(l, es, k), id) <==> Within(k, i', j') {
      if k <= n {
        assert Within(k, i, j) <==> Within(k, i', j');
      }
    }
  }

  lemma {:induction false} StillFresh(l: Limits, es: seq<Event>, n: nat, id: nat)
    requires l.max >= 1 && n < |es| && Stays(l, es, n, id, n, n)
    requires id >= |At(l, es, n + 1).streams| || id in At(l, es, n + 1).held
    ensures Life(l, es, n + 1, id)
  {
    ExecKeeps(l, es[..n + 1]);
    NotYetIn(l, At(l, es, n + 1), id);
    StaysOn(l, es, n, id, n, n, n + 1, n + 1);
  }

  lemma {:induction false} HandedOver(l: Limits, es: seq<Event>, n: nat, id: nat)
    requires n < |es| && Stays(l, es, n, id, n, n)
    requires id < |At(l, es, n).streams| && id in At(l, es, n).held
    requires id < |At(l, es, n + 1).streams| && id !in At(l, es, n + 1).held
    ensures Life(l, es, n + 1, id)
  {
    Next(l, es, n);
    HeldMoves(l, At(l, es, n), es[n], id);
    if InTable(At(l, es, n + 1), id) {
      StaysOn(l, es, n, id, n, n, n, n + 1);
    } else {
      StaysOn(l, es, n, id, n, n, n + 1, n + 1);
      assert TurnedAwayAt(l, es, id, n);
    }
  }

  /** A stream is held as soon as it is opened. */
  lemma OpensHeld(l: Limits, s: State, e: Event, id: nat)
    requires |s.streams| <= id < |Step(l, s, e).streams|
    ensures id in Step(l, s, e).held
  {
  }

  lemma {:induction false} FreshLife(l: Limits, es: seq<Event>, n: nat, id: nat)
    requires l.max >= 1 && n < |es| && Stays(l, es, n, id, n, n)
    requires id >= |At(l, es, n).streams| || id in At(l, es, n).held
    ensures Life(l, es, n + 1, id)
  {
    Next(l, es, n);
    ExecKeeps(l, es[..n]);
    var s, t := At(l, es, n), At(l, es, n + 1);
    if id >= |t.streams| || id in t.held {
      StillFresh(l, es, n, id);
    } else {
      if id >= |s.streams| {
        OpensHeld(l, s, es[n], id);
      }
      HandedOver(l, es, n, id);
    }
  }

  lemma {:induction false} ListedLife(l: Limits, es: seq<Event>, n: nat, id: nat)
    requires l.max >= 1 && n < |es| && id !in At(l, es, n).held && InTable(At(l, es, n), id)
    requires CameAndStayed(l, es, n, id)
    ensures Life(l, es, n + 1, id)
  {
    Next(l, es, n);
    ExecKeeps(l, es[..n]);
    var s, t := At(l, es, n), At(l, es, n + 1);
    StreamsRemain(l, s, es[n], id);
    var i :| 0 <= i < n && IsInsertOf(es[i], id) && Stays(l, es, n, id, i, n);
    if InTable(t, id) {
      StaysOn(l, es, n, id, i, n, i, n + 1);
    } else {
      ListedMoves(l, s, es[n], id);
      StaysOn(l, es, n, id, i, n, i, n);
      assert TakenOutAt(l, es, id, n);
    }
  }

  lemma {:induction false} GoneLife(l: Limits, es: seq<Event>, n: nat, id: nat)
    requires n < |es| && id < |At(l, es, n).streams| && id !in At(l, es, n).held && !InTable(At(l, es, n), id)
    requires TurnedAway(l, es, n, id) || CameAndWent(l, es, n, id)
    ensures Life(l, es, n + 1, id)
  {
    Next(l, es, n);
    var s := At(l, es, n);
    StreamsRemain(l, s, es[n], id);
    GoneMoves(l, s, es[n], id);
    if TurnedAway(l, es, n, id) {
      StaysOn(l, es, n, id, n, n, n + 1, n + 1);
    } else {
      var i, j :| 0 <= i < j < n && IsInsertOf(es[i], id) && TakenOutAt(l, es, id, j) && Stays(l, es, n, id, i, j);
      StaysOn(l, es, n, id, i, j, i, j);
    }
  }

  lemma {:induction false} EveryLife(l: Limits, es: seq<Event>, n: nat, id: nat)
    requires l.max >= 1 && n <= |es|
    ensures Life(l, es, n, id)
  {
    if n > 0 {
      EveryLife(l, es, n - 1, id);
      var s := At(l, es, n - 1);
      if id >= |s.streams| || id in s.held {
        FreshLife(l, es, n - 1, id);
      } else if InTable(s, id) {
        ListedLife(l, es, n - 1, id);
      } else {
        GoneLife(l, es, n - 1, id);
      }
    }
  }

  /**
   * On every run a stream that left its handler's hands and is not in the table was either turned away by
   * the handler that opened it, and never was in the table; or came once, stayed, and was taken out once: by
   * its own reader failing, by expiry after it had been idle, by the close of the table, or evicted for
   * another stream while it was least recently used and strictly older than some entry.
   */
  lemma {:induction false} LeavesOnlyForCause(l: Limits, es: seq<Event>, id: nat)
    requires l.max >= 1 && id < |Exec(l, es).streams| && id !in Exec(l, es).held && !InTable(Exec(l, es), id)
    ensures TurnedAway(l, es, |es|, id) || CameAndWent(l, es, |es|, id)
  {
    EveryLife(l, es, |es|, id);
    assert es[..|es|] == es;
  }

  // ---------------------------------------------------------------------------
  // The manager's locked sections
  // ---------------------------------------------------------------------------

  predicate InRange(s: State) {
    forall k :: k in s.items ==> s.items[k] < |s.streams|
  }

  /** One pass in any order finds an oldest entry, unless all entries are equally recent. */
  method LeastRecentlyUsed(s: State) returns (r: Option<Key>)
    requires InRange(s)
    ensures r.Some? ==> IsEvictable(s, r.value)
    ensures r.None? <==> AllAlike(s)
  {
    var todo := s.items.Keys;
    if todo == {} {
      return None;
    }
    var oldest :| oldest in todo;
    var newest := oldest;
    todo := todo - {oldest};
    while todo != {}
      invariant todo <= s.items.Keys && oldest in s.items && newest in s.items
      invariant forall j :: j in s.items && j !in todo ==> Used(s, oldest) <= Used(s, j)
      invariant forall j :: j in s.items && j !in todo ==> Used(s, j) <= Used(s, newest)
      decreases |todo|
    {
      var k :| k in todo;
      var used := s.streams[s.items[k]].lastUsed;
      if used < s.streams[s.items[oldest]].lastUsed {
        oldest := k;
      }
      if used > s.streams[s.items[newest]].lastUsed {
        newest := k;
      }
      todo := todo - {k};
    }
    if s.streams[s.items[oldest]].lastUsed == s.streams[s.items[newest]].lastUsed {
      return None;
    }
    assert Used(s, oldest) < Used(s, newest);
    return Some(oldest);
  }

  /** Partway through a sweep: gone are the idle keys among those visited, and t is s without them. */
  ghost predicate Sweeping(l: Limits, s: State, now: int, todo: set<Key>, gone: set<Key>, t: State) {
    && todo <= s.items.Keys && gone <= s.items.Keys && gone !! todo && t == Drop(s, gone)
    && forall k :: k in s.items && k !in todo ==> (k in gone <==> Idle(l, s, now, k))
  }

  lemma SweepStarts(l: Limits, s: State, now: int)
    ensures Sweeping(l, s, now, s.items.Keys, {}, s)
  {
  }

  lemma SweepOne(l: Limits, s: State, now: int, todo: set<Key>, gone: set<Key>, t: State, k: Key)
    requires Sweeping(l, s, now, todo, gone, t) && k in todo
    ensures k in t.items && t.items[k] == s.items[k] && t.streams == s.streams
    ensures !Idle(l, s, now, k) ==> Sweeping(l, s, now, todo - {k}, gone, t)
    ensures Idle(l, s, now, k) ==>
      && |gone + {k}| == |gone| + 1
      && Sweeping(l, s, now, todo - {k}, gone + {k}, t.(items := t.items - {k}, doomed := t.doomed + {s.items[k]}))
  {
  }

  lemma SweepDone(l: Limits, s: State, now: int, gone: set<Key>, t: State)
    requires Sweeping(l, s, now, {}, gone, t)
    ensures gone == Expired(l, s, now) && t == Drop(s, Expired(l, s, now))
  {
  }

  /** One pass in any order takes out exactly the idle entries and dooms their streams. */
  method ExpireIdle(l: Limits, s: State, now: int) returns (t: State, count: nat)
    requires InRange(s)
    ensures t == Drop(s, Expired(l, s, now)) && count == |Expired(l, s, now)|
  {
    t, count := s, 0;
    var todo := s.items.Keys;
    ghost var gone: set<Key> := {};
    SweepStarts(l, s, now);
    while todo != {}
      invariant Sweeping(l, s, now, todo, gone, t) && count == |gone|
      decreases |todo|
    {
      var k :| k in todo;
      SweepOne(l, s, now, todo, gone, t, k);
      if now - t.streams[t.items[k]].lastUsed >= l.idle {
        t := t.(items := t.items - {k}, doomed := t.doomed + {t.items[k]});
        count := count + 1;
        gone := gone + {k};
      }
      todo := todo - {k};
    }
    SweepDone(l, s, now, gone, t);
  }

  lemma ChosenVictim(l: Limits, s: State, id: nat, victim: Option<Key>)
    requires Inv(l, s) && l.max >= 1 && id in s.held && VictimOk(l, s, id, victim)
    ensures Enabled(l, s, Insert(id, victim)) && Inv(l, Step(l, s, Insert(id, victim)))
    ensures victim.Some? ==> victim.value in s.items && Values(s, {victim.value}) == {s.items[victim.value]}
  {
    StepKeeps(l, s, Insert(id, victim));
  }

  lemma ExpireKeeps(l: Limits, s: State, now: int)
    requires Inv(l, s)
    ensures InRange(s) && Inv(l, Drop(s, Expired(l, s, now)))
    ensures Step(l, s, Expire(now)) == Drop(s, Expired(l, s, now))
  {
    assert forall k :: k in s.items ==> EntryOk(s, k);
    DropKeeps(l, s, Expired(l, s, now));
  }

  class UdpAssociationManager {
    const limits: Limits
    var items: map<Key, nat>
    var streams: seq<Association>
    var held: set<nat>
    var doomed: set<nat>
    var shut: set<nat>
    var closed: bool
    var clock: int

    function View(): State
      reads this
    {
      State(items, streams, held, doomed, shut, closed, clock)
    }

    ghost predicate Valid()
      reads this
    {
      limits.max >= 1 && Inv(limits, View())
    }

    constructor (max: int, idle: int)
      ensures Valid() && View() == Init()
      ensures limits == Limits(if max <= 0 then 1024 else max, if idle <= 0 then 120 else idle)
    {
      limits := Limits(if max <= 0 then 1024 else max, if idle <= 0 then 120 else idle);
      items, streams, held, doomed, shut, closed, clock := map[], [], {}, {}, {}, false, 0;
    }

    /** The handler's section after opening a stream: some least recently used entry makes room if need be. */
    method InsertFresh(id: nat) returns (kept: bool)
      requires Valid() && id in held
      modifies this
      ensures Valid()
      ensures exists victim :: Enabled(limits, old(View()), Insert(id, victim)) &&
                View() == Step(limits, old(View()), Insert(id, victim))
      ensures kept ==> InTable(View(), id)
      ensures !kept ==> id in doomed
    {
      ghost var s := View();
      var key := streams[id].key;
      var victim: Option<Key> := None;
      var refused := closed || key in items;
      if !refused && |items| >= limits.max {
        assert forall k :: k in s.items ==> EntryOk(s, k);
        victim := LeastRecentlyUsed(View());
        refused := victim == None;
      }
      ChosenVictim(limits, s, id, victim);
      if refused {
        held, doomed := held - {id}, doomed + {id};
      } else {
        if victim.Some? {
          doomed := doomed + {items[victim.value]};
          items := items - {victim.value};
        }
        items, held := items[key := id], held - {id};
      }
      assert View() == Step(limits, s, Insert(id, victim));
      return !refused;
    }

    /** Removes exactly the idle entries and reports how many there were. */
    method ExpireAt(now: int) returns (count: nat)
      requires Valid()
      modifies this`items, this`doomed
      ensures Valid() && View() == Step(limits, old(View()), Expire(now))
      ensures count == |Expired(limits, old(View()), now)|
    {
      ghost var s := View();
      ExpireKeeps(limits, s, now);
      var t;
      t, count := ExpireIdle(limits, View(), now);
      items, doomed := t.items, t.doomed;
      assert View() == t;
    }
  }
}
