/**
 * The agent's stream table: dialed connections, the goroutines that serve them and
 * the order in which they retire them. Each event is one section under the table's
 * mutex, or one step a goroutine takes outside it.
 */
module Dispatcher {

  datatype Item = Bytes | Marker

  /** Where a stream's half-close marker is. */
  datatype MarkerAt = Unsent | InHand | InQueue | InPump | Done | Refused | Discarded | Lost

  /** A goroutine that serves one stream; it retires it by removing it and then closing it. */
  datatype Thread = Absent | Busy | Marking | Finishing | MustRemove | MustClose(drain: bool) | Gone

  /** The dial worker that completes the open, the target reader and the target writer. */
  datatype Role = Dialer | Reader | Pump

  /** One dialed connection and its stream. */
  datatype Entry = Entry(
    id: nat, entered: bool, removals: nat,
    localHalf: bool, remoteHalf: bool,
    queue: seq<Item>, queueClosed: bool, marker: MarkerAt,
    connClosed: bool,
    dialer: Thread, reader: Thread, pump: Thread)
  {
    function On(r: Role): Thread {
      match r case Dialer => dialer case Reader => reader case Pump => pump
    }

    function With(r: Role, t: Thread): Entry {
      match r case Dialer => this.(dialer := t) case Reader => this.(reader := t) case Pump => this.(pump := t)
    }
  }

  /**
   * What the session's frame reader, which handles one frame at a time, is doing to one entry. A rejected
   * stream has its queue stopped and then its connection closed; a reset one the other way round.
   */
  datatype Task = Idle | Admitting | Halving | Pushing | Removing | Closing | Stopped | Resetting | Stopping

  datatype Handler = Free | Handling(g: nat, task: Task)

  datatype Closer = NotClosing | AwaitingDials | ClosingConns(todo: set<nat>) | AwaitingThreads | Returned

  datatype State = State(
    streams: map<nat, nat>, entries: map<nat, Entry>, generation: nat, closed: bool,
    dialing: nat, handler: Handler, closer: Closer)

  // ---------------------------------------------------------------------------
  // Steps that touch one entry and not the table
  // ---------------------------------------------------------------------------

  predicate HasRoom(e: Entry, bound: nat) {
    !e.queueClosed && |e.queue| < bound
  }

  /** The queue takes the marker unless it is closed or already holds its bound of frames. */
  function PushMarker(e: Entry, bound: nat): Entry {
    if e.queueClosed then e.(marker := Discarded)
    else if |e.queue| >= bound then e.(marker := Lost)
    else e.(queue := e.queue + [Marker], marker := InQueue)
  }

  /** Closes the queue and discards what it holds. */
  function StopQueue(e: Entry): Entry {
    e.(queueClosed := true, queue := [], marker := if e.marker == InQueue then Discarded else e.marker)
  }

  /** Closes the connection and the queue; a draining close keeps what is queued. */
  function CloseEntry(e: Entry, drain: bool): Entry {
    if drain then e.(queueClosed := true, connClosed := true) else StopQueue(e).(connClosed := true)
  }

  datatype Local =
    | ReplayData
    | SetupFails
    | SetupPushes
    | SetupEnds
    | WriteOk
    | WriteFails
    | TakeMarker
    | ShutFails
    | PumpExits
    | ReadFails
    | ReaderQuits
    | CloseConn(r: Role)

  predicate LocalEnabled(bound: nat, closing: bool, e: Entry, l: Local) {
    match l
    case ReplayData => e.dialer == Busy && HasRoom(e, bound)
    case SetupFails => e.dialer == Busy
    case SetupPushes => e.dialer == Marking
    case SetupEnds => e.dialer == Busy
    case WriteOk => e.pump == Busy && e.queue != [] && e.queue[0] == Bytes
    case WriteFails => e.pump == Busy && e.queue != [] && e.queue[0] == Bytes
    case TakeMarker => e.pump == Busy && e.queue != [] && e.queue[0] == Marker
    case ShutFails => e.pump == Finishing
    case PumpExits => e.pump == Busy && e.queue == [] && e.queueClosed
    case ReadFails => e.reader == Busy
    case ReaderQuits => e.reader == Busy && closing
    case CloseConn(r) => e.On(r).MustClose?
  }

  function ApplyLocal(bound: nat, e: Entry, l: Local): Entry
    requires LocalEnabled(bound, true, e, l)
  {
    match l
    case ReplayData => e.(queue := e.queue + [Bytes])
    case SetupFails => e.(dialer := MustRemove)
    case SetupPushes => PushMarker(e, bound).(dialer := Busy)
    case SetupEnds => e.(dialer := Gone, reader := Busy)
    case WriteOk => e.(queue := e.queue[1..])
    case WriteFails => e.(queue := e.queue[1..], pump := MustRemove)
    case TakeMarker => e.(queue := e.queue[1..], marker := InPump, pump := Finishing)
    case ShutFails => e.(marker := Refused, pump := MustRemove)
    case PumpExits => e.(pump := Gone)
    case ReadFails => e.(reader := MustRemove)
    case ReaderQuits => e.(reader := Gone)
    case CloseConn(r) => CloseEntry(e, e.On(r).drain).With(r, Gone)
  }

  // ---------------------------------------------------------------------------
  // Sections under the mutex
  // ---------------------------------------------------------------------------

  predicate Registered(s: State, g: nat) {
    g in s.entries && s.entries[g].id in s.streams && s.streams[s.entries[g].id] == g
  }

  function Put(s: State, g: nat, e: Entry): State {
    s.(entries := s.entries[g := e])
  }

  /** The entry as its removal from the table leaves it. */
  function Removed(e: Entry, registered: bool): Entry {
    if registered then e.(removals := e.removals + 1) else e
  }

  /** Deletes the stream only while the table still holds this very entry, and rewrites the entry. */
  function Unregister(s: State, g: nat, e: Entry): State
    requires g in s.entries && e.id == s.entries[g].id
  {
    Put(s.(streams := if Registered(s, g) then s.streams - {e.id} else s.streams), g, Removed(e, Registered(s, g)))
  }

  /** A successful dial enters the table unless the dispatcher closed or the id is taken. */
  function RegisterDial(s: State, id: nat): State {
    var g := s.generation + 1;
    var fits := !s.closed && id !in s.streams;
    var e := Entry(id, fits, 0, false, false, [], false, Unsent, false,
                   if fits then Busy else MustClose(false), Absent, if fits then Busy else Gone);
    s.(generation := g, entries := s.entries[g := e], streams := if fits then s.streams[id := g] else s.streams)
  }

  predicate CanMark(s: State, g: nat) {
    Registered(s, g) && !s.entries[g].localHalf
  }

  function Marked(e: Entry): Entry {
    e.(localHalf := true, marker := InHand)
  }

  /** The target's write half is shut: the stream ends here if its read half already ended. */
  function FinishWrite(s: State, g: nat): State
    requires g in s.entries
  {
    var e := s.entries[g].(marker := Done);
    if e.remoteHalf then Unregister(s, g, e.(pump := MustClose(false))) else Put(s, g, e.(pump := Busy))
  }

  /** The target's read half ended: the stream ends here if its write half was already asked to. */
  function ReadEof(s: State, g: nat, sendOk: bool): State
    requires g in s.entries
  {
    var e := s.entries[g];
    if !Registered(s, g) then Put(s, g, e.(reader := Gone))
    else if e.localHalf
    then Unregister(s, g, e.(remoteHalf := true, reader := if sendOk then MustClose(true) else MustRemove))
    else Put(s, g, e.(remoteHalf := true, reader := if sendOk then Gone else MustRemove))
  }

  /** Closing the dispatcher empties the table in one section. */
  function DrainAll(s: State): State {
    s.(closed := true, streams := map[],
       entries := map g | g in s.entries :: Removed(s.entries[g], Registered(s, g)),
       closer := ClosingConns(set g | g in s.entries && Registered(s, g)))
  }

  // ---------------------------------------------------------------------------
  // The machine
  // ---------------------------------------------------------------------------

  datatype Event =
    | DialStarts
    | DialFails
    | DialDone(id: nat)
    | Do(g: nat, local: Local)
    | Remove(g: nat, r: Role)
    | SetupMarks(g: nat)
    | ShutWrite(g: nat)
    | ReadEnds(g: nat, sendOk: bool)
    | Handle(f: FrameStep)
    | Shutdown(c: CloseStep)

  /** Frames that reach the session's frame reader, and the steps it takes for one. */
  datatype FrameStep =
    | DataFrame(id: nat) | Admit(ok: bool)
    | FinFrame(id: nat) | Mark | Push
    | ResetFrame(id: nat) | Retire | StopIt | CloseIt

  datatype CloseStep = Begin | Drain | CloseOne(g: nat) | Await | Return

  function Init(): State {
    State(map[], map[], 0, false, 0, Free, NotClosing)
  }

  /** The entry a stream id names. */
  predicate Live(s: State, id: nat) {
    id in s.streams && s.streams[id] in s.entries
  }

  predicate Is(s: State, t: Task) {
    s.handler.Handling? && s.handler.g in s.entries && s.handler.task == t
  }

  predicate FrameEnabled(bound: nat, s: State, f: FrameStep) {
    match f
    case DataFrame(id) => s.handler == Free && Live(s, id)
    case Admit(ok) => Is(s, Admitting) && (ok ==> HasRoom(s.entries[s.handler.g], bound))
    case FinFrame(id) => s.handler == Free && Live(s, id) && !s.entries[s.streams[id]].localHalf
    case Mark => Is(s, Halving)
    case Push => Is(s, Pushing)
    case ResetFrame(id) => s.handler == Free && Live(s, id)
    case Retire => Is(s, Removing)
    case StopIt => Is(s, Closing) || Is(s, Stopping)
    case CloseIt => Is(s, Stopped) || Is(s, Resetting)
  }

  function ApplyFrame(bound: nat, s: State, f: FrameStep): State
    requires FrameEnabled(bound, s, f)
  {
    match f
    case DataFrame(id) =>
      s.(handler := Handling(s.streams[id], if s.entries[s.streams[id]].localHalf then Removing else Admitting))
    case Admit(ok) =>
      var g := s.handler.g;
      if ok then Put(s.(handler := Free), g, s.entries[g].(queue := s.entries[g].queue + [Bytes]))
      else s.(handler := Handling(g, Removing))
    case FinFrame(id) => s.(handler := Handling(s.streams[id], Halving))
    case Mark =>
      var g := s.handler.g;
      if CanMark(s, g) then Put(s.(handler := Handling(g, Pushing)), g, Marked(s.entries[g])) else s.(handler := Free)
    case Push => Put(s.(handler := Free), s.handler.g, PushMarker(s.entries[s.handler.g], bound))
    case ResetFrame(id) =>
      var g := s.streams[id];
      Unregister(s, g, s.entries[g]).(handler := Handling(g, Resetting))
    case Retire => Unregister(s, s.handler.g, s.entries[s.handler.g]).(handler := Handling(s.handler.g, Closing))
    case StopIt =>
      Put(s.(handler := if Is(s, Closing) then Handling(s.handler.g, Stopped) else Free), s.handler.g,
          StopQueue(s.entries[s.handler.g]))
    case CloseIt =>
      Put(s.(handler := if Is(s, Resetting) then Handling(s.handler.g, Stopping) else Free), s.handler.g,
          s.entries[s.handler.g].(connClosed := true))
  }

  predicate ThreadsEnded(e: Entry) {
    e.pump.Gone? && (e.reader.Absent? || e.reader.Gone?)
  }

  predicate CloseEnabled(s: State, c: CloseStep) {
    match c
    case Begin => s.closer == NotClosing
    case Drain =>
      s.closer == AwaitingDials && s.dialing == 0 && forall g :: g in s.entries ==> s.entries[g].dialer == Gone
    case CloseOne(g) => s.closer.ClosingConns? && g in s.closer.todo && g in s.entries
    case Await => s.closer.ClosingConns? && s.closer.todo == {}
    case Return =>
      s.closer == AwaitingThreads &&
      forall g :: g in s.entries ==> ThreadsEnded(s.entries[g])
  }

  function ApplyClose(s: State, c: CloseStep): State
    requires CloseEnabled(s, c)
  {
    match c
    case Begin => s.(closer := AwaitingDials)
    case Drain => DrainAll(s)
    case CloseOne(g) => Put(s.(closer := ClosingConns(s.closer.todo - {g})), g, CloseEntry(s.entries[g], false))
    case Await => s.(closer := AwaitingThreads)
    case Return => s.(closer := Returned)
  }

  predicate Enabled(bound: nat, s: State, e: Event) {
    match e
    case DialStarts => s.closer == NotClosing
    case DialFails => s.dialing > 0
    case DialDone(_) => s.dialing > 0
    case Do(g, l) => g in s.entries && LocalEnabled(bound, s.closer != NotClosing, s.entries[g], l)
    case Remove(g, r) => g in s.entries && s.entries[g].On(r) == MustRemove
    case SetupMarks(g) => g in s.entries && s.entries[g].dialer == Busy && CanMark(s, g)
    case ShutWrite(g) => g in s.entries && s.entries[g].pump == Finishing
    case ReadEnds(g, _) => g in s.entries && s.entries[g].reader == Busy
    case Handle(f) => FrameEnabled(bound, s, f)
    case Shutdown(c) => CloseEnabled(s, c)
  }

  function Apply(bound: nat, s: State, e: Event): State
    requires Enabled(bound, s, e)
  {
    match e
    case DialStarts => s.(dialing := s.dialing + 1)
    case DialFails => s.(dialing := s.dialing - 1)
    case DialDone(id) => RegisterDial(s.(dialing := s.dialing - 1), id)
    case Do(g, l) => Put(s, g, ApplyLocal(bound, s.entries[g], l))
    case Remove(g, r) => Unregister(s, g, s.entries[g].With(r, MustClose(false)))
    case SetupMarks(g) => Put(s, g, Marked(s.entries[g]).(dialer := Marking))
    case ShutWrite(g) => FinishWrite(s, g)
    case ReadEnds(g, sendOk) => ReadEof(s, g, sendOk)
    case Handle(f) => ApplyFrame(bound, s, f)
    case Shutdown(c) => ApplyClose(s, c)
  }

  function Step(bound: nat, s: State, e: Event): State {
    if Enabled(bound, s, e) then Apply(bound, s, e) else s
  }

  function Exec(bound: nat, es: seq<Event>): State {
    if es == [] then Init() else Step(bound, Exec(bound, es[..|es| - 1]), es[|es| - 1])
  }

  // ---------------------------------------------------------------------------
  // The invariant, entry by entry
  // ---------------------------------------------------------------------------

  predicate Retires(t: Thread) {
    t.MustRemove? || t.MustClose?
  }

  /** The frame reader has the entry's connection to close, after taking it out of the table. */
  predicate WillClose(task: Task) {
    task.Closing? || task.Stopped? || task.Resetting?
  }

  /** Some goroutine is inside a retire step that closes this connection. */
  predicate Retiring(e: Entry, task: Task, todo: bool) {
    Retires(e.dialer) || Retires(e.reader) || Retires(e.pump) || task.Removing? || WillClose(task) || todo
  }

  predicate OneMarker(q: seq<Item>) {
    forall i, j :: 0 <= i < j < |q| && q[i] == Marker ==> q[j] != Marker
  }

  /** A dialed connection is registered, closed, or being retired; its stream leaves the table at most once. */
  predicate Owned(e: Entry, registered: bool, task: Task, todo: bool) {
    && (registered ==> e.entered)
    && e.removals == (if e.entered && !registered then 1 else 0)
    && (registered || e.connClosed || Retiring(e, task, todo))
  }

  /** Nothing that follows an entry's removal from the table has happened to a registered one. */
  predicate Intact(e: Entry, registered: bool, task: Task, todo: bool) {
    registered ==>
      && !e.queueClosed && !e.connClosed && !WillClose(task) && !task.Stopping? && !todo
      && !e.dialer.MustClose? && !e.reader.MustClose? && !e.pump.MustClose? && e.pump != Gone
  }

  /** The marker is where the half-close flags and the goroutines say it is. */
  predicate MarkerTracked(e: Entry, registered: bool, task: Task) {
    && (e.localHalf <==> e.marker != Unsent)
    && (e.marker == InHand <==> task == Pushing || e.dialer == Marking)
    && !(task == Pushing && e.dialer == Marking)
    && (e.marker == InPump <==> e.pump == Finishing)
    && (e.marker == InQueue <==> Marker in e.queue)
    && OneMarker(e.queue)
    && (e.marker == Discarded ==> e.queueClosed)
    && (e.marker == Refused && registered ==> e.pump == MustRemove)
    && (e.marker == Done && e.remoteHalf ==> !registered)
  }

  predicate ThreadsOrdered(e: Entry) {
    && (e.dialer != Gone ==> e.reader == Absent)
    && !e.dialer.Absent? && !e.dialer.Finishing? && !e.reader.Marking? && !e.reader.Finishing?
    && !e.pump.Absent? && !e.pump.Marking?
  }

  /** A queue is closed ahead of its connection only by the frame reader, and a pump ends only with its queue. */
  predicate ClosedTogether(e: Entry, task: Task) {
    && (e.queueClosed && !e.connClosed ==> task.Stopped?)
    && (e.entered && e.pump == Gone ==> e.queueClosed)
    && (!e.entered ==> e.dialer.MustClose? || e.connClosed)
    && (task.Stopping? ==> e.connClosed)
  }

  predicate Good(e: Entry, registered: bool, task: Task, todo: bool) {
    && ClosedTogether(e, task)
    && Owned(e, registered, task, todo) && Intact(e, registered, task, todo)
    && MarkerTracked(e, registered, task) && ThreadsOrdered(e)
  }

  lemma PushTracked(e: Entry, bound: nat)
    requires e.marker == InHand && OneMarker(e.queue) && Marker !in e.queue
    ensures
      var p := PushMarker(e, bound);
      && OneMarker(p.queue) && (p.marker == InQueue <==> Marker in p.queue)
      && (p.marker.InQueue? || p.marker.Discarded? || p.marker.Lost?) && (p.marker == Discarded ==> p.queueClosed)
      && p == e.(queue := p.queue, marker := p.marker)
  {
  }

  lemma AppendTracked(q: seq<Item>, i: Item)
    requires OneMarker(q) && (i == Marker ==> Marker !in q)
    ensures OneMarker(q + [i])
    ensures Marker in q + [i] <==> Marker in q || i == Marker
  {
  }

  lemma DialerKeepsGood(bound: nat, e: Entry, registered: bool, task: Task, todo: bool, l: Local)
    requires Good(e, registered, task, todo) && LocalEnabled(bound, true, e, l)
    requires l.ReplayData? || l.SetupFails? || l.SetupPushes? || l.SetupEnds?
    ensures Good(ApplyLocal(bound, e, l), registered, task, todo)
  {
    if l.ReplayData? || l.SetupPushes? {
      AppendTracked(e.queue, if l.ReplayData? then Bytes else Marker);
    }
  }

  lemma PumpKeepsGood(bound: nat, e: Entry, registered: bool, task: Task, todo: bool, l: Local)
    requires Good(e, registered, task, todo) && LocalEnabled(bound, true, e, l)
    requires l.WriteOk? || l.WriteFails? || l.TakeMarker? || l.ShutFails? || l.PumpExits?
    ensures Good(ApplyLocal(bound, e, l), registered, task, todo)
  {
  }

  lemma CloseConnKeepsGood(e: Entry, registered: bool, task: Task, todo: bool, r: Role)
    requires Good(e, registered, task, todo) && e.On(r).MustClose?
    ensures Good(CloseEntry(e, e.On(r).drain).With(r, Gone), registered, task, todo)
  {
  }

  lemma ReaderKeepsGood(bound: nat, e: Entry, registered: bool, task: Task, todo: bool, l: Local)
    requires Good(e, registered, task, todo) && LocalEnabled(bound, true, e, l)
    requires l.ReadFails? || l.ReaderQuits?
    ensures Good(ApplyLocal(bound, e, l), registered, task, todo)
  {
  }

  lemma LocalKeepsGood(bound: nat, e: Entry, registered: bool, task: Task, todo: bool, l: Local)
    requires Good(e, registered, task, todo) && LocalEnabled(bound, true, e, l)
    ensures Good(ApplyLocal(bound, e, l), registered, task, todo)
  {
    match l {
      case ReplayData => DialerKeepsGood(bound, e, registered, task, todo, l);
      case SetupFails => DialerKeepsGood(bound, e, registered, task, todo, l);
      case SetupPushes => DialerKeepsGood(bound, e, registered, task, todo, l);
      case SetupEnds => DialerKeepsGood(bound, e, registered, task, todo, l);
      case WriteOk => PumpKeepsGood(bound, e, registered, task, todo, l);
      case WriteFails => PumpKeepsGood(bound, e, registered, task, todo, l);
      case TakeMarker => PumpKeepsGood(bound, e, registered, task, todo, l);
      case ShutFails => PumpKeepsGood(bound, e, registered, task, todo, l);
      case PumpExits => PumpKeepsGood(bound, e, registered, task, todo, l);
      case ReadFails => ReaderKeepsGood(bound, e, registered, task, todo, l);
      case ReaderQuits => ReaderKeepsGood(bound, e, registered, task, todo, l);
      case CloseConn(r) => CloseConnKeepsGood(e, registered, task, todo, r);
    }
  }

  /** The table lets go of an entry as some goroutine starts to close it. */
  lemma RemovalKeepsGood(e: Entry, registered: bool, task: Task, todo: bool, r: Role)
    requires Good(e, registered, task, todo) && e.On(r) == MustRemove
    ensures Good(Removed(e.With(r, MustClose(false)), registered), false, task, todo)
  {
  }

  lemma HandlerRemovalKeepsGood(e: Entry, registered: bool, task: Task, todo: bool)
    requires Good(e, registered, task, todo) && (task == Removing || (task == Idle && registered))
    ensures Good(Removed(e, registered), false, Closing, todo) && Good(Removed(e, registered), false, Resetting, todo)
  {
  }

  lemma HandlerStepKeepsGood(bound: nat, e: Entry, registered: bool, todo: bool)
    requires Good(e, registered, Pushing, todo)
    ensures Good(PushMarker(e, bound), registered, Idle, todo)
  {
    PushTracked(e, bound);
  }

  lemma MarkKeepsGood(e: Entry, todo: bool)
    requires Good(e, true, Halving, todo) && !e.localHalf
    ensures Good(Marked(e), true, Pushing, todo)
  {
  }

  lemma SetupMarkKeepsGood(e: Entry, task: Task, todo: bool)
    requires Good(e, true, task, todo) && !e.localHalf && e.dialer == Busy
    ensures Good(Marked(e).(dialer := Marking), true, task, todo)
  {
  }

  lemma FinishWriteKeepsGood(e: Entry, registered: bool, task: Task, todo: bool)
    requires Good(e, registered, task, todo) && e.pump == Finishing
    ensures e.remoteHalf ==> Good(Removed(e.(marker := Done, pump := MustClose(false)), registered), false, task, todo)
    ensures !e.remoteHalf ==> Good(e.(marker := Done, pump := Busy), registered, task, todo)
  {
  }

  lemma ReadEofKeepsGood(e: Entry, registered: bool, task: Task, todo: bool, sendOk: bool)
    requires Good(e, registered, task, todo) && e.reader == Busy
    ensures !registered ==> Good(e.(reader := Gone), registered, task, todo)
    ensures registered && e.localHalf ==>
      var f := e.(remoteHalf := true, reader := if sendOk then MustClose(true) else MustRemove);
      Good(Removed(f, true), false, task, todo)
    ensures registered && !e.localHalf ==>
      Good(e.(remoteHalf := true, reader := if sendOk then Gone else MustRemove), true, task, todo)
  {
  }

  // ---------------------------------------------------------------------------
  // The invariant of the table
  // ---------------------------------------------------------------------------

  function TaskOf(h: Handler, g: nat): Task {
    if h.Handling? && h.g == g then h.task else Idle
  }

  function TaskOn(s: State, g: nat): Task {
    TaskOf(s.handler, g)
  }

  predicate InTodo(s: State, g: nat) {
    s.closer.ClosingConns? && g in s.closer.todo
  }

  predicate GoodIn(s: State, g: nat) {
    g in s.entries && Good(s.entries[g], Registered(s, g), TaskOn(s, g), InTodo(s, g))
  }

  predicate TableInv(s: State) {
    && (forall id :: id in s.streams ==> s.streams[id] in s.entries && s.entries[s.streams[id]].id == id)
    && (forall g :: g in s.entries ==> g <= s.generation)
    && (s.handler.Handling? ==> s.handler.g in s.entries && s.handler.task != Idle)
    && (s.closer.ClosingConns? ==> s.closer.todo <= s.entries.Keys)
    && (s.closed <==> !s.closer.NotClosing? && !s.closer.AwaitingDials?)
    && (s.closed ==> s.streams == map[] && s.dialing == 0)
    && (s.closed ==> forall g :: g in s.entries ==> s.entries[g].dialer == Gone)
    && (s.closer == Returned ==> forall g :: g in s.entries ==> ThreadsEnded(s.entries[g]))
  }

  predicate Inv(s: State) {
    TableInv(s) && forall g :: g in s.entries ==> GoodIn(s, g)
  }

  /** What a step may write into an entry without disturbing the table. */
  predicate Fits(s: State, g: nat, e: Entry) {
    && g in s.entries && e.id == s.entries[g].id
    && (s.entries[g].dialer == Gone ==> e.dialer == Gone)
    && (ThreadsEnded(s.entries[g]) ==> ThreadsEnded(e) || !s.closed)
  }

  /** A handler state that concerns no entry but g. */
  predicate About(h: Handler, g: nat) {
    h == Free || (h.g == g && h.task != Idle)
  }

  /** A step that rewrites one entry, and the handler only as far as that entry is concerned. */
  lemma RewriteKeeps(s: State, h: Handler, g: nat, e: Entry)
    requires Inv(s) && g in s.entries && Fits(s, g, e)
    requires h == s.handler || (About(h, g) && About(s.handler, g))
    requires Good(e, Registered(s, g), TaskOf(h, g), InTodo(s, g))
    ensures Inv(Put(s.(handler := h), g, e))
  {
    var t := Put(s.(handler := h), g, e);
    forall k | k in t.entries && k != g ensures GoodIn(t, k) {
      assert GoodIn(s, k);
    }
  }

  lemma UnregisterTable(s: State, h: Handler, g: nat, e: Entry)
    requires TableInv(s) && g in s.entries && Fits(s, g, e)
    requires h == s.handler || About(h, g)
    ensures TableInv(Unregister(s, g, e).(handler := h))
    ensures !Registered(Unregister(s, g, e), g)
    ensures forall k :: k in s.entries && k != g ==> (Registered(s, k) <==> Registered(Unregister(s, g, e), k))
  {
  }

  /** The same for a step that removes the entry from the table. */
  lemma RemoveKeeps(s: State, h: Handler, g: nat, e: Entry)
    requires Inv(s) && g in s.entries && Fits(s, g, e)
    requires h == s.handler || (About(h, g) && About(s.handler, g))
    requires Good(Removed(e, Registered(s, g)), false, TaskOf(h, g), InTodo(s, g))
    ensures Inv(Unregister(s, g, e).(handler := h))
  {
    UnregisterTable(s, h, g, e);
    var t := Unregister(s, g, e).(handler := h);
    forall k | k in t.entries && k != g ensures GoodIn(t, k) {
      assert GoodIn(s, k);
      assert Registered(s, k) <==> Registered(Unregister(s, g, e), k);
    }
  }

  lemma LocalFits(bound: nat, e: Entry, l: Local)
    requires LocalEnabled(bound, true, e, l) && e.dialer == Gone
    ensures ApplyLocal(bound, e, l).dialer == Gone
    ensures ThreadsEnded(e) ==> ThreadsEnded(ApplyLocal(bound, e, l))
  {
    LocalIdentity(bound, e, l);
  }

  lemma DoFits(bound: nat, s: State, g: nat, l: Local)
    requires TableInv(s) && g in s.entries && LocalEnabled(bound, s.closer != NotClosing, s.entries[g], l)
    ensures Fits(s, g, ApplyLocal(bound, s.entries[g], l))
  {
    var e := s.entries[g];
    LocalIdentity(bound, e, l);
    if e.dialer == Gone {
      LocalFits(bound, e, l);
    }
  }

  lemma DoKeeps(bound: nat, s: State, g: nat, l: Local)
    requires Inv(s) && g in s.entries && LocalEnabled(bound, s.closer != NotClosing, s.entries[g], l)
    ensures Inv(Put(s, g, ApplyLocal(bound, s.entries[g], l)))
  {
    assert GoodIn(s, g);
    LocalKeepsGood(bound, s.entries[g], Registered(s, g), TaskOn(s, g), InTodo(s, g), l);
    DoFits(bound, s, g, l);
    RewriteKeeps(s, s.handler, g, ApplyLocal(bound, s.entries[g], l));
  }

  lemma RemoveEventKeeps(s: State, g: nat, r: Role)
    requires Inv(s) && g in s.entries && s.entries[g].On(r) == MustRemove
    ensures Inv(Unregister(s, g, s.entries[g].With(r, MustClose(false))))
  {
    assert GoodIn(s, g);
    RemovalKeepsGood(s.entries[g], Registered(s, g), TaskOn(s, g), InTodo(s, g), r);
    RemoveKeeps(s, s.handler, g, s.entries[g].With(r, MustClose(false)));
  }

  lemma SetupMarksKeeps(s: State, g: nat)
    requires Inv(s) && CanMark(s, g) && s.entries[g].dialer == Busy
    ensures Inv(Put(s, g, Marked(s.entries[g]).(dialer := Marking)))
  {
    assert GoodIn(s, g);
    SetupMarkKeepsGood(s.entries[g], TaskOn(s, g), InTodo(s, g));
    RewriteKeeps(s, s.handler, g, Marked(s.entries[g]).(dialer := Marking));
  }

  lemma ShutWriteKeeps(s: State, g: nat)
    requires Inv(s) && g in s.entries && s.entries[g].pump == Finishing
    ensures Inv(FinishWrite(s, g))
  {
    assert GoodIn(s, g);
    FinishWriteKeepsGood(s.entries[g], Registered(s, g), TaskOn(s, g), InTodo(s, g));
    var e := s.entries[g].(marker := Done);
    if e.remoteHalf {
      RemoveKeeps(s, s.handler, g, e.(pump := MustClose(false)));
    } else {
      RewriteKeeps(s, s.handler, g, e.(pump := Busy));
    }
  }

  lemma ReadEndsKeeps(s: State, g: nat, sendOk: bool)
    requires Inv(s) && g in s.entries && s.entries[g].reader == Busy
    ensures Inv(ReadEof(s, g, sendOk))
  {
    assert GoodIn(s, g);
    ReadEofKeepsGood(s.entries[g], Registered(s, g), TaskOn(s, g), InTodo(s, g), sendOk);
    var e := s.entries[g];
    if !Registered(s, g) {
      RewriteKeeps(s, s.handler, g, e.(reader := Gone));
    } else if e.localHalf {
      RemoveKeeps(s, s.handler, g, e.(remoteHalf := true, reader := if sendOk then MustClose(true) else MustRemove));
    } else {
      RewriteKeeps(s, s.handler, g, e.(remoteHalf := true, reader := if sendOk then Gone else MustRemove));
    }
  }

  lemma LookupKeeps(s: State, g: nat, task: Task)
    requires Inv(s) && s.handler == Free && Registered(s, g) && (task.Admitting? || task.Halving? || task.Removing?)
    ensures Inv(s.(handler := Handling(g, task)))
  {
  }

  /** The handler moves on without touching the entry. */
  lemma MoveOnKeeps(s: State, next: Handler)
    requires Inv(s) && s.handler.Handling?
    requires (s.handler.task == Admitting && next == Handling(s.handler.g, Removing))
             || (s.handler.task == Halving && next == Free)
    ensures Inv(s.(handler := next))
  {
    var t := s.(handler := next);
    forall k | k in t.entries ensures GoodIn(t, k) {
      assert GoodIn(s, k) && Registered(t, k) == Registered(s, k) && InTodo(t, k) == InTodo(s, k);
    }
  }

  lemma AdmitKeeps(bound: nat, s: State)
    requires Inv(s) && Is(s, Admitting)
    ensures
      var e := s.entries[s.handler.g];
      Inv(Put(s.(handler := Free), s.handler.g, e.(queue := e.queue + [Bytes])))
  {
    var g := s.handler.g;
    assert GoodIn(s, g);
    AppendTracked(s.entries[g].queue, Bytes);
    RewriteKeeps(s, Free, g, s.entries[g].(queue := s.entries[g].queue + [Bytes]));
  }

  lemma HandlerMarkKeeps(s: State)
    requires Inv(s) && s.handler.Handling? && s.handler.task == Halving && CanMark(s, s.handler.g)
    ensures Inv(Put(s.(handler := Handling(s.handler.g, Pushing)), s.handler.g, Marked(s.entries[s.handler.g])))
  {
    var g := s.handler.g;
    assert GoodIn(s, g);
    MarkKeepsGood(s.entries[g], InTodo(s, g));
    RewriteKeeps(s, Handling(g, Pushing), g, Marked(s.entries[g]));
  }

  lemma HandlerPushKeeps(bound: nat, s: State)
    requires Inv(s) && s.handler.Handling? && s.handler.task == Pushing
    ensures Inv(Put(s.(handler := Free), s.handler.g, PushMarker(s.entries[s.handler.g], bound)))
  {
    var g := s.handler.g;
    assert GoodIn(s, g);
    HandlerStepKeepsGood(bound, s.entries[g], Registered(s, g), InTodo(s, g));
    RewriteKeeps(s, Free, g, PushMarker(s.entries[g], bound));
  }

  lemma HandlerRetireKeeps(s: State, g: nat)
    requires Inv(s) && g in s.entries
    requires s.handler == Handling(g, Removing) || (s.handler == Free && Registered(s, g))
    ensures Inv(Unregister(s, g, s.entries[g]).(handler := Handling(g, Closing)))
    ensures Inv(Unregister(s, g, s.entries[g]).(handler := Handling(g, Resetting)))
  {
    assert GoodIn(s, g);
    HandlerRemovalKeepsGood(s.entries[g], Registered(s, g), TaskOn(s, g), InTodo(s, g));
    RemoveKeeps(s, Handling(g, Closing), g, s.entries[g]);
    RemoveKeeps(s, Handling(g, Resetting), g, s.entries[g]);
  }

  lemma HandlerStopKeepsGood(e: Entry, task: Task, todo: bool)
    requires Good(e, false, task, todo)
    ensures task.Closing? ==> Good(StopQueue(e), false, Stopped, todo)
    ensures task.Stopping? ==> Good(StopQueue(e), false, Idle, todo)
    ensures task.Stopped? ==> Good(e.(connClosed := true), false, Idle, todo)
    ensures task.Resetting? ==> Good(e.(connClosed := true), false, Stopping, todo)
  {
  }

  lemma HandlerCloseKeeps(bound: nat, s: State, f: FrameStep)
    requires Inv(s) && FrameEnabled(bound, s, f) && (f.StopIt? || f.CloseIt?)
    ensures Inv(ApplyFrame(bound, s, f))
  {
    var g := s.handler.g;
    assert GoodIn(s, g);
    HandlerStopKeepsGood(s.entries[g], s.handler.task, InTodo(s, g));
    var t := ApplyFrame(bound, s, f);
    RewriteKeeps(s, t.handler, g, t.entries[g]);
  }

  lemma HandleKeeps(bound: nat, s: State, f: FrameStep)
    requires Inv(s) && FrameEnabled(bound, s, f)
    ensures Inv(ApplyFrame(bound, s, f))
  {
    match f {
      case DataFrame(id) => LookupKeeps(s, s.streams[id], ApplyFrame(bound, s, f).handler.task);
      case Admit(ok) =>
        if ok { AdmitKeeps(bound, s); } else { MoveOnKeeps(s, Handling(s.handler.g, Removing)); }
      case FinFrame(id) => LookupKeeps(s, s.streams[id], Halving);
      case Mark =>
        if CanMark(s, s.handler.g) { HandlerMarkKeeps(s); } else { MoveOnKeeps(s, Free); }
      case Push => HandlerPushKeeps(bound, s);
      case ResetFrame(id) => HandlerRetireKeeps(s, s.streams[id]);
      case Retire => HandlerRetireKeeps(s, s.handler.g);
      case _ => HandlerCloseKeeps(bound, s, f);
    }
  }

  lemma RegisterTable(s: State, id: nat)
    requires TableInv(s) && s.dialing > 0
    ensures TableInv(RegisterDial(s.(dialing := s.dialing - 1), id))
    ensures
      var t := RegisterDial(s.(dialing := s.dialing - 1), id);
      forall k :: k in s.entries ==> (Registered(t, k) <==> Registered(s, k)) && k != t.generation
  {
  }

  lemma DialDoneKeeps(s: State, id: nat)
    requires Inv(s) && s.dialing > 0
    ensures Inv(RegisterDial(s.(dialing := s.dialing - 1), id))
  {
    RegisterTable(s, id);
    var t := RegisterDial(s.(dialing := s.dialing - 1), id);
    forall k | k in t.entries ensures GoodIn(t, k) {
      if k != t.generation {
        assert GoodIn(s, k);
      }
    }
  }

  lemma DrainKeeps(s: State)
    requires Inv(s) && CloseEnabled(s, Drain)
    ensures Inv(DrainAll(s))
  {
    var t := DrainAll(s);
    forall g | g in t.entries ensures GoodIn(t, g) {
      assert GoodIn(s, g);
    }
  }

  lemma CloseOneKeeps(s: State, g: nat)
    requires Inv(s) && CloseEnabled(s, CloseOne(g))
    ensures Inv(ApplyClose(s, CloseOne(g)))
  {
  }

  lemma ShutdownKeeps(s: State, c: CloseStep)
    requires Inv(s) && CloseEnabled(s, c)
    ensures Inv(ApplyClose(s, c))
  {
    match c {
      case Drain => DrainKeeps(s);
      case CloseOne(g) => CloseOneKeeps(s, g);
      case _ =>
        var t := ApplyClose(s, c);
        forall k | k in t.entries ensures GoodIn(t, k) {
          assert GoodIn(s, k);
        }
    }
  }

  lemma DialingKeeps(s: State, n: nat)
    requires Inv(s) && (s.closed ==> n == 0)
    ensures Inv(s.(dialing := n))
  {
  }

  /** The events of the goroutines of one stream. */
  predicate IsGoroutine(e: Event) {
    e.Do? || e.Remove? || e.SetupMarks? || e.ShutWrite? || e.ReadEnds?
  }

  lemma GoroutineKeeps(bound: nat, s: State, e: Event)
    requires Inv(s) && Enabled(bound, s, e) && IsGoroutine(e)
    ensures Inv(Apply(bound, s, e))
  {
    match e {
      case Do(g, l) => DoKeeps(bound, s, g, l);
      case Remove(g, r) => RemoveEventKeeps(s, g, r);
      case SetupMarks(g) => SetupMarksKeeps(s, g);
      case ShutWrite(g) => ShutWriteKeeps(s, g);
      case ReadEnds(g, sendOk) => ReadEndsKeeps(s, g, sendOk);
    }
  }

  lemma DialKeeps(bound: nat, s: State, e: Event)
    requires Inv(s) && Enabled(bound, s, e) && (e.DialStarts? || e.DialFails? || e.DialDone?)
    ensures Inv(Apply(bound, s, e))
  {
    var t := Apply(bound, s, e);
    match e {
      case DialStarts =>
        DialingKeeps(s, s.dialing + 1);
        assert t == s.(dialing := s.dialing + 1);
      case DialFails =>
        DialingKeeps(s, s.dialing - 1);
        assert t == s.(dialing := s.dialing - 1);
      case DialDone(id) =>
        DialDoneKeeps(s, id);
        assert t == RegisterDial(s.(dialing := s.dialing - 1), id);
    }
  }

  lemma StepKeeps(bound: nat, s: State, e: Event)
    requires Inv(s)
    ensures Inv(Step(bound, s, e))
  {
    if Enabled(bound, s, e) {
      if IsGoroutine(e) {
        GoroutineKeeps(bound, s, e);
      } else if e.Handle? {
        HandleKeeps(bound, s, e.f);
      } else if e.Shutdown? {
        ShutdownKeeps(s, e.c);
      } else {
        DialKeeps(bound, s, e);
      }
    }
  }

  lemma {:induction false} ExecKeeps(bound: nat, es: seq<Event>)
    ensures Inv(Exec(bound, es))
  {
    if es != [] {
      ExecKeeps(bound, es[..|es| - 1]);
      StepKeeps(bound, Exec(bound, es[..|es| - 1]), es[|es| - 1]);
    }
  }

  // ---------------------------------------------------------------------------
  // What holds on every run
  // ---------------------------------------------------------------------------

  /**
   * Every dialed connection is owned by exactly one registered stream, or is closed, or
   * is in the hands of a goroutine that is retiring it; and its stream left the table at
   * most once, never to return.
   */
  lemma {:induction false} EveryConnectionIsOwned(bound: nat, es: seq<Event>, g: nat)
    requires g in Exec(bound, es).entries
    ensures
      var s := Exec(bound, es);
      && (Registered(s, g) || s.entries[g].connClosed || Retiring(s.entries[g], TaskOn(s, g), InTodo(s, g)))
      && !(Registered(s, g) && s.entries[g].connClosed)
      && s.entries[g].removals <= 1
      && (s.entries[g].removals == 1 ==> !Registered(s, g))
  {
    ExecKeeps(bound, es);
    assert GoodIn(Exec(bound, es), g);
  }

  /** The entry whose goroutine, or whose frame, an event belongs to. */
  function Actor(s: State, e: Event): set<nat> {
    match e
    case Do(g, _) => {g}
    case Remove(g, _) => {g}
    case SetupMarks(g) => {g}
    case ShutWrite(g) => {g}
    case ReadEnds(g, _) => {g}
    case Handle(f) =>
      (match f
       case DataFrame(id) => if id in s.streams then {s.streams[id]} else {}
       case FinFrame(id) => if id in s.streams then {s.streams[id]} else {}
       case ResetFrame(id) => if id in s.streams then {s.streams[id]} else {}
       case _ => if s.handler.Handling? then {s.handler.g} else {})
    case _ => {}
  }

  /**
   * No goroutine, however stale, unregisters a stream other than its own: only closing
   * the whole dispatcher does, and a stream once removed is never registered again.
   */
  lemma {:induction false} OnlyItsOwnStream(bound: nat, es: seq<Event>, e: Event, k: nat)
    requires k in Exec(bound, es).entries
    ensures
      var s := Exec(bound, es);
      OnlyRemovedBy(s, Step(bound, s, e), k, if e == Shutdown(Drain) then {k} else Actor(s, e))
  {
    ExecKeeps(bound, es);
    StepOnlyItsOwn(bound, Exec(bound, es), e, k);
  }

  predicate OnlyRemovedBy(s: State, t: State, k: nat, actors: set<nat>) {
    && k in s.entries && k in t.entries && t.entries[k].id == s.entries[k].id
    && (Registered(s, k) && !Registered(t, k) ==> k in actors)
    && (Registered(t, k) ==> Registered(s, k))
  }

  lemma UnregisterOnlyItsOwn(s: State, h: Handler, g: nat, e: Entry, k: nat)
    requires TableInv(s) && g in s.entries && k in s.entries && e.id == s.entries[g].id
    ensures OnlyRemovedBy(s, Unregister(s, g, e).(handler := h), k, {g})
  {
  }

  lemma DoOnlyItsOwn(bound: nat, s: State, g: nat, l: Local, k: nat)
    requires k in s.entries && g in s.entries && LocalEnabled(bound, true, s.entries[g], l)
    ensures OnlyRemovedBy(s, Put(s, g, ApplyLocal(bound, s.entries[g], l)), k, {g})
  {
  }

  lemma ReadEndsOnlyItsOwn(s: State, g: nat, ok: bool, k: nat)
    requires TableInv(s) && k in s.entries && g in s.entries
    ensures OnlyRemovedBy(s, ReadEof(s, g, ok), k, {g})
  {
  }

  lemma ShutWriteOnlyItsOwn(s: State, g: nat, k: nat)
    requires TableInv(s) && k in s.entries && g in s.entries
    ensures OnlyRemovedBy(s, FinishWrite(s, g), k, {g})
  {
  }

  lemma HandleOnlyItsOwn(bound: nat, s: State, f: FrameStep, k: nat)
    requires TableInv(s) && k in s.entries && FrameEnabled(bound, s, f)
    ensures OnlyRemovedBy(s, ApplyFrame(bound, s, f), k, Actor(s, Handle(f)))
  {
    if f.Retire? || f.ResetFrame? {
      RetireOnlyItsOwn(bound, s, f, k);
    }
  }

  lemma RetireOnlyItsOwn(bound: nat, s: State, f: FrameStep, k: nat)
    requires TableInv(s) && k in s.entries && FrameEnabled(bound, s, f) && (f.Retire? || f.ResetFrame?)
    ensures OnlyRemovedBy(s, ApplyFrame(bound, s, f), k, Actor(s, Handle(f)))
  {
  }

  lemma GoroutineOnlyItsOwn(bound: nat, s: State, e: Event, k: nat)
    requires TableInv(s) && k in s.entries && Enabled(bound, s, e) && IsGoroutine(e)
    ensures OnlyRemovedBy(s, Apply(bound, s, e), k, Actor(s, e))
  {
    match e {
      case Do(g, l) => DoOnlyItsOwn(bound, s, g, l, k);
      case Remove(g, r) => UnregisterOnlyItsOwn(s, s.handler, g, s.entries[g].With(r, MustClose(false)), k);
      case ShutWrite(g) => ShutWriteOnlyItsOwn(s, g, k);
      case ReadEnds(g, ok) => ReadEndsOnlyItsOwn(s, g, ok, k);
      case SetupMarks(_) =>
    }
  }

  lemma StepOnlyItsOwn(bound: nat, s: State, e: Event, k: nat)
    requires TableInv(s) && k in s.entries
    ensures OnlyRemovedBy(s, Step(bound, s, e), k, if e == Shutdown(Drain) then {k} else Actor(s, e))
  {
    if Enabled(bound, s, e) {
      if IsGoroutine(e) {
        GoroutineOnlyItsOwn(bound, s, e, k);
      } else if e.Handle? {
        HandleOnlyItsOwn(bound, s, e.f, k);
      } else if e.Shutdown? {
        ShutdownOnlyItsOwn(s, e.c, k);
      } else if e.DialDone? {
        RegisterTable(s, e.id);
      }
    }
  }

  lemma ShutdownOnlyItsOwn(s: State, c: CloseStep, k: nat)
    requires TableInv(s) && k in s.entries && CloseEnabled(s, c)
    ensures OnlyRemovedBy(s, ApplyClose(s, c), k, if c == Drain then {k} else {})
  {
  }

  lemma LocalIdentity(bound: nat, e: Entry, l: Local)
    requires LocalEnabled(bound, true, e, l)
    ensures ApplyLocal(bound, e, l).id == e.id
  {
    if l.CloseConn? {
      CloseIdentity(e, l.r, e.On(l.r).drain);
    }
  }

  lemma CloseIdentity(e: Entry, r: Role, drain: bool)
    ensures CloseEntry(e, drain).With(r, Gone).id == e.id
  {
  }

  /** The marker is in the queue or with the pump. */
  predicate Moving(e: Entry) {
    e.marker.InQueue? || e.marker.InPump?
  }

  predicate PumpMoves(l: Local) {
    l.WriteOk? || l.WriteFails? || l.TakeMarker? || l.ShutFails?
  }

  /** The half-close marker still has to be processed, or the pump is about to remove the stream. */
  predicate HalfClosePending(e: Entry) {
    e.marker.InHand? || Moving(e) || (e.marker == Refused && e.pump == MustRemove)
  }

  /**
   * A stream that is registered with both halves ended is waiting for its marker, unless
   * the marker was refused by a queue that already held its bound of frames. Once both
   * directions have been processed it is no longer registered.
   */
  lemma {:induction false} BothHalvesMeansPending(bound: nat, es: seq<Event>, g: nat)
    requires Registered(Exec(bound, es), g)
    requires Exec(bound, es).entries[g].localHalf && Exec(bound, es).entries[g].remoteHalf
    ensures HalfClosePending(Exec(bound, es).entries[g]) || Exec(bound, es).entries[g].marker == Lost
    ensures Exec(bound, es).entries[g].marker != Done
  {
    ExecKeeps(bound, es);
    assert GoodIn(Exec(bound, es), g);
  }

  /** Frames in front of the marker. */
  function Ahead(q: seq<Item>): nat {
    if q == [] || q[0] == Marker then 0 else 1 + Ahead(q[1..])
  }

  /** How many steps can still carry a marker; a queue takes one only below its bound of frames. */
  function MarkerRank(bound: nat, e: Entry): nat {
    match e.marker
    case InHand => bound + 3
    case InQueue => Ahead(e.queue) + 3
    case InPump => 2
    case Refused => 1
    case _ => 0
  }

  /** The steps that carry the marker of entry g towards its end, or remove the stream on its account. */
  predicate Carries(s: State, e: Event, g: nat) {
    || (g in s.entries && s.entries[g].marker == InHand &&
          (e == Do(g, SetupPushes) || (e == Handle(Push) && s.handler.Handling? && s.handler.g == g)))
    || (g in s.entries && Moving(s.entries[g]) && e.Do? && e.g == g && PumpMoves(e.local))
    || e == ShutWrite(g) || e == Remove(g, Pump)
  }

  lemma {:induction false} AheadIgnoresAppends(q: seq<Item>, i: Item)
    requires Marker in q
    ensures Ahead(q + [i]) == Ahead(q)
  {
    if q[0] != Marker {
      assert (q + [i])[1..] == q[1..] + [i];
      AheadIgnoresAppends(q[1..], i);
    }
  }

  lemma {:induction false} AheadOfLast(q: seq<Item>)
    ensures Ahead(q + [Marker]) <= |q|
  {
    if q != [] && q[0] != Marker {
      assert (q + [Marker])[1..] == q[1..] + [Marker];
      AheadOfLast(q[1..]);
    }
  }

  /** Once asked to end, a half stays asked; a carried marker is strictly nearer its end. */
  predicate Nearer(bound: nat, e: Entry, f: Entry, carried: bool) {
    && f.localHalf && (e.remoteHalf ==> f.remoteHalf)
    && MarkerRank(bound, f) <= MarkerRank(bound, e)
    && (carried ==> MarkerRank(bound, f) < MarkerRank(bound, e))
  }

  lemma PushCarries(bound: nat, e: Entry)
    requires e.marker == InHand && e.localHalf
    ensures Nearer(bound, e, PushMarker(e, bound), true)
  {
    AheadOfLast(e.queue);
  }

  lemma LocalCarries(bound: nat, e: Entry, registered: bool, task: Task, todo: bool, l: Local)
    requires Good(e, registered, task, todo) && LocalEnabled(bound, true, e, l) && e.localHalf && registered
    ensures Nearer(bound, e, ApplyLocal(bound, e, l),
                   (e.marker == InHand && l.SetupPushes?) || (Moving(e) && PumpMoves(l)))
  {
    if l.ReplayData? && e.marker == InQueue {
      AheadIgnoresAppends(e.queue, Bytes);
    }
    if l.SetupPushes? {
      PushCarries(bound, e);
    }
  }

  predicate Forward(bound: nat, s: State, t: State, g: nat, carried: bool) {
    Registered(t, g) ==> Registered(s, g) && Nearer(bound, s.entries[g], t.entries[g], carried)
  }

  lemma AdmitCarries(bound: nat, s: State, k: nat, g: nat)
    requires g in s.entries && GoodIn(s, g) && k in s.entries && Registered(s, g) && s.entries[g].localHalf
    ensures
      var e := s.entries[k].(queue := s.entries[k].queue + [Bytes]);
      Forward(bound, s, Put(s.(handler := Free), k, e), g, false)
  {
    if k == g && s.entries[g].marker == InQueue {
      AheadIgnoresAppends(s.entries[g].queue, Bytes);
    }
  }

  lemma HandleCarries(bound: nat, s: State, f: FrameStep, g: nat)
    requires g in s.entries && GoodIn(s, g) && FrameEnabled(bound, s, f) && Registered(s, g) && s.entries[g].localHalf
    ensures Forward(bound, s, ApplyFrame(bound, s, f), g, Carries(s, Handle(f), g))
  {
    if f == Admit(true) {
      AdmitCarries(bound, s, s.handler.g, g);
    } else if f == Push && s.handler.g == g {
      PushCarries(bound, s.entries[g]);
    }
  }

  lemma DoCarries(bound: nat, s: State, k: nat, l: Local, g: nat)
    requires Inv(s) && Registered(s, g) && s.entries[g].localHalf
    requires k in s.entries && LocalEnabled(bound, s.closer != NotClosing, s.entries[k], l)
    ensures Forward(bound, s, Put(s, k, ApplyLocal(bound, s.entries[k], l)), g, Carries(s, Do(k, l), g))
  {
    assert GoodIn(s, g);
    if k == g {
      LocalCarries(bound, s.entries[g], true, TaskOn(s, g), InTodo(s, g), l);
    }
  }

  lemma ShutdownCarries(bound: nat, s: State, c: CloseStep, g: nat)
    requires Inv(s) && Registered(s, g) && s.entries[g].localHalf && CloseEnabled(s, c)
    ensures Forward(bound, s, ApplyClose(s, c), g, false)
  {
  }

  lemma ReadEndsCarries(bound: nat, s: State, k: nat, ok: bool, g: nat)
    requires TableInv(s) && Registered(s, g) && s.entries[g].localHalf && k in s.entries
    ensures Forward(bound, s, ReadEof(s, k, ok), g, false)
  {
  }

  lemma DialCarries(bound: nat, s: State, id: nat, g: nat)
    requires TableInv(s) && Registered(s, g) && s.entries[g].localHalf && s.dialing > 0
    ensures Forward(bound, s, RegisterDial(s.(dialing := s.dialing - 1), id), g, false)
  {
  }

  lemma ShutWriteCarries(bound: nat, s: State, k: nat, g: nat)
    requires Inv(s) && Registered(s, g) && s.entries[g].localHalf && k in s.entries && s.entries[k].pump == Finishing
    ensures Forward(bound, s, FinishWrite(s, k), g, k == g)
  {
  }

  lemma RemoveCarries(bound: nat, s: State, k: nat, r: Role, g: nat)
    requires TableInv(s) && Registered(s, g) && s.entries[g].localHalf && k in s.entries
    ensures Forward(bound, s, Unregister(s, k, s.entries[k].With(r, MustClose(false))), g, k == g)
  {
  }

  lemma GoroutineCarries(bound: nat, s: State, e: Event, g: nat)
    requires Inv(s) && Registered(s, g) && s.entries[g].localHalf
    requires Enabled(bound, s, e) && (e.Do? || e.ReadEnds? || e.ShutWrite? || e.Remove?)
    ensures Forward(bound, s, Apply(bound, s, e), g, Carries(s, e, g))
  {
    match e {
      case Do(k, l) => DoCarries(bound, s, k, l, g);
      case ReadEnds(k, ok) => ReadEndsCarries(bound, s, k, ok, g);
      case ShutWrite(k) => ShutWriteCarries(bound, s, k, g);
      case Remove(k, r) => RemoveCarries(bound, s, k, r, g);
    }
  }

  lemma FrameCarries(bound: nat, s: State, f: FrameStep, g: nat)
    requires Inv(s) && Registered(s, g) && s.entries[g].localHalf && FrameEnabled(bound, s, f)
    ensures Forward(bound, s, ApplyFrame(bound, s, f), g, Carries(s, Handle(f), g))
  {
    assert GoodIn(s, g);
    HandleCarries(bound, s, f, g);
  }

  lemma StepCarries(bound: nat, s: State, e: Event, g: nat)
    requires Inv(s) && Registered(s, g) && s.entries[g].localHalf
    ensures Forward(bound, s, Step(bound, s, e), g, Enabled(bound, s, e) && Carries(s, e, g))
  {
    if Enabled(bound, s, e) {
      if e.DialDone? {
        DialCarries(bound, s, e.id, g);
      } else if e.Handle? {
        FrameCarries(bound, s, e.f, g);
      } else if e.Shutdown? {
        ShutdownCarries(bound, s, e.c, g);
      } else if e.DialStarts? || e.DialFails? || e.SetupMarks? {
        OtherCarries(bound, s, e, g);
      } else {
        GoroutineCarries(bound, s, e, g);
      }
    } else {
      StandsStill(bound, s, g);
    }
  }

  lemma StandsStill(bound: nat, s: State, g: nat)
    requires Registered(s, g) && s.entries[g].localHalf
    ensures Forward(bound, s, s, g, false)
  {
  }

  lemma OtherCarries(bound: nat, s: State, e: Event, g: nat)
    requires Inv(s) && Registered(s, g) && s.entries[g].localHalf
    requires Enabled(bound, s, e) && (e.DialStarts? || e.DialFails? || e.SetupMarks?)
    ensures Forward(bound, s, Apply(bound, s, e), g, false)
  {
    assert GoodIn(s, g);
  }

  /**
   * Nothing that happens pushes a half-close marker back, and each step that carries it
   * brings it closer to the end, or unregisters the stream.
   */
  lemma {:induction false} MarkerOnlyMovesForward(bound: nat, es: seq<Event>, e: Event, g: nat)
    requires Registered(Exec(bound, es), g) && Exec(bound, es).entries[g].localHalf
    ensures
      Forward(bound, Exec(bound, es), Step(bound, Exec(bound, es), e), g,
              Enabled(bound, Exec(bound, es), e) && Carries(Exec(bound, es), e, g))
  {
    ExecKeeps(bound, es);
    StepCarries(bound, Exec(bound, es), e, g);
  }

  /** While the marker is pending some step that carries it is possible. */
  lemma {:induction false} PendingMarkerMoves(bound: nat, es: seq<Event>, g: nat) returns (e: Event)
    requires Registered(Exec(bound, es), g) && HalfClosePending(Exec(bound, es).entries[g])
    ensures Enabled(bound, Exec(bound, es), e) && Carries(Exec(bound, es), e, g)
  {
    ExecKeeps(bound, es);
    var s := Exec(bound, es);
    assert GoodIn(s, g);
    var x := s.entries[g];
    if x.marker == Refused || x.pump == MustRemove {
      e := Remove(g, Pump);
    } else if x.marker == InHand {
      e := if x.dialer == Marking then Do(g, SetupPushes) else Handle(Push);
    } else if x.marker == InPump {
      e := ShutWrite(g);
    } else {
      e := if x.queue[0] == Marker then Do(g, TakeMarker) else Do(g, WriteOk);
    }
  }

  /** How many of the events of more, run after es, carry the marker of entry g. */
  function Carried(bound: nat, es: seq<Event>, more: seq<Event>, g: nat): nat {
    if more == [] then 0
    else
      var n := |more| - 1;
      var s := Exec(bound, es + more[..n]);
      Carried(bound, es, more[..n], g) + if Enabled(bound, s, more[n]) && Carries(s, more[n], g) then 1 else 0
  }

  /** While entry g stays registered, the carrying steps so far and those still possible fit in rank. */
  predicate Within(bound: nat, t: State, g: nat, remoteHalf: bool, carried: nat, rank: nat) {
    && g in t.entries
    && (Registered(t, g) ==>
          && t.entries[g].localHalf && (remoteHalf ==> t.entries[g].remoteHalf)
          && carried + MarkerRank(bound, t.entries[g]) <= rank)
  }

  lemma WithinStep(bound: nat, t: State, e: Event, g: nat, remoteHalf: bool, carried: nat, rank: nat)
    requires Inv(t) && Within(bound, t, g, remoteHalf, carried, rank)
    ensures Within(bound, Step(bound, t, e), g, remoteHalf,
                   carried + (if Enabled(bound, t, e) && Carries(t, e, g) then 1 else 0), rank)
  {
    RegisteredBefore(bound, t, e, g);
    if Registered(t, g) {
      StepCarries(bound, t, e, g);
    }
  }

  lemma {:induction false} CarriedCounts(bound: nat, es: seq<Event>, more: seq<Event>, g: nat)
    requires Registered(Exec(bound, es), g) && Exec(bound, es).entries[g].localHalf
    ensures
      var x := Exec(bound, es).entries[g];
      Within(bound, Exec(bound, es + more), g, x.remoteHalf, Carried(bound, es, more, g), MarkerRank(bound, x))
  {
    if more == [] {
      assert es + more == es;
    } else {
      var n := |more| - 1;
      var x := Exec(bound, es).entries[g];
      assert (es + more)[..|es + more| - 1] == es + more[..n];
      CarriedCounts(bound, es, more[..n], g);
      ExecKeeps(bound, es + more[..n]);
      WithinStep(bound, Exec(bound, es + more[..n]), more[n], g, x.remoteHalf, Carried(bound, es, more[..n], g),
                 MarkerRank(bound, x));
    }
  }

  /** A known stream that is registered after a step was registered before it. */
  lemma RegisteredBefore(bound: nat, s: State, e: Event, g: nat)
    requires Inv(s) && g in s.entries
    ensures g in Step(bound, s, e).entries && (Registered(Step(bound, s, e), g) ==> Registered(s, g))
  {
    StepOnlyItsOwn(bound, s, e, g);
  }

  /**
   * A registered stream with both halves ended is unregistered after at most MarkerRank carrying steps,
   * whichever they are and whatever happens in between, unless the queue refused its marker: for as long as
   * it is registered fewer such steps were taken, and another one is possible.
   */
  lemma {:induction false} BothHalvesEndTheStream(bound: nat, es: seq<Event>, more: seq<Event>, g: nat)
    requires Registered(Exec(bound, es), g)
    requires Exec(bound, es).entries[g].localHalf && Exec(bound, es).entries[g].remoteHalf
    ensures
      var t := Exec(bound, es + more);
      Registered(t, g) && t.entries[g].marker != Lost ==>
        && Carried(bound, es, more, g) < MarkerRank(bound, Exec(bound, es).entries[g])
        && exists e :: Enabled(bound, t, e) && Carries(t, e, g)
  {
    CarriedCounts(bound, es, more, g);
    var t := Exec(bound, es + more);
    if Registered(t, g) && t.entries[g].marker != Lost {
      BothHalvesMeansPending(bound, es + more, g);
      var e := PendingMarkerMoves(bound, es + more, g);
    }
  }

  /**
   * After Close returned the table is empty, and every connection ever dialed is closed, except one whose
   * queue the frame reader has stopped and which it is about to close.
   */
  lemma {:induction false} CloseLeavesNothingOpen(bound: nat, es: seq<Event>)
    requires Exec(bound, es).closer == Returned
    ensures Exec(bound, es).streams == map[]
    ensures forall g :: g in Exec(bound, es).entries && !Exec(bound, es).entries[g].connClosed ==>
      TaskOn(Exec(bound, es), g) == Stopped
  {
    ExecKeeps(bound, es);
    var s := Exec(bound, es);
    forall g | g in s.entries && !s.entries[g].connClosed ensures TaskOn(s, g) == Stopped {
      assert GoodIn(s, g);
    }
  }

  /** No frame is handled in es. */
  predicate NoFrames(es: seq<Event>) {
    forall i :: 0 <= i < |es| ==> !es[i].Handle?
  }

  lemma OnlyFramesMoveTheHandler(bound: nat, s: State, e: Event)
    requires !e.Handle?
    ensures Step(bound, s, e).handler == s.handler
  {
  }

  lemma {:induction false} HandlerStaysFree(bound: nat, es: seq<Event>, more: seq<Event>)
    requires Exec(bound, es).handler == Free && NoFrames(more)
    ensures Exec(bound, es + more).handler == Free
  {
    if more == [] {
      assert es + more == es;
    } else {
      var n := |more| - 1;
      assert (es + more)[..|es + more| - 1] == es + more[..n];
      HandlerStaysFree(bound, es, more[..n]);
      OnlyFramesMoveTheHandler(bound, Exec(bound, es + more[..n]), more[n]);
    }
  }

  /**
   * When Close is called with no frame being handled and none is handled afterwards, then once it has
   * returned the table is empty and every connection ever dialed is closed.
   */
  lemma {:induction false} CloseAfterTheLastFrame(bound: nat, es: seq<Event>, more: seq<Event>)
    requires Exec(bound, es).closer == NotClosing && Exec(bound, es).handler == Free
    requires NoFrames(more) && Exec(bound, es + more).closer == Returned
    ensures Exec(bound, es + more).streams == map[]
    ensures forall g :: g in Exec(bound, es + more).entries ==> Exec(bound, es + more).entries[g].connClosed
  {
    HandlerStaysFree(bound, es, more);
    CloseLeavesNothingOpen(bound, es + more);
  }

  lemma {:induction false} ReturnedIsFinal(bound: nat, es: seq<Event>, e: Event)
    requires Exec(bound, es).closer == Returned
    ensures Step(bound, Exec(bound, es), e).closer == Returned && Step(bound, Exec(bound, es), e).streams == map[]
  {
    ExecKeeps(bound, es);
    StepKeeps(bound, Exec(bound, es), e);
    CloserFinal(bound, Exec(bound, es), e);
  }

  lemma CloserFinal(bound: nat, s: State, e: Event)
    requires s.closer == Returned
    ensures Step(bound, s, e).closer == Returned
  {
  }

  function Extend(es: seq<Event>, e: Event): seq<Event> {
    es + [e]
  }

  lemma {:induction false} ExtendSteps(bound: nat, es: seq<Event>, e: Event)
    ensures Exec(bound, Extend(es, e)) == Step(bound, Exec(bound, es), e)
  {
    assert Extend(es, e)[..|es|] == es;
  }

  /** A dialed stream whose target has sent its end of stream, and what the frame reader is doing. */
  function Quiet(streams: map<nat, nat>, removals: nat, stopped: bool, pump: Thread): State {
    State(streams,
          map[1 := Entry(7, true, removals, false, true, [], stopped, Unsent, false, Gone, Gone, pump)], 1, false, 0,
          if stopped then Handling(1, Stopped) else Free, NotClosing)
  }

  function Dialed(): Entry {
    Entry(7, true, 0, false, false, [], false, Unsent, false, Busy, Absent, Busy)
  }

  lemma DialSucceeds(bound: nat) returns (es: seq<Event>)
    ensures Exec(bound, es) == State(map[7 := 1], map[1 := Dialed()], 1, false, 0, Free, NotClosing)
  {
    es := Extend([], DialStarts);
    ExtendSteps(bound, [], DialStarts);
    ExtendSteps(bound, es, DialDone(7));
    es := Extend(es, DialDone(7));
  }

  lemma TargetEnds(bound: nat) returns (es: seq<Event>)
    ensures Exec(bound, es) == Quiet(map[7 := 1], 0, false, Busy)
  {
    es := DialSucceeds(bound);
    ExtendSteps(bound, es, Do(1, SetupEnds));
    es := Extend(es, Do(1, SetupEnds));
    var e := Dialed().(dialer := Gone, reader := Busy);
    assert Exec(bound, es).entries == map[1 := e];
    ExtendSteps(bound, es, ReadEnds(1, true));
    es := Extend(es, ReadEnds(1, true));
    assert Exec(bound, es).entries == map[1 := e.(reader := Gone, remoteHalf := true)];
  }

  lemma {:induction false} FrameIsRefused(bound: nat, es: seq<Event>) returns (more: seq<Event>)
    requires Exec(bound, es) == Quiet(map[7 := 1], 0, false, Busy)
    ensures Exec(bound, more) == Quiet(map[7 := 1], 0, false, Busy).(handler := Handling(1, Removing))
  {
    var s := Quiet(map[7 := 1], 0, false, Busy);
    ExtendSteps(bound, es, Handle(DataFrame(7)));
    more := Extend(es, Handle(DataFrame(7)));
    assert Exec(bound, more) == s.(handler := Handling(1, Admitting));
    ExtendSteps(bound, more, Handle(Admit(false)));
    more := Extend(more, Handle(Admit(false)));
  }

  lemma FrameIsRejected(bound: nat) returns (es: seq<Event>)
    ensures Exec(bound, es) == Quiet(map[], 1, true, Gone)
  {
    es := TargetEnds(bound);
    es := FrameIsRefused(bound, es);
    ExtendSteps(bound, es, Handle(Retire));
    es := Extend(es, Handle(Retire));
    assert Exec(bound, es) == Quiet(map[], 1, false, Busy).(handler := Handling(1, Closing));
    ExtendSteps(bound, es, Handle(StopIt));
    es := Extend(es, Handle(StopIt));
    assert Exec(bound, es) == Quiet(map[], 1, true, Busy);
    ExtendSteps(bound, es, Do(1, PumpExits));
    es := Extend(es, Do(1, PumpExits));
  }

  lemma TableDrains(bound: nat) returns (es: seq<Event>)
    ensures Exec(bound, es) == Quiet(map[], 1, true, Gone).(closed := true, closer := ClosingConns({}))
  {
    es := FrameIsRejected(bound);
    var s := Quiet(map[], 1, true, Gone);
    ExtendSteps(bound, es, Shutdown(Begin));
    es := Extend(es, Shutdown(Begin));
    var begun := s.(closer := AwaitingDials);
    assert DrainAll(begun).entries == s.entries && DrainAll(begun).closer.todo == {};
    ExtendSteps(bound, es, Shutdown(Drain));
    es := Extend(es, Shutdown(Drain));
  }

  /** Close does not wait for a frame being handled: called during one, it can return before that ends. */
  lemma CloseCanReturnFirst(bound: nat) returns (es: seq<Event>)
    ensures Exec(bound, es).closer == Returned && 1 in Exec(bound, es).entries && !Exec(bound, es).entries[1].connClosed
  {
    es := TableDrains(bound);
    ExtendSteps(bound, es, Shutdown(Await));
    es := Extend(es, Shutdown(Await));
    ExtendSteps(bound, es, Shutdown(Return));
    es := Extend(es, Shutdown(Return));
  }
}
