/** The agent's end of a stream, and the sections of its stream table that run under the mutex. */
module AgentStream {
  import opened Bytes
  import opened FlowControl
  import opened StreamState
  import D = Dispatcher

  /** What one turn of the pump did. */
  datatype Pumped = Nothing | Wrote(n: nat) | ShutWrite | WriteFailed

  class InboundStream {
    const receiveState: StreamState
    const inbound: BoundedFrameQueue
    const threshold: nat
    var receiveUnacked: nat
    var updates: seq<nat>
    var target: seq<Byte>

    ghost predicate Valid()
      reads this, receiveState, inbound
    {
      && receiveState.Valid() && inbound.Valid() && receiveState.status == Open && receiveUnacked < U32
    }

    /** The receiving half, in the terms of the link, between two turns of the pump. */
    ghost function View(): Receiver
      reads this, receiveState, inbound
    {
      Receiver(receiveState.receiveWindow, inbound.frames, [], 0, receiveUnacked, 0, 0)
    }

    constructor (window: nat, bufferBytes: int, updateThreshold: nat)
      requires 0 < window < U32
      ensures Valid() && fresh(receiveState) && fresh(inbound)
      ensures View() == Receiver(window, [], [], 0, 0, 0, 0)
      ensures threshold == updateThreshold && updates == [] && target == [] && !inbound.closed
      ensures inbound.maxBytes == if bufferBytes <= 0 then 1 else bufferBytes
    {
      var state := new StreamState(window);
      var _ := state.OpenLocal();
      receiveState := state;
      inbound := new BoundedFrameQueue(bufferBytes);
      threshold := updateThreshold;
      receiveUnacked, updates, target := 0, [], [];
    }

    /** Charges the window, then offers the queue, exactly as the link admits DATA; a closed queue refuses. */
    method AdmitInbound(payload: seq<Byte>) returns (ok: bool)
      requires Valid()
      modifies receiveState`receiveWindow, inbound`frames, inbound`bytes
      ensures Valid()
      ensures !inbound.closed ==>
        match AdmitData(old(View()), inbound.maxBytes, payload)
        case Admitted(r) => ok && View() == r
        case Refused(r) => !ok && View() == r
      ensures inbound.closed ==> !ok && inbound.frames == old(inbound.frames)
    {
      var charge := receiveState.HandleData(|payload|);
      if !charge.Ok? {
        return false;
      }
      ok := inbound.TryPush(Data(payload));
    }

    /** Queues the half-close marker; a refusal is not reported. */
    method HandleHalfClose()
      requires Valid()
      modifies inbound`frames, inbound`bytes
      ensures Valid()
      ensures !inbound.closed ==>
        match AdmitFin(old(View()), inbound.maxBytes)
        case Admitted(r) => View() == r
        case Refused(r) => View() == r
      ensures inbound.closed ==> View() == old(View())
    {
      var _ := inbound.TryPush(Fin);
    }

    /** Counts n bytes the target took, and returns the credit as one WINDOW_UPDATE when it is due. */
    method ReleaseReceiveWindow(n: nat)
      requires Valid()
      modifies this`receiveUnacked, this`updates, receiveState`receiveWindow
      ensures Valid()
      ensures n == 0 ==> View() == old(View()) && updates == old(updates)
      ensures n > 0 ==>
        var credited := Credit(Release(old(View()).(taken := n), threshold));
        && View() == credited.(announcing := 0)
        && updates == if credited.announcing > 0 then old(updates) + [credited.announcing] else old(updates)
    {
      if n <= 0 {
        return;
      }
      receiveUnacked := (receiveUnacked + n) % U32;
      var remaining := receiveState.receiveWindow;
      var update := 0;
      if ShouldFlush(remaining, receiveUnacked, threshold) {
        update := receiveUnacked;
        receiveUnacked := 0;
      }
      if update == 0 {
        return;
      }
      var grown := receiveState.AddReceiveWindow(update);
      if grown.Ok? {
        updates := updates + [update];
      }
    }

    /**
     * One turn of the writer pump: the next frame goes to the target whole, and its
     * credit is released only then. taken is how much of it the target accepts.
     */
    method PumpOne(taken: nat) returns (r: Pumped)
      requires Valid()
      modifies this`receiveUnacked, this`updates, this`target, receiveState`receiveWindow, inbound`frames, inbound`bytes
      ensures Valid()
      ensures r.Nothing? <==> old(inbound.frames) == []
      ensures r.Nothing? ==> View() == old(View()) && target == old(target)
      ensures !r.Nothing? ==> inbound.frames == old(inbound.frames)[1..]
      ensures r.ShutWrite? <==> old(inbound.frames) != [] && old(inbound.frames)[0] == Fin
      ensures r.WriteFailed? || r.ShutWrite? ==> updates == old(updates) && receiveUnacked == old(receiveUnacked)
      ensures r.Wrote? ==>
        && r.n == Size(old(inbound.frames)[0])
        && target == old(target) + Payload(old(inbound.frames)[0])
        && (r.n > 0 ==>
              View() == Credit(Release(Take(PopFrame(old(View())), r.n), threshold)).(announcing := 0))
    {
      var frame, ok := inbound.TryPop();
      if !ok {
        return Nothing;
      }
      if frame.Fin? {
        return ShutWrite;
      }
      var written := if taken < |frame.payload| then taken else |frame.payload|;
      target := target + frame.payload[..written];
      if written != |frame.payload| {
        return WriteFailed;
      }
      assert frame.payload[..written] == frame.payload;
      ReleaseReceiveWindow(written);
      return Wrote(written);
    }
  }

  /** The stream table. Every method is one section under its mutex. */
  class StreamDispatcher {
    var streams: map<nat, nat>
    var entries: map<nat, D.Entry>
    var generation: nat
    var closed: bool

    ghost function View(): D.State
      reads this
    {
      D.State(streams, entries, generation, closed, 0, D.Free, D.NotClosing)
    }

    constructor ()
      ensures View() == D.Init()
    {
      streams, entries, generation, closed := map[], map[], 0, false;
    }

    /** A dial succeeded. */
    method CompleteDial(id: nat) returns (registered: bool)
      modifies this
      ensures View() == D.RegisterDial(old(View()), id)
      ensures registered <==> !old(closed) && id !in old(streams)
    {
      generation := generation + 1;
      var entry :=
        D.Entry(id, false, 0, false, false, [], false, D.Unsent, false, D.MustClose(false), D.Absent, D.Gone);
      registered := false;
      if !closed {
        if id !in streams {
          registered := true;
          entry := entry.(entered := true, dialer := D.Busy, pump := D.Busy);
          streams := streams[id := generation];
        }
      }
      entries := entries[generation := entry];
    }

    /** The guard and the flag of the half-close path, before the marker is queued. */
    method MarkLocalHalf(id: nat, g: nat) returns (marked: bool)
      requires g in entries && entries[g].id == id
      modifies this`entries
      ensures marked == D.CanMark(old(View()), g)
      ensures View() == if marked then D.Put(old(View()), g, D.Marked(old(entries)[g])) else old(View())
    {
      if id !in streams || streams[id] != g || entries[g].localHalf {
        return false;
      }
      entries := entries[g := entries[g].(localHalf := true, marker := D.InHand)];
      return true;
    }

    /** Removes the stream only if the table still holds this entry. */
    method RemoveLocked(id: nat, g: nat)
      requires g in entries && entries[g].id == id
      modifies this`streams, this`entries
      ensures View() == D.Unregister(old(View()), g, old(entries)[g])
    {
      if id in streams && streams[id] == g {
        streams := streams - {id};
        entries := entries[g := entries[g].(removals := entries[g].removals + 1)];
      }
      assert entries == old(entries)[g := entries[g]];
    }

    /** The pump shut the target's write half. */
    method CloseTargetWriteLocked(id: nat, g: nat) returns (complete: bool)
      requires g in entries && entries[g].id == id
      modifies this`streams, this`entries
      ensures View() == D.FinishWrite(old(View()), g)
      ensures complete == old(entries)[g].remoteHalf
    {
      complete := entries[g].remoteHalf;
      var entry := entries[g].(marker := D.Done, pump := if complete then D.MustClose(false) else D.Busy);
      if complete && id in streams && streams[id] == g {
        streams := streams - {id};
        entry := entry.(removals := entry.removals + 1);
      }
      entries := entries[g := entry];
    }

    /** The target reader saw the end of its stream; the HALF_CLOSE it owes the peer was sent or not. */
    method ReadBackEofLocked(id: nat, g: nat, sendOk: bool) returns (complete: bool)
      requires g in entries && entries[g].id == id
      modifies this`streams, this`entries
      ensures View() == D.ReadEof(old(View()), g, sendOk)
    {
      var stale := id !in streams || streams[id] != g;
      if stale {
        entries := entries[g := entries[g].(reader := D.Gone)];
        return false;
      }
      complete := entries[g].localHalf;
      var next := if !sendOk then D.MustRemove else if complete then D.MustClose(true) else D.Gone;
      entries := entries[g := entries[g].(remoteHalf := true, reader := next)];
      if complete {
        RemoveLocked(id, g);
      }
    }

    /** Empties the table for good and hands every registered entry to the caller to close. */
    method CloseLocked() returns (todo: set<nat>)
      requires forall id :: id in streams ==> streams[id] in entries && entries[streams[id]].id == id
      modifies this
      ensures View() == D.DrainAll(old(View())).(closer := D.NotClosing)
      ensures todo == D.DrainAll(old(View())).closer.todo
    {
      var kept;
      kept, todo := TakeOut(streams, entries, View());
      entries := kept;
      streams := map[];
      closed := true;
    }
  }

  /** Takes every stream out of the table, one at a time, in any order. */
  method TakeOut(streams: map<nat, nat>, entries: map<nat, D.Entry>, ghost before: D.State)
    returns (kept: map<nat, D.Entry>, todo: set<nat>)
    requires before.streams == streams && before.entries == entries
    requires forall id :: id in streams ==> streams[id] in entries && entries[streams[id]].id == id
    ensures kept == D.DrainAll(before).entries && todo == D.DrainAll(before).closer.todo
  {
    var left := streams;
    kept, todo := entries, {};
    DrainStarts(before);
    while left != map[]
      invariant Draining(before, left, kept, todo)
      decreases |left|
    {
      var id :| id in left;
      var g := left[id];
      DrainOne(before, left, kept, todo, id);
      kept := kept[g := D.Removed(kept[g], true)];
      left := left - {id};
      todo := todo + {g};
    }
    DrainedAll(before, kept, todo);
  }

  /** The table part-way through being emptied: todo is what has been taken out. */
  ghost predicate Draining(before: D.State, streams: map<nat, nat>, entries: map<nat, D.Entry>, todo: set<nat>) {
    && (forall id :: id in streams ==> D.Registered(before, streams[id]) && before.entries[streams[id]].id == id)
    && entries.Keys == before.entries.Keys
    && (forall g :: g in todo <==> D.Registered(before, g) && before.entries[g].id !in streams)
    && (forall g :: g in entries ==> entries[g] == D.Removed(before.entries[g], g in todo))
  }

  lemma DrainStarts(before: D.State)
    requires forall id :: id in before.streams ==>
      before.streams[id] in before.entries && before.entries[before.streams[id]].id == id
    ensures Draining(before, before.streams, before.entries, {})
  {
  }

  lemma DrainOne(before: D.State, streams: map<nat, nat>, entries: map<nat, D.Entry>, todo: set<nat>, id: nat)
    requires Draining(before, streams, entries, todo) && id in streams
    ensures streams[id] in entries
    ensures
      var g := streams[id];
      Draining(before, streams - {id}, entries[g := D.Removed(entries[g], true)], todo + {g})
    ensures |streams - {id}| < |streams|
  {
  }

  lemma DrainedAll(before: D.State, entries: map<nat, D.Entry>, todo: set<nat>)
    requires Draining(before, map[], entries, todo)
    ensures entries == D.DrainAll(before).entries && todo == D.DrainAll(before).closer.todo
  {
  }
}
