/** The client's end of a stream: chunked writes, credited reads and once-only termination. */
module ClientStream {
  import opened Bytes
  import opened FlowControl
  import opened StreamState

  datatype Terminal = Running | Eof | Failed

  datatype ReadResult = Bytes(data: seq<Byte>) | End(reason: Terminal) | WouldBlock

  /** A write cut into frames: full frames first, the remainder last. */
  function Chunks(p: seq<Byte>): seq<Frame> {
    if p == [] then []
    else if |p| <= MAX_STREAM_FRAME then [Data(p)]
    else [Data(p[..MAX_STREAM_FRAME])] + Chunks(p[MAX_STREAM_FRAME..])
  }

  lemma {:induction false} ChunksAreTheWrite(p: seq<Byte>)
    ensures Text(Chunks(p)) == p
    ensures forall i :: 0 <= i < |Chunks(p)| ==>
      Chunks(p)[i].Data? && 1 <= |Chunks(p)[i].payload| <= MAX_STREAM_FRAME
    ensures forall i :: 0 <= i < |Chunks(p)| - 1 ==> Chunks(p)[i].Data? && |Chunks(p)[i].payload| == MAX_STREAM_FRAME
  {
    if p != [] && |p| <= MAX_STREAM_FRAME {
      assert [Data(p)][1..] == [];
    } else if p != [] {
      ChunksAreTheWrite(p[MAX_STREAM_FRAME..]);
      assert Chunks(p)[1..] == Chunks(p[MAX_STREAM_FRAME..]);
      assert p == p[..MAX_STREAM_FRAME] + p[MAX_STREAM_FRAME..];
    }
  }

  /** The first k frames of a write carry exactly its first `written` bytes. */
  predicate IsPrefixWrite(p: seq<Byte>, k: nat, written: nat) {
    written <= |p| && k <= |Chunks(p)| && Text(Chunks(p)[..k]) == p[..written]
  }

  class FrameStream {
    const flow: StreamState
    const readQueue: BoundedFrameQueue
    const threshold: nat
    var readBuf: seq<Byte>
    var err: Terminal
    var receiveUnacked: nat
    var outbound: seq<Frame>
    var updates: seq<nat>
    /** RESET frames sent for this stream. */
    var resets: nat
    /** Whether the session's table still holds the stream. */
    var listed: bool

    ghost predicate Valid()
      reads this, flow, readQueue
    {
      && flow.Valid() && readQueue.Valid()
      && flow.status == Open && !readQueue.closed
      && receiveUnacked < U32
    }

    /** The receiving half, in the terms of the link. */
    ghost function View(): Receiver
      reads this, flow, readQueue
    {
      Receiver(flow.receiveWindow, readQueue.frames, readBuf, 0, receiveUnacked, 0, 0)
    }

    constructor (initialWindow: nat, inboundBytes: int, updateThreshold: nat)
      requires initialWindow < U32
      ensures Valid() && fresh(flow) && fresh(readQueue)
      ensures err == Running && outbound == [] && updates == [] && resets == 0 && listed && threshold == updateThreshold
      ensures readQueue.maxBytes == if inboundBytes <= 0 then 1 else inboundBytes
      ensures var w := if initialWindow == 0 then 65535 else initialWindow;
              flow.sendWindow == w && View() == Receiver(w, [], [], 0, 0, 0, 0)
    {
      var state := new StreamState(initialWindow);
      var _ := state.OpenLocal();
      flow := state;
      readQueue := new BoundedFrameQueue(inboundBytes);
      threshold := updateThreshold;
      readBuf, err, receiveUnacked, outbound, updates := [], Running, 0, [], [];
      resets, listed := 0, true;
    }

    method Finish(reason: Terminal)
      requires Valid()
      modifies this`err
      ensures Valid() && err == if old(err) == Running then reason else old(err)
    {
      if err == Running {
        err := reason;
      }
    }

    /** Ends the stream with an error, tells the peer, and takes the stream out of the session's table. */
    method Abort()
      requires Valid() && err == Running
      modifies this`err, this`resets, this`listed
      ensures Valid() && err == Failed && resets == old(resets) + 1 && !listed
    {
      Finish(Failed);
      resets := resets + 1;
      listed := false;
    }

    /**
     * One DATA frame from the receive loop: admitted by the window and the queue, or the end of the
     * stream, announced to the peer by one RESET and removed from the session.
     */
    method Push(p: seq<Byte>)
      requires Valid()
      modifies this`err, this`resets, this`listed, flow, readQueue
      ensures Valid()
      ensures old(err) != Running ==>
        View() == old(View()) && err == old(err) && resets == old(resets) && listed == old(listed)
      ensures old(err) == Running ==>
        match AdmitData(old(View()), readQueue.maxBytes, p)
        case Admitted(r) => View() == r && err == Running && resets == old(resets) && listed == old(listed)
        case Refused(r) => View() == r && err == Failed && resets == old(resets) + 1 && !listed
    {
      if err != Running {
        return;
      }
      var charge := flow.HandleData(|p|);
      if !charge.Ok? {
        Abort();
        return;
      }
      var pushed := readQueue.TryPush(Data(p));
      if !pushed {
        Abort();
      }
    }

    /** Counts n consumed bytes, and returns the credit as one WINDOW_UPDATE when it is due. */
    method ReleaseReceiveWindow(n: nat)
      requires Valid()
      modifies this`receiveUnacked, this`updates, flow`receiveWindow
      ensures Valid()
      ensures n == 0 ==> View() == old(View()) && updates == old(updates)
      ensures n > 0 ==>
        var credited := Credit(Release(old(View()).(taken := n), threshold));
        && View() == credited.(announcing := 0)
        && updates == if credited.announcing > 0 then old(updates) + [credited.announcing] else old(updates)
    {
      if n <= 0 {
        return;
      }
      receiveUnacked := (receiveUnacked + n) % U32;
      var remaining := flow.receiveWindow;
      var update := 0;
      if ShouldFlush(remaining, receiveUnacked, threshold) {
        update := receiveUnacked;
        receiveUnacked := 0;
      }
      if update == 0 {
        return;
      }
      var grown := flow.AddReceiveWindow(update);
      if grown.Ok? {
        updates := updates + [update];
      }
    }

    /** Bytes accepted from the peer and not yet returned by Read. */
    ghost function Unread(): seq<Byte>
      reads this, readQueue
    {
      readBuf + Text(readQueue.frames)
    }

    /**
     * One Read with nothing else running: it returns the next accepted bytes, skips
     * empty frames, and reports the end only after every accepted byte was returned.
     */
    method Read(capacity: nat) returns (r: ReadResult)
      requires Valid()
      modifies this`readBuf, this`receiveUnacked, this`updates, flow`receiveWindow, readQueue`frames, readQueue`bytes
      ensures Valid()
      ensures r.Bytes? <==> capacity == 0 || old(Unread()) != []
      ensures r.Bytes? ==> |r.data| <= capacity && old(Unread()) == r.data + Unread() && (capacity > 0 ==> r.data != [])
      ensures r.End? ==> r.reason == err != Running && Unread() == []
      ensures r.WouldBlock? ==> err == Running && Unread() == []
    {
      if capacity == 0 {
        return Bytes([]);
      }
      var more := Fill();
      if !more {
        return if err != Running then End(err) else WouldBlock;
      }
      var n := if capacity < |readBuf| then capacity else |readBuf|;
      ghost var before, frames := readBuf, readQueue.frames;
      r := Bytes(readBuf[..n]);
      readBuf := readBuf[n..];
      ReleaseReceiveWindow(n);
      assert before == before[..n] + before[n..];
      Assoc(before[..n], before[n..], Text(frames));
    }

    /** Pops frames into the empty buffer until one holds bytes; false means the queue ran dry. */
    method Fill() returns (more: bool)
      requires Valid()
      modifies this`readBuf, readQueue`frames, readQueue`bytes
      ensures Valid() && Unread() == old(Unread()) && (more <==> readBuf != []) && (!more ==> Unread() == [])
    {
      while |readBuf| == 0
        invariant Valid()
        invariant Unread() == old(Unread())
        decreases |readQueue.frames|, |readBuf| == 0
      {
        var f, ok := readQueue.TryPop();
        if !ok {
          return false;
        }
        if Size(f) > 0 {
          readBuf := readBuf + f.payload;
        }
      }
      return true;
    }

    /**
     * Reserves size bytes of credit. arrivals are the WINDOW_UPDATE frames that reach
     * the stream while it waits; running out of them is the stream ending first.
     */
    method WaitForSendWindow(size: nat, arrivals: seq<nat>) returns (ok: bool, used: nat)
      requires Valid()
      modifies flow`sendWindow
      ensures Valid()
      ensures used <= |arrivals|
      ensures ok ==> flow.sendWindow + size == old(flow.sendWindow) + Sum(arrivals[..used])
      ensures !ok ==> flow.sendWindow < size || used < |arrivals|
      ensures old(flow.sendWindow) + Sum(arrivals) >= size && old(flow.sendWindow) + Sum(arrivals) < U32 ==> ok
    {
      used := 0;
      while true
        invariant used <= |arrivals| && Valid()
        invariant flow.sendWindow == old(flow.sendWindow) + Sum(arrivals[..used])
        decreases |arrivals| - used
      {
        var spent := flow.ConsumeSend(size);
        if spent.Ok? {
          return true, used;
        }
        if used == |arrivals| {
          assert arrivals[..used] == arrivals;
          return false, used;
        }
        assert arrivals[..used + 1] == arrivals[..used] + [arrivals[used]];
        assert arrivals == arrivals[..used + 1] + arrivals[used + 1..];
        SumAppend(arrivals[..used], [arrivals[used]]);
        SumAppend(arrivals[..used + 1], arrivals[used + 1..]);
        assert [arrivals[used]][1..] == [];
        var added := flow.AddSendWindow(arrivals[used]);
        if !added.Ok? {
          return false, used;
        }
        used := used + 1;
      }
    }

    /**
     * Writes p as frames, spending credit before each one. room is how many frames
     * the session still takes. Whatever stops it, the frames sent are the first
     * `written` bytes of p, cut as Chunks cuts them, and only a complete write is a success.
     */
    method Write(p: seq<Byte>, arrivals: seq<nat>, room: nat) returns (written: nat, ok: bool)
      requires Valid()
      modifies this`outbound, flow`sendWindow
      ensures Valid()
      ensures written <= |p| && (ok ==> written == |p|) && (err != Failed && !ok ==> written < |p|)
      ensures err == Failed && p != [] ==> !ok && written == 0
      ensures exists k: nat :: IsPrefixWrite(p, k, written) && outbound == old(outbound) + Chunks(p)[..k]
    {
      written := 0;
      assert Chunks(p)[..0] == [] && IsPrefixWrite(p, 0, 0);
      if |p| == 0 {
        return 0, true;
      }
      if err == Failed {
        return 0, false;
      }
      var left := arrivals;
      var slots := room;
      ghost var k: nat := 0;
      assert p[0..] == p;
      while written < |p|
        invariant Valid() && err == old(err)
        invariant IsPrefixWrite(p, k, written)
        invariant outbound == old(outbound) + Chunks(p)[..k]
        invariant Chunks(p)[k..] == Chunks(p[written..])
      {
        var size := |p| - written;
        if size > MAX_STREAM_FRAME {
          size := MAX_STREAM_FRAME;
        }
        var credited, used := WaitForSendWindow(size, left);
        if !credited {
          return written, false;
        }
        left := left[used..];
        if slots == 0 {
          return written, false;
        }
        slots := slots - 1;
        var frame := Data(p[written..written + size]);
        NextChunk(p, written, k, size);
        outbound := outbound + [frame];
        written := written + size;
        k := k + 1;
      }
      return written, true;
    }
  }

  /** The first frame of what is left, and what is left after it. */
  lemma FirstChunk(rest: seq<Byte>, size: nat)
    requires rest != [] && size == if |rest| > MAX_STREAM_FRAME then MAX_STREAM_FRAME else |rest|
    ensures Chunks(rest) == [Data(rest[..size])] + Chunks(rest[size..])
  {
    if size == |rest| {
      assert rest[..size] == rest && rest[size..] == [];
    }
  }

  /** The frame a write sends next is the next chunk of the whole write. */
  lemma NextChunk(p: seq<Byte>, written: nat, k: nat, size: nat)
    requires written < |p| && k <= |Chunks(p)|
    requires size == if |p| - written > MAX_STREAM_FRAME then MAX_STREAM_FRAME else |p| - written
    requires Text(Chunks(p)[..k]) == p[..written]
    requires Chunks(p)[k..] == Chunks(p[written..])
    ensures k < |Chunks(p)| && Chunks(p)[k] == Data(p[written..written + size])
    ensures Chunks(p)[..k + 1] == Chunks(p)[..k] + [Data(p[written..written + size])]
    ensures Text(Chunks(p)[..k + 1]) == p[..written + size]
    ensures Chunks(p)[k + 1..] == Chunks(p[written + size..])
  {
    var rest, all := p[written..], Chunks(p);
    FirstChunk(rest, size);
    assert rest[..size] == p[written..written + size] && rest[size..] == p[written + size..];
    assert all[k] == all[k..][0] && all[k + 1..] == all[k..][1..];
    AppendOne(all[..k], Data(rest[..size]));
    assert p[..written + size] == p[..written] + rest[..size];
  }
}
