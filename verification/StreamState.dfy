/** The per-stream window counters and the byte-bounded frame queue both endpoints are built from. */
module StreamState {
  import opened Bytes
  import opened FlowControl

  datatype Status = Idle | Open | HalfClosedLocal | HalfClosedRemote | Closed | WasReset

  datatype Outcome = Ok | ErrReset | ErrClosed | ErrExhausted | ErrOverflow | ErrTransition

  class StreamState {
    var status: Status
    var sendWindow: nat
    var receiveWindow: nat

    ghost predicate Valid()
      reads this
    {
      sendWindow < U32 && receiveWindow < U32
    }

    /** A zero initial window means the 64 KiB default. */
    constructor (initialWindow: nat)
      requires initialWindow < U32
      ensures Valid() && status == Idle
      ensures sendWindow == receiveWindow == if initialWindow == 0 then 65535 else initialWindow
    {
      status := Idle;
      sendWindow := if initialWindow == 0 then 65535 else initialWindow;
      receiveWindow := if initialWindow == 0 then 65535 else initialWindow;
    }

    method OpenLocal() returns (r: Outcome)
      modifies this`status
      ensures r == if old(status) == Idle then Ok else ErrTransition
      ensures status == if old(status) == Idle then Open else old(status)
    {
      if status != Idle {
        return ErrTransition;
      }
      status := Open;
      return Ok;
    }

    method AddSendWindow(n: nat) returns (r: Outcome)
      requires Valid()
      modifies this`sendWindow
      ensures Valid()
      ensures r.Ok? <==> old(status) != WasReset && old(status) != Closed && old(sendWindow) + n < U32
      ensures sendWindow == if r.Ok? then old(sendWindow) + n else old(sendWindow)
    {
      if status == WasReset { return ErrReset; }
      if status == Closed { return ErrClosed; }
      if sendWindow + n > U32 - 1 { return ErrOverflow; }
      sendWindow := sendWindow + n;
      return Ok;
    }

    method ConsumeSend(n: nat) returns (r: Outcome)
      requires Valid()
      modifies this`sendWindow
      ensures Valid()
      ensures r == if old(status) == WasReset then ErrReset
                   else if old(status) == Closed || old(status) == HalfClosedLocal then ErrClosed
                   else if n > old(sendWindow) then ErrExhausted else Ok
      ensures sendWindow == if r.Ok? then old(sendWindow) - n else old(sendWindow)
    {
      if status == WasReset { return ErrReset; }
      if status == Closed || status == HalfClosedLocal { return ErrClosed; }
      if n > sendWindow { return ErrExhausted; }
      sendWindow := sendWindow - n;
      return Ok;
    }

    method AddReceiveWindow(n: nat) returns (r: Outcome)
      requires Valid()
      modifies this`receiveWindow
      ensures Valid()
      ensures r.Ok? <==> old(status) != WasReset && old(status) != Closed && old(receiveWindow) + n < U32
      ensures receiveWindow == if r.Ok? then old(receiveWindow) + n else old(receiveWindow)
    {
      if status == WasReset { return ErrReset; }
      if status == Closed { return ErrClosed; }
      if receiveWindow + n > U32 - 1 { return ErrOverflow; }
      receiveWindow := receiveWindow + n;
      return Ok;
    }

    /** Charges one inbound DATA frame of n bytes to the receive window. */
    method HandleData(n: nat) returns (r: Outcome)
      requires Valid()
      modifies this`receiveWindow
      ensures Valid()
      ensures r == if old(status) == WasReset then ErrReset
                   else if old(status) in {Closed, HalfClosedRemote, Idle} then ErrClosed
                   else if n > old(receiveWindow) then ErrExhausted else Ok
      ensures receiveWindow == if r.Ok? then old(receiveWindow) - n else old(receiveWindow)
    {
      if status == WasReset { return ErrReset; }
      if status == Closed || status == HalfClosedRemote || status == Idle { return ErrClosed; }
      if n > receiveWindow { return ErrExhausted; }
      receiveWindow := receiveWindow - n;
      return Ok;
    }
  }

  class BoundedFrameQueue {
    var frames: seq<Frame>
    var bytes: nat
    const maxBytes: nat
    var closed: bool

    /** The running byte count is the load of the queued frames and never passes the bound. */
    ghost predicate Valid()
      reads this
    {
      bytes == Load(frames) && bytes <= maxBytes && |frames| <= maxBytes && maxBytes >= 1
    }

    constructor (bound: int)
      ensures Valid() && frames == [] && !closed
      ensures maxBytes == if bound <= 0 then 1 else bound
    {
      frames := [];
      bytes := 0;
      maxBytes := if bound <= 0 then 1 else bound;
      closed := false;
    }

    method TryPush(f: Frame) returns (ok: bool)
      requires Valid()
      modifies this`frames, this`bytes
      ensures Valid()
      ensures ok <==> !closed && QueueAdmits(old(frames), maxBytes, Size(f))
      ensures frames == if ok then old(frames) + [f] else old(frames)
    {
      if closed {
        return false;
      }
      var size := Size(f);
      if bytes + size > maxBytes || |frames| >= maxBytes {
        return false;
      }
      AppendOne(frames, f);
      frames := frames + [f];
      bytes := bytes + size;
      return true;
    }

    method TryPop() returns (f: Frame, ok: bool)
      requires Valid()
      modifies this`frames, this`bytes
      ensures Valid()
      ensures ok <==> old(frames) != []
      ensures ok ==> f == old(frames)[0] && frames == old(frames)[1..]
      ensures !ok ==> frames == old(frames)
    {
      if |frames| == 0 {
        return Fin, false;
      }
      f := frames[0];
      frames := frames[1..];
      bytes := bytes - Size(f);
      return f, true;
    }

    /** Stops accepting frames and keeps the queued ones deliverable. */
    method CloseAfterDrain()
      requires Valid()
      modifies this`closed
      ensures Valid() && closed
    {
      closed := true;
    }

    /** Stops accepting frames and discards the queued ones. */
    method Close()
      requires Valid()
      modifies this
      ensures Valid() && closed && frames == []
    {
      closed := true;
      frames := [];
      bytes := 0;
    }
  }
}
