/** The sections of the serial interface driver that run with interrupts locked, on its ring buffers. */
module SerialPort {
  import opened Ring
  import opened SerialProtocol

  class SerialPort {
    const sendBuffer: array<char>
    const receiveBuffer: array<char>

    var sendReadPointer: nat
    var sendWritePointer: nat
    var sendCount: nat
    var sendStopped: bool
    var receiveReadPointer: nat
    var receiveWritePointer: nat
    var receiveCount: nat
    var receiveStopped: bool
    var receiveFlowControl: Option<char>

    /** The counts of the two semaphores, and what has gone out. */
    var sendSemaphore: nat
    var receiveSemaphore: nat
    ghost var wire: seq<Sent>

    ghost predicate Valid()
      reads this, sendBuffer, receiveBuffer
    {
      && sendBuffer != receiveBuffer
      && InRing(sendBuffer[..], sendReadPointer, sendWritePointer, sendCount)
      && InRing(receiveBuffer[..], receiveReadPointer, receiveWritePointer, receiveCount)
    }

    ghost function State(): Port
      requires Valid()
      reads this, sendBuffer, receiveBuffer
    {
      Port(sendBuffer.Length, receiveBuffer.Length, Entries(sendBuffer[..], sendReadPointer, sendCount),
           Entries(receiveBuffer[..], receiveReadPointer, receiveCount), sendStopped, receiveStopped,
           receiveFlowControl, wire, sendSemaphore, receiveSemaphore)
    }

    constructor (sendBufferSize: nat, receiveBufferSize: nat)
      requires sendBufferSize > 0 && receiveBufferSize > 0
      ensures Valid() && State() == Port(sendBufferSize, receiveBufferSize, [], [], false, false, None, [], 1, 0)
      ensures fresh(sendBuffer) && fresh(receiveBuffer)
    {
      sendBuffer := new char[sendBufferSize];
      receiveBuffer := new char[receiveBufferSize];
      sendReadPointer, sendWritePointer, sendCount, sendStopped := 0, 0, 0, false;
      receiveReadPointer, receiveWritePointer, receiveCount, receiveStopped := 0, 0, 0, false;
      receiveFlowControl := None;
      sendSemaphore, receiveSemaphore, wire := 1, 0, [];
    }

    /** A character goes into the send buffer, or straight out; the answer is whether the buffer is full. */
    method WriteChar(c: char, accepted: bool) returns (bufferFull: bool)
      requires Valid() && sendCount < sendBuffer.Length
      modifies `sendWritePointer, `sendCount, `wire, sendBuffer
      ensures Valid() && (State(), bufferFull) == Put(old(State()), c, accepted)
    {
      if sendCount == 0 && !sendStopped && accepted {
        wire := wire + [Data(c)];
        bufferFull := false;
      } else {
        Append(c);
        bufferFull := sendCount == sendBuffer.Length;
      }
    }

    /** A character goes into the send buffer. */
    method Append(c: char)
      requires Valid() && sendCount < sendBuffer.Length
      modifies `sendWritePointer, `sendCount, sendBuffer
      ensures Valid() && State() == old(State()).(send := old(State()).send + [c])
    {
      Pushed(sendBuffer[..], sendReadPointer, sendWritePointer, sendCount, c);
      ghost var buf := sendBuffer[..][sendWritePointer := c];
      sendBuffer[sendWritePointer] := c;
      assert sendBuffer[..] == buf;
      sendWritePointer := Inc(sendWritePointer, sendBuffer.Length);
      sendCount := sendCount + 1;
    }

    method SendFlow(c: char, accepted: bool)
      requires Valid()
      modifies `receiveFlowControl, `wire
      ensures Valid() && State() == SerialProtocol.SendFlow(old(State()), c, accepted)
    {
      if accepted {
        wire := wire + [Flow(c)];
      } else {
        receiveFlowControl := Some(c);
      }
    }

    /** A character is taken from the receive buffer, and the other side may send again when half of it is
        free. */
    method ReadChar(accepted: bool) returns (c: char, bufferEmpty: bool)
      requires Valid() && receiveCount > 0
      modifies `receiveReadPointer, `receiveCount, `receiveStopped, `receiveFlowControl, `wire
      ensures Valid() && c == old(State()).recv[0] && (State(), bufferEmpty) == Get(old(State()), accepted)
    {
      c := TakeReceived();
      bufferEmpty := receiveCount == 0;
      if receiveStopped && receiveCount <= BufcntStart(receiveBuffer.Length) {
        SendFlow(FC_START, accepted);
        receiveStopped := false;
      }
    }

    method TakeReceived() returns (c: char)
      requires Valid() && receiveCount > 0
      modifies `receiveReadPointer, `receiveCount
      ensures Valid() && c == old(State()).recv[0] && State() == old(State()).(recv := old(State()).recv[1..])
    {
      Popped(receiveBuffer[..], receiveReadPointer, receiveWritePointer, receiveCount);
      c := receiveBuffer[receiveReadPointer];
      receiveReadPointer := Inc(receiveReadPointer, receiveBuffer.Length);
      receiveCount := receiveCount - 1;
    }

    /** The first character of the send buffer goes out. */
    method SendNext()
      requires Valid() && sendCount > 0
      modifies `sendReadPointer, `sendCount, `sendSemaphore, `wire
      ensures Valid() && State() == SendFirst(old(State()))
    {
      Popped(sendBuffer[..], sendReadPointer, sendWritePointer, sendCount);
      wire := wire + [Data(sendBuffer[sendReadPointer])];
      sendReadPointer := Inc(sendReadPointer, sendBuffer.Length);
      if sendCount == sendBuffer.Length {
        sendSemaphore := sendSemaphore + 1;
      }
      sendCount := sendCount - 1;
    }

    method ReadySend()
      requires Valid()
      modifies `sendReadPointer, `sendCount, `sendSemaphore, `receiveFlowControl, `wire
      ensures Valid() && State() == SerialProtocol.ReadySend(old(State()))
    {
      if receiveFlowControl != None {
        wire := wire + [Flow(receiveFlowControl.value)];
        receiveFlowControl := None;
      } else if !sendStopped && sendCount > 0 {
        SendNext();
      }
    }

    /** Sending is resumed: the buffer is emptied for as long as the hardware takes characters. */
    method Resume(accepts: seq<bool>)
      requires Valid()
      modifies `sendStopped, `sendReadPointer, `sendCount, `sendSemaphore, `wire
      ensures Valid() && State() == Drain(old(State()).(sendStopped := false), accepts)
    {
      sendStopped := false;
      ghost var p := State();
      var i := 0;
      assert accepts[0..] == accepts;
      while sendCount > 0
        invariant 0 <= i <= |accepts| && Valid() && Drain(State(), accepts[i..]) == Drain(p, accepts)
        decreases sendCount
      {
        if i < |accepts| && accepts[i] {
          SendNext();
          assert accepts[i..][1..] == accepts[i + 1..];
          i := i + 1;
        } else {
          break;
        }
      }
    }

    method ReadyReceive(c: char, io: Control, accepts: seq<bool>)
      requires Valid()
      modifies this, receiveBuffer
      ensures Valid() && State() == SerialProtocol.ReadyReceive(old(State()), c, io, accepts)
    {
      if io.fcsnd && c == FC_STOP {
        sendStopped := true;
      } else if sendStopped && (c == FC_START || io.fcany) {
        Resume(accepts);
      } else if io.fcsnd && c == FC_START {
      } else if receiveCount == receiveBuffer.Length {
      } else {
        Accept(c, io.fcrcv, accepts != [] && accepts[0]);
      }
    }

    /** The character is stored, and the other side is stopped when three quarters of the buffer are in use. */
    method Accept(c: char, fcrcv: bool, accepted: bool)
      requires Valid() && receiveCount < receiveBuffer.Length
      modifies this, receiveBuffer
      ensures Valid()
      ensures var p := old(State());
        var p1 := p.(recv := p.recv + [c], recvTok := p.recvTok + (if p.recv == [] then 1 else 0));
        State() == if fcrcv && !p.recvStopped && |p1.recv| >= BufcntStop(p.recvSize)
                   then SerialProtocol.SendFlow(p1.(recvStopped := true), FC_STOP, accepted) else p1
    {
      Store(c);
      ghost var p1 := State();
      if fcrcv && !receiveStopped && receiveCount >= BufcntStop(receiveBuffer.Length) {
        SendFlow(FC_STOP, accepted);
        receiveStopped := true;
        assert State() == SerialProtocol.SendFlow(p1, FC_STOP, accepted).(recvStopped := true);
      }
    }

    /** A received character goes into the receive buffer. */
    method Store(c: char)
      requires Valid() && receiveCount < receiveBuffer.Length
      modifies `receiveWritePointer, `receiveCount, `receiveSemaphore, receiveBuffer
      ensures Valid()
      ensures var p := old(State());
        State() == p.(recv := p.recv + [c], recvTok := p.recvTok + (if p.recv == [] then 1 else 0))
    {
      Pushed(receiveBuffer[..], receiveReadPointer, receiveWritePointer, receiveCount, c);
      ghost var buf := receiveBuffer[..][receiveWritePointer := c];
      receiveBuffer[receiveWritePointer] := c;
      assert receiveBuffer[..] == buf;
      receiveWritePointer := Inc(receiveWritePointer, receiveBuffer.Length);
      if receiveCount == 0 {
        receiveSemaphore := receiveSemaphore + 1;
      }
      receiveCount := receiveCount + 1;
    }
  }
}
