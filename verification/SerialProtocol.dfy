/** The serial interface driver as a system of tasks and callbacks that share two buffers and two
    semaphores.

    Each step is one section that runs with interrupts locked, one semaphore operation or one callback. The
    semaphores are used as tokens: whoever has the send token may put one character into the send buffer,
    and keeps the token unless the buffer is full then; a callback that takes the first character out of a
    full buffer gives the token back. The receive buffer mirrors this.
  */
module SerialProtocol {

  datatype Option<+T> = None | Some(value: T)

  const FC_STOP: char := '\U{13}'
  const FC_START: char := '\U{11}'

  function BufcntStop(size: nat): nat { size * 3 / 4 }

  function BufcntStart(size: nat): nat { size / 2 }

  /** What goes out on the line: data, or a character of the flow control. */
  datatype Sent = Data(c: char) | Flow(c: char)

  datatype Port = Port(sendSize: nat, recvSize: nat, send: seq<char>, recv: seq<char>, sendStopped: bool,
                       recvStopped: bool, flow: Option<char>, wire: seq<Sent>, sendTok: nat, recvTok: nat)

  /** Where a task is. A writer has `rest` still to write and holds the token unless `full`; with `crDone` it
      has put the carriage return that precedes the line feed `rest[0]`. A reader wants `left` more
      characters and holds the token unless `empty`. */
  datatype Task =
    | Idle
    | Writer(text: seq<char>, put: seq<char>, rest: seq<char>, full: bool, crDone: bool)
    | Reader(left: nat, empty: bool)

  datatype System = System(port: Port, tasks: seq<Task>, written: seq<char>, stored: seq<char>, fetched: seq<char>)

  // ---------- the sections that run with interrupts locked ----------

  /** `serialPort_sendChar` for flow control: sent at once, or later by the callback. */
  function SendFlow(p: Port, c: char, accepted: bool): Port {
    if accepted then p.(wire := p.wire + [Flow(c)]) else p.(flow := Some(c))
  }

  /** The locked section of `serialPort_writeChar`; `accepted` is the answer of the hardware. */
  function Put(p: Port, c: char, accepted: bool): (Port, bool) {
    if p.send == [] && !p.sendStopped && accepted then (p.(wire := p.wire + [Data(c)]), false)
    else
      var send := p.send + [c];
      (p.(send := send), |send| == p.sendSize)
  }

  /** The locked section of `serialPort_readChar`. */
  function Get(p: Port, accepted: bool): (Port, bool)
    requires p.recv != []
  {
    var p1 := p.(recv := p.recv[1..]);
    (if p.recvStopped && |p1.recv| <= BufcntStart(p.recvSize) then SendFlow(p1.(recvStopped := false), FC_START, accepted) else p1,
     p1.recv == [])
  }

  /** The first character of the send buffer goes out; a full buffer is so no more, and the token is free. */
  function SendFirst(p: Port): Port
    requires p.send != []
  {
    p.(wire := p.wire + [Data(p.send[0])], send := p.send[1..],
       sendTok := p.sendTok + (if |p.send| == p.sendSize then 1 else 0))
  }

  function ReadySend(p: Port): Port {
    if p.flow.Some? then p.(wire := p.wire + [Flow(p.flow.value)], flow := None)
    else if !p.sendStopped && p.send != [] then SendFirst(p)
    else p
  }

  /** Characters go out for as long as the hardware takes them. */
  function Drain(p: Port, accepts: seq<bool>): Port
    decreases |accepts|
  {
    if p.send == [] || accepts == [] || !accepts[0] then p else Drain(SendFirst(p), accepts[1..])
  }

  /** Which flow control is switched on. */
  datatype Control = Control(fcsnd: bool, fcany: bool, fcrcv: bool)

  function ReadyReceive(p: Port, c: char, io: Control, accepts: seq<bool>): Port {
    if io.fcsnd && c == FC_STOP then p.(sendStopped := true)
    else if p.sendStopped && (c == FC_START || io.fcany) then Drain(p.(sendStopped := false), accepts)
    else if io.fcsnd && c == FC_START then p
    else if |p.recv| == p.recvSize then p
    else
      var p1 := p.(recv := p.recv + [c], recvTok := p.recvTok + (if p.recv == [] then 1 else 0));
      if io.fcrcv && !p.recvStopped && |p1.recv| >= BufcntStop(p.recvSize)
      then SendFlow(p1.(recvStopped := true), FC_STOP, accepts != [] && accepts[0])
      else p1
  }

  /** Whether the character goes into the receive buffer. */
  predicate Kept(p: Port, c: char, io: Control) {
    && !(io.fcsnd && c == FC_STOP) && !(p.sendStopped && (c == FC_START || io.fcany))
    && !(io.fcsnd && c == FC_START) && |p.recv| != p.recvSize
  }

  // ---------- steps ----------

  datatype Step =
    | StartWrite(t: nat, text: seq<char>)
    | StartRead(t: nat, length: nat)
    | Wait(t: nat, ok: bool)
    | PutChar(t: nat, crlf: bool, accepted: bool)
    | GetChar(t: nat, accepted: bool)
    | Finish(t: nat)
    | SendReady
    | ReceiveReady(c: char, io: Control, accepts: seq<bool>)

  function TaskAt(s: System, t: nat): Task { if t < |s.tasks| then s.tasks[t] else Idle }

  function SetTask(s: System, t: nat, x: Task): System {
    if t < |s.tasks| then s.(tasks := s.tasks[t := x]) else s
  }

  /** A step that its task cannot take now changes nothing. */
  function Next(s: System, e: Step): System {
    var p := s.port;
    match e
    case StartWrite(t, text) => if TaskAt(s, t).Idle? then SetTask(s, t, Writer(text, [], text, true, false)) else s
    case StartRead(t, length) => if TaskAt(s, t).Idle? then SetTask(s, t, Reader(length, true)) else s
    case Wait(t, ok) => NextWait(s, t, ok)
    case PutChar(t, crlf, accepted) => NextPut(s, t, crlf, accepted)
    case GetChar(t, accepted) =>
      if t < |s.tasks| && s.tasks[t].Reader? && !s.tasks[t].empty && s.tasks[t].left > 0 && p.recv != []
      then
        var (p1, empty) := Get(p, accepted);
        SetTask(s.(port := p1, fetched := s.fetched + [p.recv[0]]), t, Reader(s.tasks[t].left - 1, empty))
      else s
    case Finish(t) => NextFinish(s, t)
    case SendReady => s.(port := ReadySend(p))
    case ReceiveReady(c, io, accepts) =>
      s.(port := ReadyReceive(p, c, io, accepts), stored := if Kept(p, c, io) then s.stored + [c] else s.stored)
  }

  /** A semaphore is waited for: the token is taken when there is one. A wait that fails ends the call, which
      holds no token then. */
  function NextWait(s: System, t: nat, ok: bool): System {
    var p := s.port;
    match TaskAt(s, t)
    case Writer(text, put, rest, true, crDone) =>
      if rest == [] then s
      else if !ok then SetTask(s, t, Idle)
      else if p.sendTok > 0 then SetTask(s.(port := p.(sendTok := p.sendTok - 1)), t, Writer(text, put, rest, false, crDone))
      else s
    case Reader(left, true) =>
      if left == 0 then s
      else if !ok then SetTask(s, t, Idle)
      else if p.recvTok > 0 then SetTask(s.(port := p.(recvTok := p.recvTok - 1)), t, Reader(left, false))
      else s
    case _ => s
  }

  /** One character: the line feed, or, with `crlf` on, first the carriage return before it. */
  function NextPut(s: System, t: nat, crlf: bool, accepted: bool): System {
    match TaskAt(s, t)
    case Writer(text, put, rest, false, crDone) =>
      if rest == [] then s
      else if rest[0] == '\n' && crlf && !crDone then
        var (p1, full) := Put(s.port, '\r', accepted);
        SetTask(s.(port := p1, written := s.written + ['\r']), t, Writer(text, put + ['\r'], rest, full, true))
      else
        var (p1, full) := Put(s.port, rest[0], accepted);
        SetTask(s.(port := p1, written := s.written + [rest[0]]), t, Writer(text, put + [rest[0]], rest[1..], full, false))
    case _ => s
  }

  /** The call is over; a token still held is given back. */
  function NextFinish(s: System, t: nat): System {
    var p := s.port;
    match TaskAt(s, t)
    case Writer(_, _, rest, full, _) =>
      if rest != [] then s
      else SetTask(if full then s else s.(port := p.(sendTok := p.sendTok + 1)), t, Idle)
    case Reader(left, empty) =>
      if left != 0 then s
      else SetTask(if empty then s else s.(port := p.(recvTok := p.recvTok + 1)), t, Idle)
    case _ => s
  }

  function Run(s: System, es: seq<Step>): System
    decreases |es|
  {
    if es == [] then s else Next(Run(s, es[..|es| - 1]), es[|es| - 1])
  }

  predicate Initial(s: System) {
    && s.port.sendSize > 0 && s.port.recvSize > 0 && s.port.send == [] && s.port.recv == [] && s.port.wire == []
    && s.port.sendTok == 1 && s.port.recvTok == 0
    && (forall t :: 0 <= t < |s.tasks| ==> s.tasks[t] == Idle)
    && s.written == [] && s.stored == [] && s.fetched == []
  }

  // ---------- the token laws ----------

  predicate HoldsSend(x: Task) { x.Writer? && !x.full }

  predicate HoldsRecv(x: Task) { x.Reader? && !x.empty }

  function Senders(tasks: seq<Task>): nat {
    if tasks == [] then 0 else (if HoldsSend(tasks[0]) then 1 else 0) + Senders(tasks[1..])
  }

  function Receivers(tasks: seq<Task>): nat {
    if tasks == [] then 0 else (if HoldsRecv(tasks[0]) then 1 else 0) + Receivers(tasks[1..])
  }

  lemma {:induction false} SendersAfter(tasks: seq<Task>, t: nat, x: Task)
    requires t < |tasks|
    ensures Senders(tasks[t := x]) + (if HoldsSend(tasks[t]) then 1 else 0) == Senders(tasks) + (if HoldsSend(x) then 1 else 0)
    ensures HoldsSend(tasks[t]) ==> Senders(tasks) >= 1
  {
    if t > 0 {
      SendersAfter(tasks[1..], t - 1, x);
      assert tasks[t := x][1..] == tasks[1..][t - 1 := x];
    }
  }

  lemma {:induction false} ReceiversAfter(tasks: seq<Task>, t: nat, x: Task)
    requires t < |tasks|
    ensures Receivers(tasks[t := x]) + (if HoldsRecv(tasks[t]) then 1 else 0) == Receivers(tasks) + (if HoldsRecv(x) then 1 else 0)
    ensures HoldsRecv(tasks[t]) ==> Receivers(tasks) >= 1
  {
    if t > 0 {
      ReceiversAfter(tasks[1..], t - 1, x);
      assert tasks[t := x][1..] == tasks[1..][t - 1 := x];
    }
  }

  lemma {:induction false} NoneHolds(tasks: seq<Task>)
    requires forall t :: 0 <= t < |tasks| ==> tasks[t] == Idle
    ensures Senders(tasks) == 0 && Receivers(tasks) == 0
  {
    if tasks != [] { NoneHolds(tasks[1..]); }
  }

  /** One token for sending: free, with one active writer, or in the full buffer. The same for receiving and
      the empty buffer. */
  ghost predicate SendLaw(s: System) {
    && |s.port.send| <= s.port.sendSize && s.port.sendSize > 0
    && s.port.sendTok + Senders(s.tasks) + (if |s.port.send| == s.port.sendSize then 1 else 0) == 1
  }

  ghost predicate RecvLaw(s: System) {
    && |s.port.recv| <= s.port.recvSize && s.port.recvSize > 0
    && s.port.recvTok + Receivers(s.tasks) + (if s.port.recv == [] then 1 else 0) == 1
  }

  lemma {:induction false} DrainKeeps(p: Port, accepts: seq<bool>, n: nat)
    requires |p.send| <= p.sendSize && p.sendSize > 0
    requires p.sendTok + n + (if |p.send| == p.sendSize then 1 else 0) == 1
    ensures var p1 := Drain(p, accepts);
      && p1 == p.(wire := p1.wire, send := p1.send, sendTok := p1.sendTok) && |p1.send| <= p1.sendSize
      && p1.sendTok + n + (if |p1.send| == p1.sendSize then 1 else 0) == 1
    decreases |accepts|
  {
    if p.send != [] && accepts != [] && accepts[0] { DrainKeeps(SendFirst(p), accepts[1..], n); }
  }

  /** A step of one task: its token and that of the port change places. */
  lemma TaskSendLaw(s: System, t: nat, x: Task, p: Port)
    requires SendLaw(s) && t < |s.tasks| && p.sendSize == s.port.sendSize && |p.send| <= p.sendSize
    requires p.sendTok + (if HoldsSend(x) then 1 else 0) + (if |p.send| == p.sendSize then 1 else 0)
          == s.port.sendTok + (if HoldsSend(s.tasks[t]) then 1 else 0) + (if |s.port.send| == s.port.sendSize then 1 else 0)
    ensures SendLaw(s.(port := p, tasks := s.tasks[t := x]))
  {
    SendersAfter(s.tasks, t, x);
  }

  lemma TaskRecvLaw(s: System, t: nat, x: Task, p: Port)
    requires RecvLaw(s) && t < |s.tasks| && p.recvSize == s.port.recvSize && |p.recv| <= p.recvSize
    requires p.recvTok + (if HoldsRecv(x) then 1 else 0) + (if p.recv == [] then 1 else 0)
          == s.port.recvTok + (if HoldsRecv(s.tasks[t]) then 1 else 0) + (if s.port.recv == [] then 1 else 0)
    ensures RecvLaw(s.(port := p, tasks := s.tasks[t := x]))
  {
    ReceiversAfter(s.tasks, t, x);
  }

  /** Whoever puts a character holds the token, so there is room; it keeps the token unless the buffer is full. */
  lemma PutLaw(s: System, t: nat, crlf: bool, accepted: bool)
    requires SendLaw(s) && RecvLaw(s) && t < |s.tasks|
    ensures SendLaw(NextPut(s, t, crlf, accepted)) && RecvLaw(NextPut(s, t, crlf, accepted))
  {
    var x, s1 := s.tasks[t], NextPut(s, t, crlf, accepted);
    SendersAfter(s.tasks, t, x);
    if HoldsSend(x) && x.rest != [] {
      TaskSendLaw(s, t, s1.tasks[t], s1.port);
      TaskRecvLaw(s, t, s1.tasks[t], s1.port);
    }
  }

  lemma GetLaw(s: System, t: nat, accepted: bool)
    requires SendLaw(s) && RecvLaw(s) && t < |s.tasks|
    ensures SendLaw(Next(s, GetChar(t, accepted))) && RecvLaw(Next(s, GetChar(t, accepted)))
  {
    var s1 := Next(s, GetChar(t, accepted));
    if s1 != s {
      TaskSendLaw(s, t, s1.tasks[t], s1.port);
      TaskRecvLaw(s, t, s1.tasks[t], s1.port);
    }
  }

  lemma WaitLaw(s: System, t: nat, ok: bool)
    requires SendLaw(s) && RecvLaw(s) && t < |s.tasks|
    ensures SendLaw(NextWait(s, t, ok)) && RecvLaw(NextWait(s, t, ok))
  {
    var s1 := NextWait(s, t, ok);
    TaskSendLaw(s, t, s1.tasks[t], s1.port);
    TaskRecvLaw(s, t, s1.tasks[t], s1.port);
    assert s1 == s || s1.tasks == s.tasks[t := s1.tasks[t]];
  }

  lemma FinishLaw(s: System, t: nat)
    requires SendLaw(s) && RecvLaw(s) && t < |s.tasks|
    ensures SendLaw(NextFinish(s, t)) && RecvLaw(NextFinish(s, t))
  {
    var s1 := NextFinish(s, t);
    TaskSendLaw(s, t, s1.tasks[t], s1.port);
    TaskRecvLaw(s, t, s1.tasks[t], s1.port);
    assert s1 == s || s1.tasks == s.tasks[t := s1.tasks[t]];
  }

  lemma StartLaw(s: System, t: nat, x: Task)
    requires SendLaw(s) && RecvLaw(s) && TaskAt(s, t).Idle? && !HoldsSend(x) && !HoldsRecv(x)
    ensures SendLaw(SetTask(s, t, x)) && RecvLaw(SetTask(s, t, x))
  {
    if t < |s.tasks| {
      TaskSendLaw(s, t, x, s.port);
      TaskRecvLaw(s, t, x, s.port);
    }
  }

  lemma ReceiveLaw(s: System, c: char, io: Control, accepts: seq<bool>)
    requires SendLaw(s) && RecvLaw(s)
    ensures var s1 := Next(s, ReceiveReady(c, io, accepts)); SendLaw(s1) && RecvLaw(s1)
  {
    DrainKeeps(s.port.(sendStopped := false), accepts, Senders(s.tasks));
  }

  lemma NextLaw(s: System, e: Step)
    requires SendLaw(s) && RecvLaw(s)
    ensures SendLaw(Next(s, e)) && RecvLaw(Next(s, e))
  {
    match e
    case StartWrite(t, text) => if TaskAt(s, t).Idle? { StartLaw(s, t, Writer(text, [], text, true, false)); }
    case StartRead(t, length) => if TaskAt(s, t).Idle? { StartLaw(s, t, Reader(length, true)); }
    case Wait(t, ok) => if t < |s.tasks| { WaitLaw(s, t, ok); }
    case PutChar(t, crlf, accepted) => if t < |s.tasks| { PutLaw(s, t, crlf, accepted); }
    case GetChar(t, accepted) => if t < |s.tasks| { GetLaw(s, t, accepted); }
    case Finish(t) => if t < |s.tasks| { FinishLaw(s, t); }
    case SendReady =>
    case ReceiveReady(c, io, accepts) => ReceiveLaw(s, c, io, accepts);
  }

  lemma {:induction false} DrainLeavesRecv(p: Port, accepts: seq<bool>)
    ensures var p1 := Drain(p, accepts); p1 == p.(wire := p1.wire, send := p1.send, sendTok := p1.sendTok)
    decreases |accepts|
  {
    if p.send != [] && accepts != [] && accepts[0] { DrainLeavesRecv(SendFirst(p), accepts[1..]); }
  }

  // ---------- order ----------

  /** The data on the line, without flow control. */
  function DataOf(wire: seq<Sent>): seq<char> {
    if wire == [] then []
    else
      var n := |wire| - 1;
      if wire[n].Data? then DataOf(wire[..n]) + [wire[n].c] else DataOf(wire[..n])
  }

  lemma DataMore(wire: seq<Sent>, x: Sent)
    ensures DataOf(wire + [x]) == if x.Data? then DataOf(wire) + [x.c] else DataOf(wire)
  {
    assert (wire + [x])[..|wire|] == wire;
  }

  /** What is written goes out or waits in the buffer, in the order written; what is stored is fetched or waits
      in the buffer, in the order received. */
  ghost predicate OrderLaw(s: System) {
    && DataOf(s.port.wire) + s.port.send == s.written
    && s.fetched + s.port.recv == s.stored
  }

  lemma SendFirstOrder(p: Port)
    requires p.send != []
    ensures DataOf(SendFirst(p).wire) + SendFirst(p).send == DataOf(p.wire) + p.send
  {
    DataMore(p.wire, Data(p.send[0]));
  }

  lemma {:induction false} DrainOrder(p: Port, accepts: seq<bool>)
    ensures DataOf(Drain(p, accepts).wire) + Drain(p, accepts).send == DataOf(p.wire) + p.send
    decreases |accepts|
  {
    if p.send != [] && accepts != [] && accepts[0] {
      SendFirstOrder(p);
      DrainOrder(SendFirst(p), accepts[1..]);
    }
  }

  lemma PutOrder(p: Port, c: char, accepted: bool)
    ensures DataOf(Put(p, c, accepted).0.wire) + Put(p, c, accepted).0.send == DataOf(p.wire) + p.send + [c]
  {
    DataMore(p.wire, Data(c));
  }

  lemma FlowOrder(p: Port, c: char, accepted: bool)
    ensures var p1 := SendFlow(p, c, accepted); DataOf(p1.wire) == DataOf(p.wire) && p1.send == p.send && p1.recv == p.recv
  {
    DataMore(p.wire, Flow(c));
  }

  lemma SendReadyOrder(s: System)
    requires OrderLaw(s)
    ensures OrderLaw(Next(s, SendReady))
  {
    if s.port.flow.Some? {
      DataMore(s.port.wire, Flow(s.port.flow.value));
    } else if s.port.send != [] {
      SendFirstOrder(s.port);
    }
  }

  lemma NextPutOrder(s: System, t: nat, crlf: bool, accepted: bool)
    requires OrderLaw(s)
    ensures OrderLaw(NextPut(s, t, crlf, accepted))
  {
    PutOrder(s.port, '\r', accepted);
    if TaskAt(s, t).Writer? && TaskAt(s, t).rest != [] { PutOrder(s.port, TaskAt(s, t).rest[0], accepted); }
  }

  lemma GetOrder(s: System, t: nat, accepted: bool)
    requires OrderLaw(s)
    ensures OrderLaw(Next(s, GetChar(t, accepted)))
  {
    var p := s.port;
    if p.recv != [] {
      GetKeeps(p, accepted);
      Regrouped(s.fetched, p.recv);
    }
  }

  /** A character taken from the receive buffer, and flow control, disturb nothing that is sent. */
  lemma GetKeeps(p: Port, accepted: bool)
    requires p.recv != []
    ensures var p1 := Get(p, accepted).0; DataOf(p1.wire) == DataOf(p.wire) && p1.send == p.send && p1.recv == p.recv[1..]
  {
    FlowOrder(p.(recv := p.recv[1..], recvStopped := false), FC_START, accepted);
  }

  lemma Regrouped(a: seq<char>, b: seq<char>)
    requires b != []
    ensures a + [b[0]] + b[1..] == a + b
  {}

  lemma NextOrderLaw(s: System, e: Step)
    requires OrderLaw(s)
    ensures OrderLaw(Next(s, e))
  {
    match e
    case SendReady => SendReadyOrder(s);
    case ReceiveReady(c, io, accepts) =>
      if Kept(s.port, c, io) { StoreOrder(s, c, io, accepts); } else { DiscardOrder(s, c, io, accepts); }
    case PutChar(t, crlf, accepted) => NextPutOrder(s, t, crlf, accepted);
    case GetChar(t, accepted) => GetOrder(s, t, accepted);
    case _ =>
  }

  lemma DiscardOrder(s: System, c: char, io: Control, accepts: seq<bool>)
    requires OrderLaw(s) && !Kept(s.port, c, io)
    ensures OrderLaw(Next(s, ReceiveReady(c, io, accepts)))
  {
    var p := s.port.(sendStopped := false);
    DrainOrder(p, accepts);
    DrainLeavesRecv(p, accepts);
  }

  lemma StoreOrder(s: System, c: char, io: Control, accepts: seq<bool>)
    requires OrderLaw(s) && Kept(s.port, c, io)
    ensures OrderLaw(Next(s, ReceiveReady(c, io, accepts)))
  {
    var p := s.port;
    var p1 := p.(recv := p.recv + [c], recvTok := p.recvTok + (if p.recv == [] then 1 else 0));
    FlowOrder(p1.(recvStopped := true), FC_STOP, accepts != [] && accepts[0]);
    assert s.fetched + (p.recv + [c]) == s.fetched + p.recv + [c];
  }

  // ---------- carriage returns ----------

  /** The text with a carriage return before every line feed. */
  function Expand(text: seq<char>): seq<char> {
    if text == [] then []
    else if text[0] == '\n' then ['\r', '\n'] + Expand(text[1..])
    else [text[0]] + Expand(text[1..])
  }

  /** What a writer has put and what it has still to put are its text, expanded. */
  ghost predicate Expanding(x: Task) {
    x.Writer? ==>
      && (x.crDone ==> x.rest != [] && x.rest[0] == '\n')
      && x.put + (if x.crDone then Expand(x.rest)[1..] else Expand(x.rest)) == Expand(x.text)
  }

  ghost predicate CrLfLaw(s: System) {
    forall t: nat :: Expanding(TaskAt(s, t))
  }

  predicate CrLfOn(e: Step) { e.PutChar? ==> e.crlf }

  lemma NextCrLfLaw(s: System, e: Step)
    requires CrLfLaw(s) && CrLfOn(e)
    ensures CrLfLaw(Next(s, e))
  {
    forall t: nat ensures Expanding(TaskAt(Next(s, e), t)) {
      assert Expanding(TaskAt(s, t));
      if e.PutChar? && e.t == t && TaskAt(s, t).Writer? && TaskAt(s, t).rest != [] {
        var x := TaskAt(s, t);
        assert Expand(x.rest) == (if x.rest[0] == '\n' then ['\r', '\n'] else [x.rest[0]]) + Expand(x.rest[1..]);
        PutAssociates(x);
      }
    }
  }

  lemma PutAssociates(x: Task)
    requires x.Writer? && x.rest != [] && Expanding(x)
    ensures x.rest[0] == '\n' && !x.crDone ==> x.put + ['\r'] + Expand(x.rest)[1..] == Expand(x.text)
    ensures x.rest[0] == '\n' && x.crDone ==> x.put + ['\n'] + Expand(x.rest[1..]) == Expand(x.text)
    ensures x.rest[0] != '\n' ==> x.put + [x.rest[0]] + Expand(x.rest[1..]) == Expand(x.text)
  {
    var more := Expand(x.rest[1..]);
    if x.rest[0] == '\n' {
      assert Expand(x.rest) == ['\r', '\n'] + more;
      assert Expand(x.rest)[1..] == ['\n'] + more;
      Regroup(x.put, ['\r'], Expand(x.rest)[1..]);
      Regroup(x.put, ['\n'], more);
      assert ['\r'] + (['\n'] + more) == ['\r', '\n'] + more;
    } else {
      Regroup(x.put, [x.rest[0]], more);
    }
  }

  lemma Regroup(a: seq<char>, b: seq<char>, c: seq<char>)
    ensures a + b + c == a + (b + c)
  {}

  // ---------- in every run ----------

  /** In every interleaving of any number of tasks with the callbacks: there is exactly one send token and one
      receive token, the buffers never overrun, a task that is to put or get a character finds room or a
      character, and data leave and arrive in order. */
  lemma {:induction false} AlwaysLawful(s: System, es: seq<Step>)
    requires Initial(s)
    ensures var k := Run(s, es); SendLaw(k) && RecvLaw(k) && OrderLaw(k)
    decreases |es|
  {
    if es == [] {
      NoneHolds(s.tasks);
    } else {
      var before := es[..|es| - 1];
      AlwaysLawful(s, before);
      NextLaw(Run(s, before), es[|es| - 1]);
      NextOrderLaw(Run(s, before), es[|es| - 1]);
    }
  }

  lemma NeverOverrun(s: System, es: seq<Step>, t: nat)
    requires Initial(s) && t < |s.tasks|
    ensures var k := Run(s, es);
      && |k.tasks| == |s.tasks|
      && (HoldsSend(TaskAt(k, t)) ==> |k.port.send| < k.port.sendSize)
      && (HoldsRecv(TaskAt(k, t)) ==> k.port.recv != [])
  {
    AlwaysLawful(s, es);
    SameTasks(s, es);
    var k := Run(s, es);
    SendersAfter(k.tasks, t, k.tasks[t]);
    ReceiversAfter(k.tasks, t, k.tasks[t]);
  }

  lemma {:induction false} SameTasks(s: System, es: seq<Step>)
    ensures |Run(s, es).tasks| == |s.tasks|
    decreases |es|
  {
    if es != [] { SameTasks(s, es[..|es| - 1]); }
  }

  /** With conversion on throughout, what a task has put when its call is over is its text with a carriage
      return before every line feed. */
  lemma {:induction false} AlwaysCrLf(s: System, es: seq<Step>)
    requires Initial(s) && forall e :: e in es ==> CrLfOn(e)
    ensures CrLfLaw(Run(s, es))
    decreases |es|
  {
    if es != [] {
      var before := es[..|es| - 1];
      AlwaysCrLf(s, before);
      NextCrLfLaw(Run(s, before), es[|es| - 1]);
    }
  }

  // ---------- flow control of sending ----------

  /** Whether the other side has stopped us, as far as the characters it has sent say. */
  function StoppedBy(stopped: bool, es: seq<Step>): bool
    decreases |es|
  {
    if es == [] then stopped
    else
      match es[|es| - 1]
      case ReceiveReady(c, io, _) =>
        if io.fcsnd && c == FC_STOP then true
        else if io.fcany || c == FC_START then false
        else StoppedBy(stopped, es[..|es| - 1])
      case _ => StoppedBy(stopped, es[..|es| - 1])
  }

  lemma {:induction false} StoppedIsKnown(s: System, es: seq<Step>)
    ensures Run(s, es).port.sendStopped == StoppedBy(s.port.sendStopped, es)
    decreases |es|
  {
    if es != [] {
      var k, e := Run(s, es[..|es| - 1]), es[|es| - 1];
      StoppedIsKnown(s, es[..|es| - 1]);
      if e.ReceiveReady? { DrainLeavesRecv(k.port.(sendStopped := false), e.accepts); } else { SendsKeepStop(k, e); }
    }
  }

  lemma SendsKeepStop(s: System, e: Step)
    requires !e.ReceiveReady?
    ensures Next(s, e).port.sendStopped == s.port.sendStopped
  {}

  /** In a step before and after which sending is stopped, no data go out. */
  lemma StoppedStep(s: System, e: Step)
    requires s.port.sendStopped && Next(s, e).port.sendStopped
    ensures DataOf(Next(s, e).port.wire) == DataOf(s.port.wire)
  {
    var p := s.port;
    match e
    case SendReady => if p.flow.Some? { DataMore(p.wire, Flow(p.flow.value)); }
    case GetChar(t, accepted) => if p.recv != [] { GetKeeps(p, accepted); }
    case ReceiveReady(c, io, accepts) =>
      DrainLeavesRecv(p.(sendStopped := false), accepts);
      DataMore(p.wire, Flow(FC_STOP));
    case _ =>
  }

  lemma RunMore(s: System, es: seq<Step>, e: Step)
    ensures Run(s, es + [e]) == Next(Run(s, es), e)
  {
    assert (es + [e])[..|es|] == es;
  }

  /** In every run: from the time the other side stops us until it lets us go on, no data go out, whatever is written and
      whatever callbacks there are. */
  lemma {:induction false} SilentWhileStopped(s: System, es: seq<Step>, fs: seq<Step>)
    requires forall i :: 0 <= i <= |fs| ==> StoppedBy(s.port.sendStopped, es + fs[..i])
    ensures DataOf(Run(s, es + fs).port.wire) == DataOf(Run(s, es).port.wire)
    decreases |fs|
  {
    if fs == [] {
      assert es + fs == es;
    } else {
      var n := |fs| - 1;
      var before := fs[..n];
      forall i | 0 <= i <= n ensures StoppedBy(s.port.sendStopped, es + before[..i]) { assert before[..i] == fs[..i]; }
      SilentWhileStopped(s, es, before);
      assert es + fs == (es + before) + [fs[n]] && fs[..n] == before && fs[..n + 1] == fs;
      RunMore(s, es + before, fs[n]);
      StoppedIsKnown(s, es + before);
      StoppedIsKnown(s, es + fs);
      StoppedStep(Run(s, es + before), fs[n]);
    }
  }

  /** In every run: a callback for sending puts out the flow character that is due, if one is; else, unless we are stopped,
      just the first character of the buffer; else nothing. */
  lemma CallbackSends(s: System, es: seq<Step>)
    ensures var k, k1 := Run(s, es), Next(Run(s, es), SendReady);
      if k.port.flow.Some? then
        k1.port.wire == k.port.wire + [Flow(k.port.flow.value)] && k1.port.flow == None && k1.port.send == k.port.send
      else if k.port.send != [] && !StoppedBy(s.port.sendStopped, es) then
        && k1.port.wire == k.port.wire + [Data(k.port.send[0])] && k1.port.send == k.port.send[1..]
        && DataOf(k1.port.wire) == DataOf(k.port.wire) + [k.port.send[0]]
      else k1 == k
  {
    var k := Run(s, es);
    StoppedIsKnown(s, es);
    if k.port.send != [] { DataMore(k.port.wire, Data(k.port.send[0])); }
  }

  /** Sending resumed: as many characters go out at once as the hardware takes in a row. */
  lemma {:induction false} DrainSends(p: Port, accepts: seq<bool>, n: nat)
    requires n <= |p.send| && n <= |accepts| && (forall i :: 0 <= i < n ==> accepts[i])
    requires n == |p.send| || n == |accepts| || !accepts[n]
    ensures Drain(p, accepts).send == p.send[n..] && DataOf(Drain(p, accepts).wire) == DataOf(p.wire) + p.send[..n]
    decreases n
  {
    if n > 0 {
      DataMore(p.wire, Data(p.send[0]));
      DrainSends(SendFirst(p), accepts[1..], n - 1);
      FirstAndMore(DataOf(p.wire), p.send, n);
    }
  }

  lemma FirstAndMore(a: seq<char>, b: seq<char>, n: nat)
    requires 0 < n <= |b|
    ensures a + [b[0]] + b[1..][..n - 1] == a + b[..n] && b[1..][n - 1..] == b[n..]
  {}

  // ---------- flow control of receiving ----------

  /** In every run: a received character is kept unless it is one of the flow control or the buffer is full. */
  lemma ReceivedIsKept(s: System, es: seq<Step>, c: char, io: Control, accepts: seq<bool>)
    ensures var k, k1 := Run(s, es), Next(Run(s, es), ReceiveReady(c, io, accepts));
      var control := (io.fcsnd && (c == FC_STOP || c == FC_START))
        || (StoppedBy(s.port.sendStopped, es) && (c == FC_START || io.fcany));
      k1.port.recv == if control || |k.port.recv| == k.port.recvSize then k.port.recv else k.port.recv + [c]
  {
    StoppedIsKnown(s, es);
    DrainLeavesRecv(Run(s, es).port.(sendStopped := false), accepts);
  }

  /** With flow control of receiving: the other side has been stopped once three quarters of the buffer are in use, and is let
      go on when half of it is free. */
  predicate Held(p: Port) {
    if p.recvStopped then p.recv != [] && (|p.recv| > p.recvSize / 2 || |p.recv| >= p.recvSize * 3 / 4)
    else |p.recv| < p.recvSize * 3 / 4 || |p.recv| <= p.recvSize / 2
  }

  predicate FlowOn(e: Step) { e.ReceiveReady? ==> e.io.fcrcv }

  lemma StoreHeld(p: Port, c: char, io: Control, accepts: seq<bool>)
    requires Held(p) && io.fcrcv
    ensures Held(ReadyReceive(p, c, io, accepts))
  {
    DrainLeavesRecv(p.(sendStopped := false), accepts);
  }

  lemma FetchHeld(p: Port, accepted: bool)
    requires Held(p) && p.recv != []
    ensures Held(Get(p, accepted).0)
  {}

  lemma SameReceived(s: System, e: Step)
    requires !e.ReceiveReady? && !e.GetChar?
    ensures var p, p1 := s.port, Next(s, e).port; p1.recv == p.recv && p1.recvStopped == p.recvStopped && p1.recvSize == p.recvSize
  {}

  lemma NextHeld(s: System, e: Step)
    requires Held(s.port) && FlowOn(e)
    ensures Held(Next(s, e).port)
  {
    match e
    case ReceiveReady(c, io, accepts) => StoreHeld(s.port, c, io, accepts);
    case GetChar(_, accepted) => if s.port.recv != [] { FetchHeld(s.port, accepted); }
    case _ => SameReceived(s, e);
  }

  lemma {:induction false} AlwaysHeld(s: System, es: seq<Step>)
    requires Initial(s) && !s.port.recvStopped && forall e :: e in es ==> FlowOn(e)
    ensures Held(Run(s, es).port)
    decreases |es|
  {
    if es != [] {
      AlwaysHeld(s, es[..|es| - 1]);
      NextHeld(Run(s, es[..|es| - 1]), es[|es| - 1]);
    }
  }

  /** What the other side will have been told last when the flow character that is due has gone out. */
  function LastTold(p: Port): char {
    if p.flow.Some? then p.flow.value else LastFlow(p.wire)
  }

  function LastFlow(wire: seq<Sent>): char {
    if wire == [] then FC_START
    else if wire[|wire| - 1].Flow? then wire[|wire| - 1].c else LastFlow(wire[..|wire| - 1])
  }

  lemma FlowMore(wire: seq<Sent>, x: Sent)
    ensures LastFlow(wire + [x]) == if x.Flow? then x.c else LastFlow(wire)
  {
    assert (wire + [x])[..|wire|] == wire;
  }

  /** The other side is told to stop exactly if we take it to be stopped. */
  predicate Told(p: Port) { LastTold(p) == if p.recvStopped then FC_STOP else FC_START }

  /** A flow character goes out at once while another is still due. */
  predicate Overtakes(s: System, e: Step) {
    var p := s.port;
    p.flow.Some? &&
    match e
    case GetChar(t, accepted) =>
      && TaskAt(s, t).Reader? && !TaskAt(s, t).empty && TaskAt(s, t).left > 0 && p.recv != []
      && p.recvStopped && |p.recv| - 1 <= BufcntStart(p.recvSize) && accepted
    case ReceiveReady(c, io, accepts) =>
      && Kept(p, c, io) && io.fcrcv && !p.recvStopped && |p.recv| + 1 >= BufcntStop(p.recvSize) && accepts != [] && accepts[0]
    case _ => false
  }

  lemma {:induction false} DrainLeavesFlow(p: Port, accepts: seq<bool>)
    ensures LastFlow(Drain(p, accepts).wire) == LastFlow(p.wire)
    decreases |accepts|
  {
    if p.send != [] && accepts != [] && accepts[0] {
      FlowMore(p.wire, Data(p.send[0]));
      DrainLeavesFlow(SendFirst(p), accepts[1..]);
    }
  }

  lemma SendTold(s: System)
    requires Told(s.port)
    ensures Told(Next(s, SendReady).port)
  {
    var p := s.port;
    if p.flow.Some? { FlowMore(p.wire, Flow(p.flow.value)); }
    else if p.send != [] { FlowMore(p.wire, Data(p.send[0])); }
  }

  lemma PutTold(p: Port, c: char, accepted: bool)
    requires Told(p)
    ensures Told(Put(p, c, accepted).0)
  {
    FlowMore(p.wire, Data(c));
  }

  /** A flow character that is sent is what the other side is told last, unless another was due and this one not. */
  lemma FlowTold(p: Port, c: char, accepted: bool)
    ensures LastTold(SendFlow(p, c, accepted)) == if p.flow.Some? && accepted then p.flow.value else c
  {
    FlowMore(p.wire, Flow(c));
  }

  lemma GetTold(s: System, t: nat, accepted: bool)
    requires Told(s.port)
    ensures Told(Next(s, GetChar(t, accepted)).port) <==> !Overtakes(s, GetChar(t, accepted))
  {
    if s.port.recv != [] { FlowTold(s.port.(recv := s.port.recv[1..], recvStopped := false), FC_START, accepted); }
  }

  lemma StoreTold(s: System, c: char, io: Control, accepts: seq<bool>)
    requires Told(s.port) && Kept(s.port, c, io)
    ensures Told(Next(s, ReceiveReady(c, io, accepts)).port) <==> !Overtakes(s, ReceiveReady(c, io, accepts))
  {
    var p := s.port;
    var p1 := p.(recv := p.recv + [c], recvTok := p.recvTok + (if p.recv == [] then 1 else 0));
    FlowTold(p1.(recvStopped := true), FC_STOP, accepts != [] && accepts[0]);
  }

  lemma DiscardTold(s: System, c: char, io: Control, accepts: seq<bool>)
    requires Told(s.port) && !Kept(s.port, c, io)
    ensures Told(Next(s, ReceiveReady(c, io, accepts)).port)
  {
    DrainLeavesFlow(s.port.(sendStopped := false), accepts);
    DrainLeavesRecv(s.port.(sendStopped := false), accepts);
  }

  /** A step keeps the other side told the truth exactly if no flow character overtakes another. */
  lemma NextTold(s: System, e: Step)
    requires Told(s.port)
    ensures Told(Next(s, e).port) <==> !Overtakes(s, e)
  {
    match e
    case SendReady => SendTold(s);
    case PutChar(t, crlf, accepted) =>
      PutTold(s.port, '\r', accepted);
      if TaskAt(s, t).Writer? && TaskAt(s, t).rest != [] { PutTold(s.port, TaskAt(s, t).rest[0], accepted); }
    case GetChar(t, accepted) => GetTold(s, t, accepted);
    case ReceiveReady(c, io, accepts) => if Kept(s.port, c, io) { StoreTold(s, c, io, accepts); } else { DiscardTold(s, c, io, accepts); }
    case _ =>
  }

  predicate NoneOvertakes(s: System, es: seq<Step>)
    decreases |es|
  {
    es == [] || (NoneOvertakes(s, es[..|es| - 1]) && !Overtakes(Run(s, es[..|es| - 1]), es[|es| - 1]))
  }

  /** In every run in which no flow character overtakes another, the other side has been told last, or will be told by the
      character that is due, just what we take it to know. */
  lemma {:induction false} AlwaysTold(s: System, es: seq<Step>)
    requires Told(s.port) && NoneOvertakes(s, es)
    ensures Told(Run(s, es).port)
    decreases |es|
  {
    if es != [] {
      AlwaysTold(s, es[..|es| - 1]);
      NextTold(Run(s, es[..|es| - 1]), es[|es| - 1]);
    }
  }

  /** A run in which one does: a character fills the buffer while the hardware is busy, so that a STOP is due; the reader
      takes it just when the hardware has become ready, so that the START goes out at once; then the callback
      sends the STOP. The other side stands stopped, our buffer is empty, and nothing is due. */
  lemma StopOvertaken() returns (s: System, es: seq<Step>)
    ensures Initial(s) && Told(s.port)
    ensures var p := Run(s, es).port; p.recv == [] && !p.recvStopped && p.flow == None && LastTold(p) == FC_STOP
  {
    var io := Control(false, false, true);
    s := System(Port(1, 1, [], [], false, false, None, [], 1, 0), [Idle], [], [], []);
    var e0, e1, e2, e3, e4 := StartRead(0, 1), ReceiveReady('a', io, []), Wait(0, true), GetChar(0, true), SendReady;
    es := [e0] + [e1] + [e2] + [e3] + [e4];
    RunMore(s, [], e0);
    RunMore(s, [e0], e1);
    RunMore(s, [e0] + [e1], e2);
    RunMore(s, [e0] + [e1] + [e2], e3);
    RunMore(s, [e0] + [e1] + [e2] + [e3], e4);
    assert [] + [e0] == [e0];
    var k1 := Run(s, [e0] + [e1]);
    assert k1.port == s.port.(recv := ['a'], recvTok := 1, recvStopped := true, flow := Some(FC_STOP));
    var k3 := Run(s, [e0] + [e1] + [e2] + [e3]);
    assert k3.port == s.port.(flow := Some(FC_STOP), wire := [Flow(FC_START)]);
    FlowMore([Flow(FC_START)], Flow(FC_STOP));
  }
}
