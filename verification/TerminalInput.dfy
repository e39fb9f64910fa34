/**
 Terminal input end to end: the browser connection, the FIFO WebSocket, the server's reader
 with its 32-slot channel, and the goroutine that writes to the shell's standard input.
 Every step of every party is one transition, so every interleaving is a run.
 */
module TerminalInput {
  import opened Common
  import opened TerminalClient

  const MAX_MESSAGE := 64 * 1024
  const QUEUE_SLOTS := 32

  datatype Session = Session(
    client: Client,
    taken: nat,              // how many of the client's frames the server has read
    reading: bool,           // readTerminalInput has not returned
    queue: seq<Frame>,       // the input channel
    writing: bool,           // the dispatch goroutine has not returned
    hand: bytes,             // the rest of the stdin message being written
    delivered: bytes,        // what the shell's standard input has received
    cancelled: bool)

  datatype Step =
    | Browser(event: TerminalClient.Event)
    | Reads(obeysCancel: bool)   // one turn of the reader's loop; its select may prefer ctx.Done
    | ReadFails                  // deadline, closed socket, lost connection
    | Takes(understood: bool)    // the writer receives a message; understood: a resize that works
    | Writes(n: nat)             // standard input takes n more bytes
    | WriterStops                // a failed write, or ctx.Done
    | Cancels                    // anything else: output finished, ping failed, request ended

  function StopReading(s: Session): Session { s.(reading := false, cancelled := true) }

  function StopWriting(s: Session): Session { s.(writing := false, cancelled := true) }

  /** One message read from the socket. */
  function ReadOne(s: Session, obeysCancel: bool): Session
    requires s.taken < |s.client.sent|
  {
    var msg := s.client.sent[s.taken];
    var t := s.(taken := s.taken + 1);
    if |msg| > MAX_MESSAGE then StopReading(t)
    else if msg == [] then t
    else if s.cancelled && obeysCancel then StopReading(t)
    else if |s.queue| < QUEUE_SLOTS then t.(queue := s.queue + [msg])
    else StopReading(t)
  }

  /** One message received from the channel by the dispatch loop. */
  function TakeOne(s: Session, understood: bool): Session
    requires s.queue != [] && s.queue[0] != []
  {
    var msg := s.queue[0];
    var t := s.(queue := s.queue[1..]);
    if msg[0] == STDIN then t.(hand := msg[1..])
    else if msg[0] == RESIZE && understood then t
    else StopWriting(t)
  }

  ghost predicate Next(s: Session, s': Session, step: Step) {
    match step
    case Browser(e) =>
      TerminalClient.Next(s.client, s'.client, e) && s' == s.(client := s'.client)
    case Reads(obeysCancel) =>
      s.reading && s.taken < |s.client.sent| && s' == ReadOne(s, obeysCancel)
    case ReadFails => s.reading && s' == StopReading(s)
    case Takes(understood) =>
      s.writing && s.hand == [] && s.queue != [] && s.queue[0] != [] && s' == TakeOne(s, understood)
    case Writes(n) =>
      s.writing && n <= |s.hand| && s' == s.(delivered := s.delivered + s.hand[..n], hand := s.hand[n..])
    case WriterStops => s.writing && s' == StopWriting(s)
    case Cancels => s' == s.(cancelled := true)
  }

  function Start(): Session {
    Session(TerminalClient.Fresh(), 0, true, [], true, [], [], false)
  }

  /** Some interleaving `steps` leads from one state to the other. */
  ghost predicate Run(s: Session, s': Session, steps: seq<Step>)
    decreases |steps|
  {
    if steps == [] then s == s'
    else exists mid :: Next(s, mid, steps[0]) && Run(mid, s', steps[1..])
  }

  lemma RunCons(s: Session, mid: Session, s': Session, steps: seq<Step>)
    requires steps != [] && Next(s, mid, steps[0]) && Run(mid, s', steps[1..])
    ensures Run(s, s', steps)
  {
  }

  /** One step more in front of a run. */
  lemma RunFrom(s: Session, mid: Session, s': Session, step: Step, rest: seq<Step>) returns (steps: seq<Step>)
    requires Next(s, mid, step) && Run(mid, s', rest)
    ensures Run(s, s', steps)
  {
    steps := [step] + rest;
    assert steps[1..] == rest;
    RunCons(s, mid, s', steps);
  }

  /** The bytes the server took off the socket and still means to deliver. */
  function Held(s: Session): bytes { s.delivered + s.hand + Stdin(s.queue) }

  function Read(s: Session): seq<Frame>
    requires s.taken <= |s.client.sent|
  {
    s.client.sent[..s.taken]
  }

  ghost predicate Inv(s: Session) { ClientInv(s.client) && ServerInv(s) && Orderly(s) }

  /** Every message on the wire or in the channel is input or a size. */
  predicate Orderly(s: Session) { WellSent(s.client) && forall f | f in s.queue :: Sendable(f) }

  predicate ServerInv(s: Session) {
    && s.taken <= |s.client.sent|
    && |s.queue| <= QUEUE_SLOTS
    && (forall f | f in s.queue :: f != [])
    && (s.reading && s.writing ==> Held(s) == Stdin(Read(s)))
    && (s.writing ==> Held(s) <= Stdin(Read(s)))
    && s.delivered <= Stdin(Read(s))
    && (!s.reading || !s.writing ==> s.cancelled)
  }

  /** Reading one frame extends what was read by that frame's input. */
  lemma ReadMore(frames: seq<Frame>, n: nat)
    requires n < |frames|
    ensures Stdin(frames[..n + 1]) == Stdin(frames[..n]) + Stdin([frames[n]])
  {
    assert frames[..n + 1] == frames[..n] + [frames[n]];
    StdinAppend(frames[..n], [frames[n]]);
  }

  /** Putting a message in the channel, or leaving an empty one, keeps the books balanced. */
  lemma QueuedKeeps(s: Session, t: Session, msg: Frame)
    requires ServerInv(s) && s.reading && s.taken < |s.client.sent| && msg == s.client.sent[s.taken]
    requires msg != [] && |s.queue| < QUEUE_SLOTS
    requires t == s.(taken := s.taken + 1, queue := s.queue + [msg])
    ensures ServerInv(t)
  {
    var more := Stdin([msg]);
    assert Stdin(Read(t)) == Stdin(Read(s)) + more by { ReadMore(s.client.sent, s.taken); }
    assert Held(t) == Held(s) + more by {
      StdinAppend(s.queue, [msg]);
      Regroup(s.delivered + s.hand, Stdin(s.queue), more);
    }
  }

  lemma ReadsKeeps(s: Session, obeysCancel: bool)
    requires ServerInv(s) && s.reading && s.taken < |s.client.sent|
    ensures ServerInv(ReadOne(s, obeysCancel))
  {
    var msg := s.client.sent[s.taken];
    var t := ReadOne(s, obeysCancel);
    if t.queue != s.queue {
      QueuedKeeps(s, t, msg);
    } else {
      ReadMore(s.client.sent, s.taken);
      assert msg == [] ==> Stdin([msg]) == [];
    }
  }

  lemma TakesKeeps(s: Session, understood: bool)
    requires ServerInv(s) && s.writing && s.hand == [] && s.queue != [] && s.queue[0] != []
    ensures ServerInv(TakeOne(s, understood))
  {
    var own := if IsStdin(s.queue[0]) then s.queue[0][1..] else [];
    Regroup(s.delivered, own, Stdin(s.queue[1..]));
    assert s.delivered + [] == s.delivered;
    assert forall f | f in s.queue[1..] :: f in s.queue;
  }

  lemma WritesKeeps(s: Session, n: nat)
    requires ServerInv(s) && s.writing && n <= |s.hand|
    ensures ServerInv(s.(delivered := s.delivered + s.hand[..n], hand := s.hand[n..]))
  {
    assert s.hand == s.hand[..n] + s.hand[n..];
    Regroup(s.delivered, s.hand[..n], s.hand[n..]);
  }

  /** What the browser sends later does not change what was read. */
  lemma ServerUnmoved(s: Session, c: Client)
    requires ServerInv(s) && s.client.sent <= c.sent
    ensures ServerInv(s.(client := c))
  {
    assert c.sent[..s.taken] == s.client.sent[..s.taken];
  }

  lemma BrowserKeeps(s: Session, c: Client, e: TerminalClient.Event)
    requires Inv(s) && TerminalClient.Next(s.client, c, e)
    ensures Inv(s.(client := c))
  {
    ClientStepKeeps(s.client, c, e);
    SendsKeep(s.client, c, e);
    ServerUnmoved(s, c);
  }

  lemma StaysOrderly(s: Session, s': Session, step: Step)
    requires ServerInv(s) && Orderly(s) && Next(s, s', step) && !step.Browser?
    ensures Orderly(s') && s'.client == s.client
  {
    assert forall f | f in s'.queue :: f in s.queue || f in s.client.sent;
  }

  lemma StepKeeps(s: Session, s': Session, step: Step)
    requires Inv(s) && Next(s, s', step)
    ensures Inv(s')
  {
    if !step.Browser? { StaysOrderly(s, s', step); }
    match step
    case Browser(e) => BrowserKeeps(s, s'.client, e);
    case Reads(obeysCancel) => ReadsKeeps(s, obeysCancel);
    case Takes(understood) => TakesKeeps(s, understood);
    case Writes(n) => WritesKeeps(s, n);
    case _ =>
  }

  lemma {:induction false} RunKeeps(s: Session, s': Session, steps: seq<Step>)
    requires Inv(s) && Run(s, s', steps)
    ensures Inv(s')
    decreases |steps|
  {
    if steps != [] {
      var mid :| Next(s, mid, steps[0]) && Run(mid, s', steps[1..]);
      StepKeeps(s, mid, steps[0]);
      RunKeeps(mid, s', steps[1..]);
    }
  }

  lemma StartIsGood()
    ensures Inv(Start())
  {
  }

  /** Nothing has failed, been replaced or been cancelled. */
  predicate Healthy(s: Session) { s.client.Intact() && !s.cancelled }

  lemma Books(s: Session)
    requires Inv(s)
    ensures s.delivered <= s.client.accepted
    ensures Healthy(s) ==>
              s.delivered + s.hand + Stdin(s.queue) + Stdin(s.client.sent[s.taken..])
              + Stdin(s.client.Unsent()) == s.client.accepted
  {
    var wire := s.client.sent[s.taken..];
    assert s.client.sent == Read(s) + wire;
    StdinAppend(Read(s), wire);
  }

  /**
   In every interleaving the shell has received a prefix of what the user typed, and until
   something fails every accepted byte is in exactly one place on its way, in order.
   */
  lemma InputIsAPrefix(s: Session, steps: seq<Step>)
    requires Run(Start(), s, steps)
    ensures s.delivered <= s.client.accepted
    ensures |s.queue| <= QUEUE_SLOTS && s.taken <= |s.client.sent|
    ensures Healthy(s) ==>
              s.delivered + s.hand + Stdin(s.queue) + Stdin(s.client.sent[s.taken..])
              + Stdin(s.client.Unsent()) == s.client.accepted
  {
    StartIsGood();
    RunKeeps(Start(), s, steps);
    Books(s);
  }

  /**
   What ends the server's side: a message over 64 KiB, a 33rd one in the channel, or a cancelled
   context stop the reader; a message that is neither input nor an applicable size stops the writer.
   */
  lemma ServerVerdicts(s: Session, obeysCancel: bool, understood: bool)
    requires Inv(s) && s.reading && s.writing
    ensures s.taken < |s.client.sent| ==>
              var msg, t := s.client.sent[s.taken], ReadOne(s, obeysCancel);
              && t.taken == s.taken + 1
              && (t.reading <==> |msg| <= 65536 && (msg == [] || (!(s.cancelled && obeysCancel) && |s.queue| < 32)))
              && t.cancelled == (s.cancelled || !t.reading)
              && t.queue == if t.reading && msg != [] then s.queue + [msg] else s.queue
    ensures s.queue != [] && s.queue[0] != [] ==>
              var msg, t := s.queue[0], TakeOne(s, understood);
              && t.queue == s.queue[1..]
              && (t.writing <==> msg[0] == 0x00 || (msg[0] == 0x01 && understood))
              && t.cancelled == (s.cancelled || !t.writing)
              && t.hand == if msg[0] == 0x00 then msg[1..] else s.hand
  {
  }

  lemma {:induction false} RunClosesDown(s: Session, s': Session, steps: seq<Step>)
    requires ClosesDown(s.client) && Run(s, s', steps)
    ensures ClosesDown(s'.client)
    decreases |steps|
  {
    if steps != [] {
      var mid :| Next(s, mid, steps[0]) && Run(mid, s', steps[1..]);
      if steps[0].Browser? { StepClosesDown(s.client, mid.client, steps[0].event); }
      RunClosesDown(mid, s', steps[1..]);
    }
  }

  /** In every reachable state an ended connection's socket is closing and a replaced one has nothing left to do. */
  lemma EndedIsClosing(s: Session, steps: seq<Step>)
    requires Run(Start(), s, steps)
    ensures !s.client.Intact() ==> s.client.ready in {Closing, Closed}
    ensures !s.client.current ==> !s.client.pending && s.client.queue == []
  {
    RunClosesDown(Start(), s, steps);
  }

  // ----- input gets through -----

  predicate ServerHasWork(s: Session) { s.hand != [] || s.queue != [] || s.taken < |s.client.sent| }

  /** How much the server has to do with what reached it: every frame is read, then taken, then written. */
  function Work(s: Session): nat
    requires s.taken <= |s.client.sent|
  {
    2 * Bytes(s.client.sent[s.taken..]) + Bytes(s.queue) + |s.hand|
  }

  /** The server's next step with input it holds or can read. */
  function Mover(s: Session): Step {
    if s.hand != [] then Writes(|s.hand|) else if s.queue != [] then Takes(true) else Reads(false)
  }

  function Moved(s: Session): Session
    requires Orderly(s) && ServerHasWork(s)
  {
    if s.hand != [] then s.(delivered := s.delivered + s.hand[..|s.hand|], hand := s.hand[|s.hand|..])
    else if s.queue != [] then (assert Sendable(s.queue[0]); TakeOne(s, true))
    else ReadOne(s, false)
  }

  lemma WireShrinks(frames: seq<Frame>, n: nat)
    requires n < |frames|
    ensures Bytes(frames[n..]) == |frames[n]| + Bytes(frames[n + 1..])
  {
    assert frames[n..][1..] == frames[n + 1..];
  }

  lemma ReadingProgresses(s: Session)
    requires Inv(s) && Healthy(s) && s.hand == [] && s.queue == [] && s.taken < |s.client.sent|
    ensures ReadOne(s, false) == s.(taken := s.taken + 1, queue := [s.client.sent[s.taken]])
    ensures Work(ReadOne(s, false)) < Work(s)
  {
    assert Sendable(s.client.sent[s.taken]);
    WireShrinks(s.client.sent, s.taken);
    WireShrinks([s.client.sent[s.taken]], 0);
  }

  lemma TakingProgresses(s: Session)
    requires Inv(s) && Healthy(s) && s.hand == [] && s.queue != [] && Sendable(s.queue[0])
    ensures !TakeOne(s, true).cancelled && TakeOne(s, true).client == s.client
    ensures Work(TakeOne(s, true)) < Work(s)
  {
  }

  /** Nothing fails in the server's next step, and it brings the input closer to the shell. */
  lemma MoveProgresses(s: Session)
    requires Inv(s) && Healthy(s) && ServerHasWork(s)
    ensures Next(s, Moved(s), Mover(s)) && Healthy(Moved(s)) && Moved(s).client == s.client
    ensures Moved(s).taken <= |s.client.sent| && Work(Moved(s)) < Work(s)
  {
    if s.hand != [] {
      assert s.hand[|s.hand|..] == [];
    } else if s.queue != [] {
      assert Sendable(s.queue[0]);
      TakingProgresses(s);
    } else {
      ReadingProgresses(s);
    }
  }

  /**
   Input never gets stuck: while nothing has failed and some accepted byte is not delivered,
   either the server can take a step that fails nothing and leaves it less to do with what has
   reached it, or the browser has a pump scheduled for what has not left it.
   */
  lemma InputCanProceed(s: Session, steps: seq<Step>)
    requires Run(Start(), s, steps) && Healthy(s) && s.client.Live() && s.delivered != s.client.accepted
    ensures Inv(s)
    ensures if ServerHasWork(s)
            then Next(s, Moved(s), Mover(s)) && Healthy(Moved(s)) && Inv(Moved(s)) && Work(Moved(s)) < Work(s)
            else s.client.Unsent() != [] && s.client.pending
  {
    StartIsGood();
    RunKeeps(Start(), s, steps);
    Books(s);
    if ServerHasWork(s) {
      MoveProgresses(s);
      StepKeeps(s, Moved(s), Mover(s));
    }
  }

  /** The socket's buffer drains and the scheduled pump fires: fewer frames are left to send. */
  lemma PumpMoves(s: Session) returns (mid: Session, s': Session)
    requires Inv(s) && Healthy(s) && s.client.Live() && s.client.Unsent() != []
    ensures Next(s, mid, Browser(Drains(0))) && Next(mid, s', Browser(TimerFires)) && Inv(s')
    ensures Healthy(s') && s'.client.Live() && s'.client.accepted == s.client.accepted
    ensures |s'.client.Unsent()| < |s.client.Unsent()|
  {
    var c := s.client.(buffered := 0);
    mid := s.(client := c);
    StepKeeps(s, mid, Browser(Drains(0)));
    var d := c.(pending := false);
    var d' := PumpWithoutFailure(d);
    PumpProgress(d, d');
    s' := mid.(client := d');
    StepKeeps(mid, s', Browser(TimerFires));
  }

  lemma {:induction false} Arrive(s: Session) returns (s': Session, more: seq<Step>)
    requires Inv(s) && Healthy(s) && s.client.Live()
    ensures Run(s, s', more) && Healthy(s') && s'.client.Live()
    ensures s'.delivered == s'.client.accepted == s.client.accepted
    decreases |s.client.Unsent()|, Work(s)
  {
    if ServerHasWork(s) {
      MoveProgresses(s);
      StepKeeps(s, Moved(s), Mover(s));
      s', more := Arrive(Moved(s));
      more := RunFrom(s, Moved(s), s', Mover(s), more);
    } else if s.client.Unsent() != [] {
      var mid, next := PumpMoves(s);
      s', more := Arrive(next);
      more := RunFrom(mid, next, s', Browser(TimerFires), more);
      more := RunFrom(s, mid, s', Browser(Drains(0)), more);
    } else {
      Books(s);
      s', more := s, [];
    }
  }

  /** Whatever has happened so far, unless something failed all accepted input can still arrive. */
  lemma InputCanArrive(s: Session, steps: seq<Step>) returns (s': Session, more: seq<Step>)
    requires Run(Start(), s, steps) && Healthy(s) && s.client.Live()
    ensures Run(s, s', more) && Healthy(s') && s'.client.Live()
    ensures s'.delivered == s'.client.accepted == s.client.accepted
  {
    StartIsGood();
    RunKeeps(Start(), s, steps);
    s', more := Arrive(s);
  }

  /** In every reachable state unsent input of a live connection has a pump on its way. */
  lemma InputIsNeverStranded(s: Session, steps: seq<Step>)
    requires Run(Start(), s, steps)
    ensures var c := s.client;
            c.current && c.connected && c.ready == Open && c.Unsent() != [] ==> c.pending && c.timer
  {
    StartIsGood();
    RunKeeps(Start(), s, steps);
  }

  /** Nothing more was sent or accepted between two states of an ended connection. */
  predicate Silent(c: Client, d: Client) {
    && !d.Intact() && !d.connected && d.sent == c.sent && d.accepted == c.accepted
    && d.failed == c.failed && d.warned == c.warned
  }

  lemma EndedStep(s: Session, s': Session, step: Step)
    requires Inv(s) && Next(s, s', step) && !s.client.Intact()
    ensures Silent(s.client, s'.client)
  {
    if step.Browser? { EndedStaysSilent(s.client, s'.client, step.event); }
  }

  lemma {:induction false} EndedRun(s: Session, s': Session, steps: seq<Step>)
    requires Inv(s) && !s.client.Intact() && Run(s, s', steps)
    ensures Silent(s.client, s'.client)
    decreases |steps|
  {
    if steps != [] {
      var mid :| Next(s, mid, steps[0]) && Run(mid, s', steps[1..]);
      EndedStep(s, mid, steps[0]);
      StepKeeps(s, mid, steps[0]);
      EndedRun(mid, s', steps[1..]);
    }
  }

  /** Once a connection has failed or was replaced, no later state has sent or accepted more. */
  lemma EndIsFinal(s: Session, s': Session, before: seq<Step>, after: seq<Step>)
    requires Run(Start(), s, before) && !s.client.Intact() && Run(s, s', after)
    ensures Silent(s.client, s'.client)
  {
    StartIsGood();
    RunKeeps(Start(), s, before);
    EndedRun(s, s', after);
  }

  // ----- input can be lost on the server without a warning -----

  /** Everything typed so far is in the channel; the browser has nothing left to send. */
  predicate Waiting(s: Session) {
    && s.client.Live() && s.client.Intact() && s.client.queue == [] && s.client.index == 0
    && !s.client.timer && !s.client.pending && s.client.buffered == 0
    && s.reading && !s.cancelled && s.taken == |s.client.sent| && s.delivered == []
  }

  /** The client once it has sent a keystroke and the server has read it. */
  function AfterPress(c: Client, key: byte): Client {
    c.(sent := c.sent + [[STDIN, key]], accepted := c.accepted + [key])
  }

  /** The browser has sent a keystroke and its buffer is empty again. */
  function Gone(s: Session, key: byte): Session { s.(client := AfterPress(s.client, key)) }

  /** The reader has put the keystroke into the channel or given up. */
  function Pressed(s: Session, key: byte): Session
    requires s.taken == |s.client.sent|
  {
    ReadOne(Gone(s, key), false)
  }

  lemma KeyLeaves(s: Session, key: byte, s': Session, rest: seq<Step>) returns (steps: seq<Step>)
    requires Waiting(s) && Run(Gone(s, key), s', rest)
    ensures Run(s, s', steps)
  {
    var typed := s.(client := AfterPress(s.client, key).(buffered := 2));
    KeyIsSent(s.client, key);
    steps := RunFrom(typed, Gone(s, key), s', Browser(Drains(0)), rest);
    steps := RunFrom(s, typed, s', Browser(Types([key])), steps);
  }

  lemma KeyIsRead(s: Session, key: byte, s': Session, rest: seq<Step>) returns (steps: seq<Step>)
    requires Waiting(s) && Run(Pressed(s, key), s', rest)
    ensures Run(s, s', steps)
  {
    steps := RunFrom(Gone(s, key), Pressed(s, key), s', Reads(false), rest);
    steps := KeyLeaves(s, key, s', steps);
  }

  lemma PressKeeps(s: Session, key: byte)
    requires Waiting(s) && Stdin(s.client.sent) == s.client.accepted
    ensures var t := Pressed(s, key);
            && t.client == AfterPress(s.client, key) && t.delivered == []
            && Stdin(t.client.sent) == t.client.accepted
            && (|s.queue| < QUEUE_SLOTS ==> Waiting(t) && |t.queue| == |s.queue| + 1)
  {
    StdinAppend(s.client.sent, [[STDIN, key]]);
  }

  /** What the user learns when the browser hears that the connection has ended. */
  function HungUp(s: Session): Session { s.(client := AfterFail(s.client)) }

  /** Without a reader of the channel each keystroke takes a slot, and the one after the last ends it all. */
  lemma {:induction false} PressOn(s: Session, key: byte, room: nat) returns (s': Session, steps: seq<Step>)
    requires Waiting(s) && |s.queue| + room == QUEUE_SLOTS && Stdin(s.client.sent) == s.client.accepted
    ensures Run(s, s', steps)
    ensures s'.client.failed && !s'.client.warned && Stdin(s'.client.sent) == s'.client.accepted
    ensures s'.delivered == [] && |s'.client.accepted| == |s.client.accepted| + room + 1
    decreases room
  {
    PressKeeps(s, key);
    var t := Pressed(s, key);
    if room > 0 {
      s', steps := PressOn(t, key, room - 1);
    } else {
      s' := HungUp(t);
      steps := RunFrom(t, s', s', Browser(HearsFailure), []);
    }
    steps := KeyIsRead(s, key, s', steps);
  }

  /** The state in which the connection is made and the terminal's size was sent and applied. */
  function Ready(size: bytes): Session {
    var c := Start().client.(ready := Open, connected := true, sent := [[RESIZE] + size]);
    Start().(client := c, taken := 1)
  }

  /** Getting there: the size is on its way, in the socket's buffer, and the socket has just opened. */
  function Sent(size: bytes): Session { Ready(size).(taken := 0) }

  function Greeted(size: bytes): Session { Sent(size).(client := Sent(size).client.(buffered := |size| + 1)) }

  function Opened(): Session { Start().(client := Start().client.(ready := Open)) }

  lemma SizeIsApplied(size: bytes, s': Session, rest: seq<Step>) returns (steps: seq<Step>)
    requires |size| <= SIZE_BYTES && Run(Ready(size), s', rest)
    ensures Run(Sent(size), s', steps)
  {
    var read := Ready(size).(queue := [[RESIZE] + size]);
    steps := RunFrom(read, Ready(size), s', Takes(true), rest);
    steps := RunFrom(Sent(size), read, s', Reads(false), steps);
  }

  lemma Greets(size: bytes)
    requires |size| <= SIZE_BYTES
    ensures Next(Opened(), Greeted(size), Browser(HearsConnected(size)))
  {
    assert [] + [[RESIZE] + size] == [[RESIZE] + size];
  }

  lemma GetsReady(size: bytes, s': Session, rest: seq<Step>) returns (steps: seq<Step>)
    requires |size| <= SIZE_BYTES && Run(Sent(size), s', rest)
    ensures Run(Opened(), s', steps)
  {
    steps := RunFrom(Greeted(size), Sent(size), s', Browser(Drains(0)), rest);
    Greets(size);
    steps := RunFrom(Opened(), Greeted(size), s', Browser(HearsConnected(size)), steps);
  }

  lemma Opens(s': Session, rest: seq<Step>) returns (steps: seq<Step>)
    requires Run(Opened(), s', rest)
    ensures Run(Start(), s', steps)
  {
    steps := RunFrom(Start(), Opened(), s', Browser(SocketMoves(Open)), rest);
  }

  lemma ReadyWaits(size: bytes)
    ensures Waiting(Ready(size)) && Stdin(Ready(size).client.sent) == []
  {
    ResizeIsNoInput([], size);
    assert [] + [[RESIZE] + size] == [[RESIZE] + size];
  }

  /**
   The warning covers the browser's side only: 33 keystrokes that all left the browser, behind a
   shell that takes none of them, overflow the channel; the server hangs up, the shell has
   received nothing, and the failure message does not mention lost input.
   */
  lemma UnwarnedOverflow(key: byte, size: bytes) returns (s: Session, steps: seq<Step>)
    requires |size| <= SIZE_BYTES
    ensures Run(Start(), s, steps)
    ensures s.client.failed && !s.client.warned && Stdin(s.client.sent) == s.client.accepted
    ensures s.delivered == [] && |s.client.accepted| == 33
  {
    ReadyWaits(size);
    s, steps := PressOn(Ready(size), key, QUEUE_SLOTS);
    steps := SizeIsApplied(size, s, steps);
    steps := GetsReady(size, s, steps);
    steps := Opens(s, steps);
  }
}
