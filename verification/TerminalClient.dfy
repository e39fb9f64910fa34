/**
 The browser side of a terminal: one connection made by the terminal hook.
 Typed text becomes stdin frames in a queue; a pump moves frames to the WebSocket while
 little data is buffered there and re-arms a timer otherwise.
 */
module TerminalClient {
  import opened Common

  type Frame = bytes

  const INPUT_CHUNK_BYTES := 16 * 1024
  const BUFFER_LIMIT := 256 * 1024
  const STDIN: byte := 0x00
  const RESIZE: byte := 0x01

  /** A size is a JSON object of two numbers: 17 characters of its own and at most 25 for each. */
  const SIZE_BYTES := 17 + 2 * 25

  /** The stdin frames of some encoded text: chunks of at most 16 KiB behind a zero byte. */
  function Frames(data: bytes): seq<Frame> {
    if data == [] then []
    else
      var n := Min(INPUT_CHUNK_BYTES, |data|);
      [[STDIN] + data[..n]] + Frames(data[n..])
  }

  predicate IsStdin(f: Frame) { f != [] && f[0] == STDIN }

  /** The bytes a sequence of frames carries to the shell's standard input, in order. */
  function Stdin(frames: seq<Frame>): bytes {
    if frames == [] then []
    else (if IsStdin(frames[0]) then frames[0][1..] else []) + Stdin(frames[1..])
  }

  /** What every queued frame looks like. */
  predicate Chunk(f: Frame) { IsStdin(f) && 2 <= |f| <= INPUT_CHUNK_BYTES + 1 }

  /** What ever goes over the wire. */
  predicate Sendable(f: Frame) {
    Chunk(f) || (f != [] && f[0] == RESIZE && |f| <= SIZE_BYTES + 1)
  }

  lemma {:induction false} StdinAppend(a: seq<Frame>, b: seq<Frame>)
    ensures Stdin(a + b) == Stdin(a) + Stdin(b)
  {
    if a == [] {
      assert a + b == b;
    } else {
      assert (a + b)[1..] == a[1..] + b;
      StdinAppend(a[1..], b);
    }
  }

  /** Cutting text into frames and reading the frames back loses and reorders nothing. */
  lemma {:induction false} FramesRoundTrip(data: bytes)
    ensures Stdin(Frames(data)) == data
    ensures forall f | f in Frames(data) :: Chunk(f) && f[0] == 0x00 && |f| <= 16385
    ensures forall i | 0 <= i < |Frames(data)| - 1 :: |Frames(data)[i]| == 16385
  {
    if data != [] {
      var n := Min(INPUT_CHUNK_BYTES, |data|);
      FramesRoundTrip(data[n..]);
      assert ([STDIN] + data[..n])[1..] == data[..n];
      assert Frames(data)[1..] == Frames(data[n..]);
      assert forall i | 1 <= i < |Frames(data)| :: Frames(data)[i] == Frames(data[n..])[i - 1];
    }
  }

  /** The frames still to come after `offset` bytes. */
  function FramesFrom(data: bytes, offset: nat): seq<Frame> {
    if offset < |data| then Frames(data[offset..]) else []
  }

  lemma NextFrame(data: bytes, offset: nat)
    requires offset < |data|
    ensures FramesFrom(data, offset)
            == [[STDIN] + data[offset..Min(offset + INPUT_CHUNK_BYTES, |data|)]]
               + FramesFrom(data, offset + INPUT_CHUNK_BYTES)
  {
    var rest, end := data[offset..], Min(offset + INPUT_CHUNK_BYTES, |data|);
    assert end - offset == Min(INPUT_CHUNK_BYTES, |rest|);
    assert Frames(rest) == [[STDIN] + rest[..end - offset]] + Frames(rest[end - offset..]);
    assert rest[..end - offset] == data[offset..end];
    assert rest[end - offset..] == data[end..];
  }

  /** The generator of useTerminalConnection.ts, collected into a list. */
  method InputFrames(data: bytes) returns (frames: seq<Frame>)
    ensures frames == Frames(data)
  {
    frames := [];
    var offset := 0;
    assert data[0..] == data;
    while offset < |data|
      invariant 0 <= offset
      invariant Frames(data) == frames + FramesFrom(data, offset)
    {
      NextFrame(data, offset);
      var end := Min(offset + INPUT_CHUNK_BYTES, |data|);
      Regroup(frames, [[STDIN] + data[offset..end]], FramesFrom(data, offset + INPUT_CHUNK_BYTES));
      frames := frames + [[STDIN] + data[offset..end]];
      offset := offset + INPUT_CHUNK_BYTES;
    }
  }

  datatype ReadyState = Connecting | Open | Closing | Closed

  /** The observable state of one connection, with the history the claims are about. */
  datatype Client = Client(
    current: bool,          // the hook's generation is still this connection's
    connected: bool,
    failed: bool,
    queue: seq<Frame>,
    index: nat,
    timer: bool,            // the variable pumpTimer is set
    pending: bool,          // a pump callback is scheduled
    ready: ReadyState,
    buffered: nat,          // ws.bufferedAmount
    sent: seq<Frame>,       // everything ws.send accepted
    accepted: bytes,        // everything sendRef accepted
    warned: bool)           // the failure message mentions lost input
  {
    predicate Live() { current && connected && ready == Open }

    /** Neither failed nor replaced: only such a connection may ever send again. */
    predicate Intact() { current && !failed }

    function Unsent(): seq<Frame> { if index <= |queue| then queue[index..] else [] }
  }

  function Bytes(frames: seq<Frame>): nat {
    if frames == [] then 0 else |frames[0]| + Bytes(frames[1..])
  }

  lemma {:induction false} BytesAppend(a: seq<Frame>, f: Frame)
    ensures Bytes(a + [f]) == Bytes(a) + |f|
  {
    if a == [] {
      assert a + [f] == [f];
    } else {
      assert (a + [f])[1..] == a[1..] + [f];
      BytesAppend(a[1..], f);
    }
  }

  function Shut(r: ReadyState): ReadyState { if r == Closed then Closed else Closing }

  /** The state after `fail`: a no-op on a replaced or already failed connection. */
  function AfterFail(c: Client): Client {
    if !c.Intact() then c
    else c.(failed := true, connected := false, warned := c.index < |c.queue| || c.buffered > 0,
            queue := [], index := 0, ready := Shut(c.ready))
  }

  /** What the socket holds once the pump has handed over queue[index..n]. */
  function Load(c: Client, n: nat): nat
    requires c.index <= n <= |c.queue|
  {
    c.buffered + Bytes(c.queue[c.index..n])
  }

  /** The state in which the pump has handed over queue[index..n]. */
  function Handed(c: Client, n: nat): Client
    requires c.index <= n <= |c.queue|
  {
    c.(timer := false, sent := c.sent + c.queue[c.index..n], index := n, buffered := Load(c, n))
  }

  /** The last frame before number n, hence every earlier one, was handed over below the limit. */
  predicate Admitted(c: Client, n: nat)
    requires c.index <= n <= |c.queue|
  {
    n > c.index ==> Load(c, n - 1) < BUFFER_LIMIT
  }

  lemma LoadStart(c: Client)
    requires c.index <= |c.queue|
    ensures Load(c, c.index) == c.buffered
  {
    assert c.queue[c.index..c.index] == [];
  }

  lemma LoadNext(c: Client, n: nat)
    requires c.index <= n < |c.queue|
    ensures Load(c, n + 1) == Load(c, n) + |c.queue[n]|
  {
    assert c.queue[c.index..n + 1] == c.queue[c.index..n] + [c.queue[n]];
    BytesAppend(c.queue[c.index..n], c.queue[n]);
  }

  /** One more successful send, seen from the pump's starting state. */
  lemma HandedNext(c: Client, n: nat)
    requires c.index <= n < |c.queue|
    ensures Handed(c, n + 1)
            == Handed(c, n).(sent := Handed(c, n).sent + [c.queue[n]], index := n + 1,
                             buffered := Load(c, n) + |c.queue[n]|)
  {
    var before, f := c.queue[c.index..n], c.queue[n];
    assert c.queue[c.index..n + 1] == before + [f];
    assert c.sent + (before + [f]) == c.sent + before + [f];
    LoadNext(c, n);
  }

  /** The three ways a pump ends after handing over queue[index..n]. */
  predicate PumpedTo(c: Client, c': Client, n: nat)
    requires c.index <= n <= |c.queue|
  {
    var h := Handed(c, n);
    && Admitted(c, n)
    && (|| (n == |c.queue| && c' == h.(queue := [], index := 0))
        || (n < |c.queue| && Load(c, n) >= BUFFER_LIMIT && c' == h.(timer := true, pending := true))
        // ws.send threw on frame n, after queueIndex had already passed it
        || (n < |c.queue| && Load(c, n) < BUFFER_LIMIT && c' == AfterFail(h.(index := n + 1))))
  }

  ghost predicate Pumped(c: Client, c': Client) {
    if !c.Live() then c' == c.(timer := false)
    else exists n: nat | c.index <= n <= |c.queue| :: PumpedTo(c, c', n)
  }

  /** The state between queueing typed text and pumping. */
  function Queued(c: Client, data: bytes): Client {
    c.(queue := c.queue + Frames(data), accepted := c.accepted + data)
  }

  /** sendRef: queue the frames of `data`, then pump unless a pump is already scheduled. */
  ghost predicate Typed(c: Client, c': Client, data: bytes) {
    if !c.Live() then c' == c
    else
      if c.timer then c' == Queued(c, data) else Pumped(Queued(c, data), c')
  }

  /** sendResize: straight to the socket, past the queue. */
  predicate Resized(c: Client, c': Client, payload: bytes) {
    var frame := [RESIZE] + payload;
    if !c.Live() then c' == c
    else c' == c.(sent := c.sent + [frame], buffered := c.buffered + |frame|) || c' == AfterFail(c)
  }

  function Connected(c: Client): Client { c.(connected := true) }

  /** The cleanup of a connection: note that queueIndex keeps its value. */
  function AfterCleanup(c: Client): Client {
    c.(current := false, connected := false, queue := [], ready := Shut(c.ready), pending := false)
  }

  function Fresh(): Client {
    Client(true, false, false, [], 0, false, false, Connecting, 0, [], [], false)
  }

  class WebSocket {
    var readyState: ReadyState
    var bufferedAmount: nat
    var sent: seq<Frame>

    constructor ()
      ensures readyState == Connecting && bufferedAmount == 0 && sent == []
    {
      readyState, bufferedAmount, sent := Connecting, 0, [];
    }

    /** Accepts the whole frame or throws (ok is false) and accepts nothing. */
    method Send(frame: Frame) returns (ok: bool)
      modifies this`bufferedAmount, this`sent
      ensures ok ==> sent == old(sent) + [frame] && bufferedAmount == old(bufferedAmount) + |frame|
      ensures !ok ==> sent == old(sent) && bufferedAmount == old(bufferedAmount)
    {
      ok := *;
      if ok {
        sent := sent + [frame];
        bufferedAmount := bufferedAmount + |frame|;
      }
    }

    method Close()
      modifies this`readyState
      ensures readyState == Shut(old(readyState))
    {
      readyState := Shut(readyState);
    }
  }

  /** What the connections of one mounted hook share. */
  class Hook {
    var generation: nat

    constructor ()
      ensures generation == 0
    {
      generation := 0;
    }
  }

  class Connection {
    const hook: Hook
    const ws: WebSocket
    const id: nat
    var connected: bool
    var failed: bool
    var queue: seq<Frame>
    var queueIndex: nat
    var pumpTimer: bool
    var pumpPending: bool
    var warned: bool
    ghost var accepted: bytes

    ghost function View(): Client
      reads this, hook, ws
    {
      Client(hook.generation == id, connected, failed, queue, queueIndex, pumpTimer, pumpPending,
             ws.readyState, ws.bufferedAmount, ws.sent, accepted, warned)
    }

    /** The part of `connect` after the old connection was cleaned up. */
    constructor (hook: Hook)
      modifies hook
      ensures this.hook == hook && fresh(ws)
      ensures hook.generation == old(hook.generation) + 1 == id
      ensures View() == Fresh()
    {
      hook.generation := hook.generation + 1;
      this.hook, id := hook, hook.generation;
      ws := new WebSocket();
      connected, failed, queue, queueIndex := false, false, [], 0;
      pumpTimer, pumpPending, warned := false, false, false;
      accepted := [];
    }

    method Fail()
      modifies this, ws
      ensures View() == AfterFail(old(View()))
      ensures Next(old(View()), View(), HearsFailure)
    {
      if hook.generation != id || failed { return; }
      failed := true;
      connected := false;
      warned := queueIndex < |queue| || ws.bufferedAmount > 0;
      queue := [];
      queueIndex := 0;
      ws.Close();
    }

    /** One turn of the pump's loop: queueIndex moves on before the send can throw. */
    method SendNext(ghost c: Client)
      returns (ok: bool)
      requires c.index <= queueIndex < |c.queue| && queueIndex < |queue|
      requires View() == Handed(c, queueIndex) && Admitted(c, queueIndex)
      requires ws.bufferedAmount < BUFFER_LIMIT
      modifies this, ws
      ensures ok ==> c.index <= queueIndex == old(queueIndex) + 1 <= |c.queue|
      ensures ok ==> View() == Handed(c, queueIndex) && Admitted(c, queueIndex)
      ensures !ok ==> PumpedTo(c, View(), old(queueIndex))
    {
      ghost var n, h := queueIndex, View();
      HandedNext(c, n);
      var frame := queue[queueIndex];
      queueIndex := queueIndex + 1;
      assert View() == h.(index := n + 1);
      ok := ws.Send(frame);
      if ok {
        assert View() == Handed(c, n + 1);
      } else {
        assert View() == h.(index := n + 1);
        Fail();
      }
    }

    method Pump()
      requires queueIndex <= |queue| || hook.generation != id
      modifies this, ws
      ensures Pumped(old(View()), View())
    {
      pumpTimer := false;
      if hook.generation != id || !connected || ws.readyState != Open { return; }
      ghost var c := old(View());
      while queueIndex < |queue| && ws.bufferedAmount < BUFFER_LIMIT
        invariant c.index <= queueIndex <= |c.queue|
        invariant View() == Handed(c, queueIndex) && Admitted(c, queueIndex)
        decreases |c.queue| - queueIndex
      {
        ghost var n := queueIndex;
        var ok := SendNext(c);
        if !ok {
          assert PumpedTo(c, View(), n);
          return;
        }
      }
      ghost var n := queueIndex;
      if queueIndex < |queue| {
        pumpTimer, pumpPending := true, true;
      } else {
        queue, queueIndex := [], 0;
      }
      assert PumpedTo(c, View(), n);
    }

    /** The scheduled callback: it pumps only for the current connection. */
    method PumpTimerFires()
      requires pumpPending
      requires queueIndex <= |queue| || hook.generation != id
      modifies this, ws
      ensures Next(old(View()), View(), TimerFires)
    {
      pumpPending := false;
      ghost var c := old(View()).(pending := false);
      label fired:
      if hook.generation == id {
        assert View() == c;
        Pump();
        assert old@fired(View()) == c;
      }
    }

    method SendInput(data: bytes)
      requires queueIndex <= |queue| || hook.generation != id
      modifies this, ws
      ensures Next(old(View()), View(), Types(data))
    {
      if hook.generation != id || !connected || ws.readyState != Open { return; }
      var frames := InputFrames(data);
      queue := queue + frames;
      accepted := accepted + data;
      label queued:
      assert View() == Queued(old(View()), data);
      if !pumpTimer {
        Pump();
        assert old@queued(View()) == Queued(old(View()), data);
      }
    }

    method SendResize(payload: bytes)
      requires |payload| <= SIZE_BYTES
      modifies this, ws
      ensures Next(old(View()), View(), Resizes(payload))
    {
      if hook.generation != id || !connected || ws.readyState != Open { return; }
      var ok := ws.Send([RESIZE] + payload);
      if !ok { Fail(); }
    }

    /** A 0x04 frame from the server: the shell is ready; the size is sent at once. */
    method OnConnected(payload: bytes)
      requires ws.readyState != Connecting && |payload| <= SIZE_BYTES
      modifies this, ws
      ensures Next(old(View()), View(), HearsConnected(payload))
    {
      if hook.generation != id || failed { return; }
      connected := true;
      label connectedNow:
      assert View() == Connected(old(View()));
      SendResize(payload);
      assert old@connectedNow(View()) == Connected(old(View()));
    }

    method Cleanup()
      requires hook.generation == id
      modifies this, ws, hook
      ensures Next(old(View()), View(), IsReplaced)
      ensures hook.generation == old(hook.generation) + 1
    {
      hook.generation := hook.generation + 1;
      connected := false;
      ws.Close();
      pumpPending := false;
      queue := [];
    }
  }

  /** Everything that can happen to a connection between two turns of the browser's event loop. */
  datatype Event =
    | Types(data: bytes)
    | TimerFires
    | Drains(buffered: nat)
    | Resizes(payload: bytes)
    | HearsConnected(payload: bytes)
    | HearsFailure              // an error or end-of-session frame, onclose or onerror
    | IsReplaced                // reconnect, server change or unmount
    | SocketMoves(ready: ReadyState)

  predicate Later(a: ReadyState, b: ReadyState) {
    (a == Connecting && b != Connecting) || (a == Open && b in {Closing, Closed}) || (a == Closing && b == Closed)
  }

  ghost predicate Next(c: Client, c': Client, e: Event) {
    match e
    case Types(data) => Typed(c, c', data)
    case TimerFires =>
      c.pending && var d := c.(pending := false); if c.current then Pumped(d, c') else c' == d
    case Drains(b) => b <= c.buffered && c' == c.(buffered := b)
    case Resizes(payload) => |payload| <= SIZE_BYTES && Resized(c, c', payload)
    case HearsConnected(payload) =>
      && c.ready != Connecting && |payload| <= SIZE_BYTES
      && if c.Intact() then Resized(Connected(c), c', payload) else c' == c
    case HearsFailure => c' == AfterFail(c)
    case IsReplaced => c.current && c' == AfterCleanup(c)
    case SocketMoves(r) => Later(c.ready, r) && c' == c.(ready := r)
  }

  /** Input that can still be sent is always going to be: a pump is scheduled. */
  predicate NotStranded(c: Client) {
    c.Live() && c.index < |c.queue| ==> c.pending
  }

  /** No byte sendRef accepted is lost, doubled or reordered on its way through the queue. */
  ghost predicate Conserved(c: Client) {
    && Stdin(c.sent) <= c.accepted
    && (c.Intact() ==> Stdin(c.sent) + Stdin(c.Unsent()) == c.accepted)
  }

  ghost predicate ClientInv(c: Client) {
    && (!c.Intact() ==> !c.connected)
    && (c.current ==> c.index <= |c.queue| && forall f | f in c.queue :: Chunk(f))
    && (c.Intact() && !c.connected ==> c.queue == [])
    && (c.current ==> c.timer == c.pending)
    && (c.ready == Connecting ==> c.queue == [])
    && NotStranded(c)
    && Conserved(c)
  }

  /** Handing frames over moves bytes from the queue to the socket and changes nothing else. */
  lemma HandedConserves(c: Client, n: nat)
    requires c.index <= n <= |c.queue|
    ensures Stdin(Handed(c, n).sent) + Stdin(c.queue[n..]) == Stdin(c.sent) + Stdin(c.queue[c.index..])
  {
    var gone := c.queue[c.index..n];
    assert c.queue[c.index..] == gone + c.queue[n..];
    StdinAppend(gone, c.queue[n..]);
    StdinAppend(c.sent, gone);
  }

  lemma PumpedToConserves(c: Client, c': Client, n: nat)
    requires c.index <= n <= |c.queue| && PumpedTo(c, c', n) && c.Live() && c.Intact() && Conserved(c)
    ensures Conserved(c')
  {
    HandedConserves(c, n);
    if c'.Intact() {
      assert c'.Unsent() == c.queue[n..] && c'.sent == Handed(c, n).sent;
    } else {
      assert c'.sent == Handed(c, n).sent;
    }
  }

  /** The invariant, except for what the pump is about to settle. */
  ghost predicate MayPump(c: Client) {
    && c.current && !c.pending
    && (!c.Intact() ==> !c.connected)
    && c.index <= |c.queue| && (forall f | f in c.queue :: Chunk(f))
    && (c.Intact() && !c.connected ==> c.queue == [])
    && (c.ready == Connecting ==> c.queue == [])
    && Conserved(c)
  }

  lemma PumpedToKeeps(c: Client, c': Client, n: nat)
    requires c.index <= n <= |c.queue| && PumpedTo(c, c', n) && MayPump(c) && c.Live()
    ensures ClientInv(c')
    ensures c.sent <= c'.sent && c'.accepted == c.accepted
  {
    PumpedToConserves(c, c', n);
    PumpedToLoad(c, c', n);
  }

  lemma PumpedKeeps(c: Client, c': Client)
    requires Pumped(c, c') && MayPump(c)
    ensures ClientInv(c')
    ensures c.sent <= c'.sent && c'.accepted == c.accepted
  {
    if c.Live() {
      var n: nat :| c.index <= n <= |c.queue| && PumpedTo(c, c', n);
      PumpedToKeeps(c, c', n);
    }
  }

  lemma AppendedConserves(c: Client, c': Client, fs: seq<Frame>)
    requires Conserved(c) && c.Intact() && c.index <= |c.queue|
    requires c' == c.(queue := c.queue + fs, accepted := c.accepted + Stdin(fs))
    ensures Conserved(c')
  {
    assert c'.Unsent() == c.Unsent() + fs;
    StdinAppend(c.Unsent(), fs);
    Regroup(Stdin(c.sent), Stdin(c.Unsent()), Stdin(fs));
  }

  lemma QueuedConserves(c: Client, data: bytes)
    requires ClientInv(c) && c.Live()
    ensures Conserved(Queued(c, data))
    ensures forall f | f in Queued(c, data).queue :: Chunk(f)
  {
    FramesRoundTrip(data);
    AppendedConserves(c, Queued(c, data), Frames(data));
  }

  lemma TypedKeeps(c: Client, c': Client, data: bytes)
    requires ClientInv(c) && Typed(c, c', data)
    ensures ClientInv(c') && c.sent <= c'.sent
  {
    if c.Live() {
      QueuedConserves(c, data);
      if !c.timer { PumpedKeeps(Queued(c, data), c'); }
    }
  }

  /** A resize frame carries no input. */
  lemma ResizeIsNoInput(frames: seq<Frame>, payload: bytes)
    ensures Stdin(frames + [[RESIZE] + payload]) == Stdin(frames)
  {
    var frame := [RESIZE] + payload;
    StdinAppend(frames, [frame]);
    assert Stdin([frame]) == [] + Stdin([frame][1..]) == [];
  }

  lemma ResizedKeeps(c: Client, c': Client, payload: bytes)
    requires ClientInv(c) && Resized(c, c', payload)
    ensures ClientInv(c') && c.sent <= c'.sent
  {
    ResizeIsNoInput(c.sent, payload);
  }

  lemma PassiveKeeps(c: Client, c': Client, e: Event)
    requires ClientInv(c) && Next(c, c', e) && (e.Drains? || e.HearsFailure? || e.IsReplaced? || e.SocketMoves?)
    ensures ClientInv(c') && c.sent <= c'.sent
  {
  }

  lemma TimerKeeps(c: Client, c': Client)
    requires ClientInv(c) && Next(c, c', TimerFires)
    ensures ClientInv(c') && c.sent <= c'.sent
  {
    if c.current { PumpedKeeps(c.(pending := false), c'); }
  }

  /** Every turn of the event loop keeps the invariant, and the socket's history only grows. */
  lemma ClientStepKeeps(c: Client, c': Client, e: Event)
    requires ClientInv(c) && Next(c, c', e)
    ensures ClientInv(c') && c.sent <= c'.sent
  {
    match e
    case Types(data) => TypedKeeps(c, c', data);
    case TimerFires => TimerKeeps(c, c');
    case Resizes(payload) => ResizedKeeps(c, c', payload);
    case HearsConnected(payload) =>
      if c.Intact() { ResizedKeeps(Connected(c), c', payload); }
    case _ => PassiveKeeps(c, c', e);
  }

  lemma PumpedToLoad(c: Client, c': Client, n: nat)
    requires c.index <= n <= |c.queue| && PumpedTo(c, c', n)
    ensures c'.buffered == Load(c, n) && c'.sent == Handed(c, n).sent
  {
  }

  predicate WellSent(c: Client) { forall f | f in c.sent :: Sendable(f) }

  lemma HandedIsWellSent(c: Client, n: nat)
    requires c.index <= n <= |c.queue| && WellSent(c) && forall f | f in c.queue :: Chunk(f)
    ensures WellSent(Handed(c, n))
  {
    assert forall f | f in c.queue[c.index..n] :: f in c.queue;
  }

  lemma PumpedSendsChunks(c: Client, c': Client)
    requires Pumped(c, c') && WellSent(c) && (c.Live() ==> forall f | f in c.queue :: Chunk(f))
    ensures WellSent(c')
  {
    if c.Live() {
      var n: nat :| c.index <= n <= |c.queue| && PumpedTo(c, c', n);
      PumpedToLoad(c, c', n);
      HandedIsWellSent(c, n);
    }
  }

  lemma TypedSendsChunks(c: Client, c': Client, data: bytes)
    requires ClientInv(c) && WellSent(c) && Typed(c, c', data)
    ensures WellSent(c')
  {
    if c.Live() && !c.timer {
      QueuedConserves(c, data);
      PumpedSendsChunks(Queued(c, data), c');
    }
  }

  lemma ResizedSendsSize(c: Client, c': Client, payload: bytes)
    requires WellSent(c) && |payload| <= SIZE_BYTES && Resized(c, c', payload)
    ensures WellSent(c')
  {
    assert Sendable([RESIZE] + payload);
  }

  /** Only chunks of input and sizes are ever sent. */
  lemma SendsKeep(c: Client, c': Client, e: Event)
    requires ClientInv(c) && WellSent(c) && Next(c, c', e)
    ensures WellSent(c')
  {
    match e
    case Types(data) => TypedSendsChunks(c, c', data);
    case TimerFires =>
      if c.current { PumpedSendsChunks(c.(pending := false), c'); }
    case Resizes(payload) => ResizedSendsSize(c, c', payload);
    case HearsConnected(payload) =>
      if c.Intact() { ResizedSendsSize(Connected(c), c', payload); }
    case _ =>
  }

  /** What ends a connection also closes its socket, and a replaced one has nothing scheduled or queued. */
  predicate ClosesDown(c: Client) {
    && (!c.Intact() ==> c.ready in {Closing, Closed})
    && (!c.current ==> !c.pending && c.queue == [])
  }

  lemma PumpClosesDown(c: Client, c': Client)
    requires ClosesDown(c) && Pumped(c, c') && c.current
    ensures ClosesDown(c')
  {
    if c.Live() {
      var n: nat :| c.index <= n <= |c.queue| && PumpedTo(c, c', n);
      assert c'.current;
    }
  }

  lemma StepClosesDown(c: Client, c': Client, e: Event)
    requires ClosesDown(c) && Next(c, c', e)
    ensures ClosesDown(c')
  {
    match e
    case Types(data) => if c.Live() && !c.timer { PumpClosesDown(Queued(c, data), c'); }
    case TimerFires => if c.current { PumpClosesDown(c.(pending := false), c'); }
    case _ =>
  }

  lemma PumpAcceptsNothing(c: Client, c': Client)
    requires Pumped(c, c')
    ensures c'.accepted == c.accepted
  {
    if c.Live() {
      var n: nat :| c.index <= n <= |c.queue| && PumpedTo(c, c', n);
    }
  }

  /** Typed text is accepted whole while the connection is live, and nothing else ever is. */
  lemma AcceptedIsTyped(c: Client, c': Client, e: Event)
    requires Next(c, c', e)
    ensures c'.accepted == if e.Types? && c.Live() then c.accepted + e.data else c.accepted
  {
    match e
    case Types(data) => if c.Live() && !c.timer { PumpAcceptsNothing(Queued(c, data), c'); }
    case TimerFires => if c.current { PumpAcceptsNothing(c.(pending := false), c'); }
    case _ =>
  }

  /** A size goes out as a 0x01 frame, at once and also when the connection is made, or the connection fails. */
  lemma SizesAreSent(c: Client, c': Client, payload: bytes)
    ensures Next(c, c', Resizes(payload)) ==>
              if c.Live() then c'.failed || c' == c.(sent := c.sent + [[0x01] + payload], buffered := c.buffered + 1 + |payload|)
              else c' == c
    ensures Next(c, c', HearsConnected(payload)) && c.Intact() ==>
              || c'.failed
              || (c'.connected && c'.sent == c.sent + if c.ready == Open then [[0x01] + payload] else [])
  {
  }

  /** A failure ends an intact connection, and warns exactly if the browser still held input or unsent bytes. */
  lemma FailuresEnd(c: Client, c': Client)
    requires ClientInv(c) && Next(c, c', HearsFailure) && c.Intact()
    ensures c'.failed && !c'.connected && c'.Unsent() == [] && c'.ready in {Closing, Closed}
    ensures c'.warned <==> c.Unsent() != [] || c.buffered > 0
  {
  }

  /** A failed or replaced connection sends, accepts and reports nothing and never comes back. */
  lemma EndedStaysSilent(c: Client, c': Client, e: Event)
    requires ClientInv(c) && !c.Intact() && Next(c, c', e)
    ensures !c'.Intact() && !c'.connected
    ensures c'.sent == c.sent && c'.accepted == c.accepted && c'.failed == c.failed && c'.warned == c.warned
  {
  }

  /** A pump that runs with room in the socket gets strictly closer to an empty queue. */
  lemma PumpProgress(c: Client, c': Client)
    requires Pumped(c, c') && c.Live() && c.index < |c.queue| && c.buffered < BUFFER_LIMIT
    ensures |c'.Unsent()| < |c.queue| - c.index
  {
    var n: nat :| c.index <= n <= |c.queue| && PumpedTo(c, c', n);
    LoadStart(c);
  }

  /** A pump during which no send throws. */
  lemma PumpWithoutFailure(c: Client) returns (c': Client)
    requires c.Live() && c.index <= |c.queue|
    ensures Pumped(c, c') && c'.Live() && c'.failed == c.failed && c'.accepted == c.accepted
  {
    var n := c.index;
    while n < |c.queue| && Load(c, n) < BUFFER_LIMIT
      invariant c.index <= n <= |c.queue| && Admitted(c, n)
    {
      n := n + 1;
    }
    var h := Handed(c, n);
    c' := if n == |c.queue| then h.(queue := [], index := 0) else h.(timer := true, pending := true);
    assert PumpedTo(c, c', n);
  }

  lemma LoadBound(c: Client, n: nat)
    requires c.index <= n <= |c.queue| && Admitted(c, n) && (n > c.index ==> Chunk(c.queue[n - 1]))
    ensures Load(c, n) <= Max(c.buffered, BUFFER_LIMIT + INPUT_CHUNK_BYTES)
  {
    if n > c.index { LoadNext(c, n - 1); } else { LoadStart(c); }
  }

  /** A pump never leaves more than the limit and one frame in the socket's buffer. */
  lemma PumpBound(c: Client, c': Client)
    requires Pumped(c, c') && c.Live() && forall f | f in c.queue :: Chunk(f)
    ensures c'.buffered <= Max(c.buffered, 256 * 1024 + 16 * 1024 + 1)
    ensures c'.Intact() && c'.Unsent() != [] ==> c'.buffered >= 256 * 1024 && c'.timer && c'.pending
  {
    var n: nat :| c.index <= n <= |c.queue| && PumpedTo(c, c', n);
    PumpedToLoad(c, c', n);
    assert n > c.index ==> c.queue[n - 1] in c.queue;
    LoadBound(c, n);
  }

  /**
   A failure discards input still queued. The frame whose send threw has left the queue
   already, so the user is warned about it exactly when another frame was still queued or the
   socket held data.
   */
  lemma ThrowWarning(c: Client, c': Client, n: nat)
    requires ClientInv(c) && c.Live() && c.index <= n < |c.queue|
    requires c' == AfterFail(Handed(c, n).(index := n + 1))
    ensures Stdin(c'.sent) + Stdin(c.queue[n..]) == c.accepted && Stdin(c.queue[n..]) != []
    ensures c'.warned <==> n + 1 < |c.queue| || Load(c, n) > 0
  {
    HandedConserves(c, n);
    assert c.queue[n] in c.queue;
  }

  /** The unwarned loss happens: one keystroke, an idle socket, a throwing send. */
  lemma UnwarnedLoss(key: byte) returns (c: Client, c': Client)
    ensures ClientInv(c) && Next(c, c', Types([key]))
    ensures c'.failed && !c'.warned && Stdin(c'.sent) < c'.accepted == [key]
  {
    c := Fresh().(connected := true, ready := Open);
    c' := Fresh().(failed := true, ready := Closing, accepted := [key]);
    assert [key][..1] == [key] && [key][1..] == [];
    assert Frames([key]) == [[STDIN] + [key]] + Frames([]);
    assert PumpedTo(Queued(c, [key]), c', 0);
  }

  /** One keystroke on an idle connection goes straight to the socket. */
  lemma KeyIsSent(c: Client, key: byte)
    requires c.Live() && c.queue == [] && c.index == 0 && !c.timer && c.buffered == 0
    ensures Next(c, c.(sent := c.sent + [[STDIN, key]], accepted := c.accepted + [key], buffered := 2), Types([key]))
  {
    var q := Queued(c, [key]);
    assert [key][..1] == [key] && [key][1..] == [] && [STDIN] + [key] == [STDIN, key];
    assert Frames([key]) == [[STDIN, key]];
    assert q.queue == [[STDIN, key]] && q.queue[0..1] == q.queue;
    LoadStart(q);
    LoadNext(q, 0);
    assert PumpedTo(q, c.(sent := c.sent + [[STDIN, key]], accepted := c.accepted + [key], buffered := 2), 1);
  }
}
