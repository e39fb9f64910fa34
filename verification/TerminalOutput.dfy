/**
 Terminal output: two goroutines copy the shell's stdout and stderr into WebSocket messages
 through one writer that a mutex guards; a ticker sends pings through the same writer.
 */
module TerminalOutput {
  import opened Common

  const STDOUT: byte := 0x00
  const STDERR: byte := 0x01
  const CONNECTED: byte := 0x04
  const READ_BUFFER := 8192

  datatype Message = Ping | Typed(kind: byte, payload: bytes)

  function Payload(m: Message, kind: byte): bytes {
    if m.Typed? && m.kind == kind then m.payload else []
  }

  /** The payload bytes of one kind of message, in the order they were sent. */
  function Carried(log: seq<Message>, kind: byte): bytes {
    if log == [] then [] else Payload(log[0], kind) + Carried(log[1..], kind)
  }

  lemma {:induction false} CarriedAppend(log: seq<Message>, m: Message, kind: byte)
    ensures Carried(log + [m], kind) == Carried(log, kind) + Payload(m, kind)
  {
    if log == [] {
      assert log + [m] == [m] && [m][1..] == [];
    } else {
      var rest := log[1..];
      assert (log + [m])[0] == log[0] && (log + [m])[1..] == rest + [m];
      CarriedAppend(rest, m, kind);
      Regroup(Payload(log[0], kind), Carried(rest, kind), Payload(m, kind));
    }
  }

  /** What came back with the bytes of a read. */
  datatype After = More | Eof | Failure

  datatype Read = Read(chunk: bytes, after: After)

  // ----- one pump on its own -----

  class Writer {
    var log: seq<Message>
    ghost var refusals: nat   // how many writes have failed

    constructor ()
      ensures log == [] && refusals == 0
    {
      log, refusals := [], 0;
    }

    method Send(kind: byte, payload: bytes) returns (ok: bool)
      modifies this
      ensures log == if ok then old(log) + [Typed(kind, payload)] else old(log)
      ensures refusals == old(refusals) + if ok then 0 else 1
    {
      ok := *;
      if ok { log := log + [Typed(kind, payload)]; } else { refusals := refusals + 1; }
    }
  }

  /** Everything a reader hands out up to and with its first end of file or failure. */
  function Available(script: seq<Read>): bytes {
    if script == [] then []
    else script[0].chunk + if script[0].after == More then Available(script[1..]) else []
  }

  function Ending(script: seq<Read>): After {
    if script == [] then More else if script[0].after == More then Ending(script[1..]) else script[0].after
  }

  /** sendTypedMsg, seen through the bytes the log carries. */
  method SendTyped(w: Writer, kind: byte, payload: bytes) returns (ok: bool)
    modifies w
    ensures Carried(w.log, kind) == Carried(old(w.log), kind) + if ok then payload else []
    ensures w.refusals == old(w.refusals) + if ok then 0 else 1
  {
    ghost var before := w.log;
    ok := w.Send(kind, payload);
    if ok { CarriedAppend(before, Typed(kind, payload), kind); }
  }

  /** Where a reader stands after one more read: `done` of its bytes are behind it. */
  lemma Advance(base: bytes, done: nat, rest: seq<Read>, all: bytes)
    requires rest != [] && done <= |all| && Available(rest) == all[done..]
    ensures var now := done + |rest[0].chunk|;
            && now <= |all| && base + all[..now] == base + all[..done] + rest[0].chunk
            && if rest[0].after == More then Available(rest[1..]) == all[now..] else now == |all|
  {
    assert all[..done] + all[done..] == all;
    assert all[..done + |rest[0].chunk|] == all[..done] + rest[0].chunk;
  }

  /**
   pumpTerminalOutput over a reader that returns `script`. It goes on until the script ends or a
   write is refused: only a refusal keeps a byte from being sent, also one returned together with
   the end, and it reports success exactly when it got to the end of file without one.
   */
  method PumpTerminalOutput(w: Writer, script: seq<Read>, kind: byte) returns (ok: bool, ghost sent: nat)
    requires Ending(script) != More
    modifies w
    ensures sent <= |Available(script)|
    ensures Carried(w.log, kind) == Carried(old(w.log), kind) + Available(script)[..sent]
    ensures ok <==> Ending(script) == Eof && w.refusals == old(w.refusals)
    ensures if w.refusals == old(w.refusals) then sent == |Available(script)|
            else w.refusals == old(w.refusals) + 1 && sent < |Available(script)|
  {
    var rest := script;
    ghost var base, all := Carried(w.log, kind), Available(script);
    sent := 0;
    while true
      invariant Ending(rest) == Ending(script) != More
      invariant sent <= |all| && Available(rest) == all[sent..]
      invariant Carried(w.log, kind) == base + all[..sent] && w.refusals == old(w.refusals)
      decreases |rest|
    {
      Advance(base, sent, rest, all);
      var Read(chunk, after) := rest[0];
      if |chunk| > 0 {
        var delivered := SendTyped(w, kind, chunk);
        if !delivered { return false, sent; }
      }
      sent := sent + |chunk|;
      if after == Eof { return true, sent; }
      if after == Failure { return false, sent; }
      rest := rest[1..];
    }
  }

  // ----- both pumps, the ticker and the lock, step by step -----

  datatype Who = Setup | Stream(i: byte) | Ticker

  datatype Phase =
    | Waiting                             // the connected message has not been sent yet
    | Reading
    | Wants(chunk: bytes, after: After)   // in sendTypedMsg, before Lock
    | Holds(chunk: bytes, after: After)   // inside WriteMessage
    | Done(ok: bool)

  datatype Pump = Pump(source: bytes, got: nat, phase: Phase)

  datatype State = State(
    lock: Option<Who>,
    log: seq<Message>,
    pumps: seq<Pump>,           // stdout and stderr; the index is the message kind
    connected: Option<bool>,    // None before runTerminal sends the connected message
    cancelled: bool)

  datatype Step =
    | SetupLocks
    | SetupUnlocks(ok: bool, payload: bytes)
    | TickerLocks
    | TickerUnlocks(ok: bool)
    | PumpReads(i: byte, n: nat, after: After)
    | PumpLocks(i: byte)
    | PumpUnlocks(i: byte, ok: bool)
    | Cancels                              // by the reader, the dispatcher or the request

  function Proceed(after: After): Phase {
    match after case More => Reading case Eof => Done(true) case Failure => Done(false)
  }

  predicate Enabled(s: State, step: Step) {
    match step
    case SetupLocks => s.lock == None && s.connected == None
    case SetupUnlocks(_, _) => s.lock == Some(Setup)
    case TickerLocks => s.lock == None
    case TickerUnlocks(_) => s.lock == Some(Ticker)
    case PumpReads(i, n, after) =>
      && i < |s.pumps| && s.pumps[i].phase == Reading
      && n <= READ_BUFFER && s.pumps[i].got + n <= |s.pumps[i].source|
      && (after == Eof ==> s.pumps[i].got + n == |s.pumps[i].source|)
    case PumpLocks(i) => i < |s.pumps| && s.lock == None && s.pumps[i].phase.Wants?
    case PumpUnlocks(i, _) => i < |s.pumps| && s.lock == Some(Stream(i)) && s.pumps[i].phase.Holds?
    case Cancels => true
  }

  function SetPhase(s: State, i: nat, phase: Phase): State
    requires i < |s.pumps|
  {
    s.(pumps := s.pumps[i := s.pumps[i].(phase := phase)],
       cancelled := s.cancelled || phase == Done(false))
  }

  function Apply(s: State, step: Step): State
    requires Enabled(s, step)
  {
    match step
    case SetupLocks => s.(lock := Some(Setup), connected := Some(false))
    case SetupUnlocks(ok, payload) =>
      if ok then
        s.(lock := None, connected := Some(true), log := s.log + [Typed(CONNECTED, payload)],
           pumps := seq(|s.pumps|, i requires 0 <= i < |s.pumps| => s.pumps[i].(phase := Reading)))
      else s.(lock := None, cancelled := true)
    case TickerLocks => s.(lock := Some(Ticker))
    case TickerUnlocks(ok) =>
      if ok then s.(lock := None, log := s.log + [Ping]) else s.(lock := None, cancelled := true)
    case PumpReads(i, n, after) =>
      var p := s.pumps[i];
      var t := s.(pumps := s.pumps[i := p.(got := p.got + n)]);
      SetPhase(t, i, if n > 0 then Wants(p.source[p.got..p.got + n], after) else Proceed(after))
    case PumpLocks(i) =>
      var p := s.pumps[i];
      SetPhase(s.(lock := Some(Stream(i))), i, Holds(p.phase.chunk, p.phase.after))
    case PumpUnlocks(i, ok) =>
      var p := s.pumps[i];
      if ok then
        SetPhase(s.(lock := None, log := s.log + [Typed(i, p.phase.chunk)]), i, Proceed(p.phase.after))
      else SetPhase(s.(lock := None), i, Done(false))
    case Cancels => s.(cancelled := true)
  }

  /** The state after a run, or None if some step could not happen. */
  function RunAll(s: State, steps: seq<Step>): Option<State>
    decreases |steps|
  {
    if steps == [] then Some(s)
    else if Enabled(s, steps[0]) then RunAll(Apply(s, steps[0]), steps[1..])
    else None
  }

  /** The messages that are not pings. */
  function Texts(log: seq<Message>): seq<Message> {
    if log == [] then [] else (if log[0].Typed? then [log[0]] else []) + Texts(log[1..])
  }

  lemma {:induction false} TextsAppend(log: seq<Message>, m: Message)
    ensures Texts(log + [m]) == Texts(log) + if m.Typed? then [m] else []
  {
    if log == [] {
      assert log + [m] == [m] && [m][1..] == [];
    } else {
      var rest := log[1..];
      assert (log + [m])[0] == log[0] && (log + [m])[1..] == rest + [m];
      TextsAppend(rest, m);
      Regroup(if log[0].Typed? then [log[0]] else [], Texts(rest), if m.Typed? then [m] else []);
    }
  }

  /** The connected message precedes everything else that is not a ping. */
  predicate Greeted(s: State) {
    if s.connected == Some(true) then Texts(s.log) != [] && Texts(s.log)[0].Typed? && Texts(s.log)[0].kind == CONNECTED
    else Texts(s.log) == []
  }

  /** How far the messages sent so far account for what a pump has read. */
  predicate PumpInv(s: State, i: byte)
    requires i < |s.pumps|
  {
    var p := s.pumps[i];
    var sent := Carried(s.log, i);
    && p.got <= |p.source|
    && (s.lock == Some(Stream(i)) <==> p.phase.Holds?)
    && (s.connected != Some(true) <==> p.phase == Waiting)
    && match p.phase
       case Waiting => p.got == 0 && sent == []
       case Reading => sent == p.source[..p.got]
       case Wants(chunk, after) => sent + chunk == p.source[..p.got] && (after == Eof ==> p.got == |p.source|)
       case Holds(chunk, after) => sent + chunk == p.source[..p.got] && (after == Eof ==> p.got == |p.source|)
       case Done(ok) => sent <= p.source[..p.got] && (if ok then sent == p.source else s.cancelled)
  }

  predicate Inv(s: State) {
    && |s.pumps| == 2
    && Greeted(s)
    && (s.lock == Some(Setup) ==> s.connected == Some(false))
    && (s.lock.Some? && s.lock.value.Stream? ==> s.lock.value.i < 2)
    && (s.connected == Some(false) ==> s.lock == Some(Setup) || s.cancelled)
    && PumpInv(s, 0) && PumpInv(s, 1)
  }

  function Start(stdout: bytes, stderr: bytes): State {
    State(None, [], [Pump(stdout, 0, Waiting), Pump(stderr, 0, Waiting)], None, false)
  }

  /** What appending one message does to the histories the invariant speaks of. */
  lemma Logged(log: seq<Message>, m: Message)
    ensures forall k: byte :: Carried(log + [m], k) == Carried(log, k) + Payload(m, k)
    ensures Texts(log + [m]) == Texts(log) + if m.Typed? then [m] else []
  {
    forall k: byte
      ensures Carried(log + [m], k) == Carried(log, k) + Payload(m, k)
    {
      CarriedAppend(log, m, k);
    }
    TextsAppend(log, m);
  }

  /** A step of one pump does not disturb what holds of the other. */
  lemma OtherKeeps(s: State, t: State, i: byte)
    requires |s.pumps| == |t.pumps| == 2 && i < 2 && PumpInv(s, i)
    requires t.pumps[i] == s.pumps[i] && Carried(t.log, i) == Carried(s.log, i)
    requires t.connected == s.connected && (s.cancelled ==> t.cancelled)
    requires t.lock == Some(Stream(i)) <==> s.lock == Some(Stream(i))
    ensures PumpInv(t, i)
  {
  }

  lemma ReadsOwn(s: State, i: byte, n: nat, after: After)
    requires |s.pumps| == 2 && i < 2 && PumpInv(s, i) && Enabled(s, PumpReads(i, n, after))
    ensures PumpInv(Apply(s, PumpReads(i, n, after)), i)
  {
    PrefixGrows(s.pumps[i].source, s.pumps[i].got, n);
  }

  lemma ReadsKeeps(s: State, i: byte, n: nat, after: After)
    requires Inv(s) && Enabled(s, PumpReads(i, n, after))
    ensures Inv(Apply(s, PumpReads(i, n, after)))
  {
    assert PumpInv(s, i);
    ReadsOwn(s, i, n, after);
    OtherKeeps(s, Apply(s, PumpReads(i, n, after)), 1 - i);
  }

  lemma UnlocksOwn(s: State, i: byte, ok: bool)
    requires |s.pumps| == 2 && i < 2 && PumpInv(s, i) && Enabled(s, PumpUnlocks(i, ok))
    ensures PumpInv(Apply(s, PumpUnlocks(i, ok)), i)
  {
    CarriedAppend(s.log, Typed(i, s.pumps[i].phase.chunk), i);
  }

  lemma UnlocksKeeps(s: State, i: byte, ok: bool)
    requires Inv(s) && Enabled(s, PumpUnlocks(i, ok))
    ensures Inv(Apply(s, PumpUnlocks(i, ok)))
  {
    var t := Apply(s, PumpUnlocks(i, ok));
    var m := Typed(i, s.pumps[i].phase.chunk);
    assert PumpInv(s, i);
    UnlocksOwn(s, i, ok);
    CarriedAppend(s.log, m, 1 - i);
    TextsAppend(s.log, m);
    OtherKeeps(s, t, 1 - i);
  }

  lemma ConnectedKeeps(s: State, ok: bool, payload: bytes)
    requires Inv(s) && Enabled(s, SetupUnlocks(ok, payload))
    ensures Inv(Apply(s, SetupUnlocks(ok, payload)))
  {
    Logged(s.log, Typed(CONNECTED, payload));
  }

  lemma PingKeeps(s: State, ok: bool)
    requires Inv(s) && Enabled(s, TickerUnlocks(ok))
    ensures Inv(Apply(s, TickerUnlocks(ok)))
  {
    Logged(s.log, Ping);
  }

  lemma LocksKeeps(s: State, i: byte)
    requires Inv(s) && Enabled(s, PumpLocks(i))
    ensures Inv(Apply(s, PumpLocks(i)))
  {
    assert PumpInv(s, i);
    OtherKeeps(s, Apply(s, PumpLocks(i)), 1 - i);
  }

  lemma StepKeeps(s: State, step: Step)
    requires Inv(s) && Enabled(s, step)
    ensures Inv(Apply(s, step))
  {
    match step
    case SetupUnlocks(ok, payload) => ConnectedKeeps(s, ok, payload);
    case TickerUnlocks(ok) => PingKeeps(s, ok);
    case PumpLocks(i) => LocksKeeps(s, i);
    case PumpReads(i, n, after) => ReadsKeeps(s, i, n, after);
    case PumpUnlocks(i, ok) => UnlocksKeeps(s, i, ok);
    case _ =>
  }

  /** The steps do not change what the shell will ever print. */
  predicate SameSources(s: State, t: State) {
    |s.pumps| == |t.pumps| == 2 && s.pumps[0].source == t.pumps[0].source && s.pumps[1].source == t.pumps[1].source
  }

  lemma SourcesStay(s: State, step: Step)
    requires |s.pumps| == 2 && Enabled(s, step)
    ensures SameSources(s, Apply(s, step))
  {
  }

  lemma {:induction false} RunKeeps(s: State, steps: seq<Step>)
    requires Inv(s) && RunAll(s, steps).Some?
    ensures Inv(RunAll(s, steps).value) && SameSources(s, RunAll(s, steps).value)
    decreases |steps|
  {
    if steps != [] {
      StepKeeps(s, steps[0]);
      SourcesStay(s, steps[0]);
      RunKeeps(Apply(s, steps[0]), steps[1..]);
    }
  }

  /**
   In every interleaving of the pumps, the ticker and a cancellation, the stdout messages carry
   a prefix of stdout and the stderr messages a prefix of stderr; the connected message comes
   first; no two writers are inside the socket at once; and if both pumps ended at end of file,
   both streams were sent completely.
   */
  lemma OutputIsFaithful(stdout: bytes, stderr: bytes, steps: seq<Step>)
    requires RunAll(Start(stdout, stderr), steps).Some?
    ensures var s := RunAll(Start(stdout, stderr), steps).value;
            && |s.pumps| == 2
            && Carried(s.log, STDOUT) <= stdout && Carried(s.log, STDERR) <= stderr
            && (Texts(s.log) != [] ==> Texts(s.log)[0].Typed? && Texts(s.log)[0].kind == CONNECTED)
            && !(s.pumps[0].phase.Holds? && s.pumps[1].phase.Holds?)
            && (s.pumps[0].phase == Done(true) ==> Carried(s.log, STDOUT) == stdout)
            && (s.pumps[1].phase == Done(true) ==> Carried(s.log, STDERR) == stderr)
  {
    RunKeeps(Start(stdout, stderr), steps);
  }

  /** What reaches the socket: the greeting, a ping, or the chunk a pump was holding, whole. */
  lemma StepSends(s: State, step: Step)
    requires Inv(s) && Enabled(s, step)
    ensures Apply(s, step).log == s.log +
              match step
              case SetupUnlocks(ok, payload) => if ok then [Typed(0x04, payload)] else []
              case TickerUnlocks(ok) => if ok then [Ping] else []
              case PumpUnlocks(i, ok) => if ok then [Typed(i, s.pumps[i].phase.chunk)] else []
              case _ => []
  {
    assert s.log + [] == s.log;
  }

  // ----- output gets through -----

  /** A read or a write has gone wrong for this pump. */
  predicate Failing(p: Pump) {
    match p.phase
    case Wants(_, after) => after == Failure
    case Holds(_, after) => after == Failure
    case Done(ok) => !ok
    case _ => false
  }

  /** A pump gives up only because its write was refused or its reader failed, and then it does. */
  lemma GivingUpHasACause(s: State, step: Step, i: byte)
    requires Inv(s) && Enabled(s, step) && i < 2 && s.pumps[i].phase != Done(false)
    ensures Apply(s, step).pumps[i].phase == Done(false) <==>
              || step == PumpUnlocks(i, false)
              || (step == PumpUnlocks(i, true) && s.pumps[i].phase.after == Failure)
              || step == PumpReads(i, 0, Failure)
  {
  }

  /** What cancels the session: a pump that gives up, a refused greeting or ping, or somebody outside. */
  lemma CancellationHasACause(s: State, step: Step)
    requires Inv(s) && Enabled(s, step) && !s.cancelled
    ensures Apply(s, step).cancelled <==>
              || step == Cancels || step == TickerUnlocks(false) || (step.SetupUnlocks? && !step.ok)
              || Apply(s, step).pumps[0].phase == Done(false) || Apply(s, step).pumps[1].phase == Done(false)
  {
  }

  function Left(p: Pump): nat
    requires p.got <= |p.source|
  {
    4 * (|p.source| - p.got)
    + match p.phase case Wants(_, _) => 3 case Holds(_, _) => 2 case Done(_) => 0 case _ => 1
  }

  /** How much is still to do before both streams have been sent to their ends. */
  function Work(s: State): nat
    requires Inv(s)
  {
    Left(s.pumps[0]) + Left(s.pumps[1])
    + (match s.connected case None => 2 case Some(done) => if done then 0 else 1)
    + if s.lock == Some(Ticker) then 1 else 0
  }

  /** The next step of one pump when nobody holds the lock. */
  function PumpMover(p: Pump, i: byte): Step
    requires p.got <= |p.source|
  {
    if p.phase.Wants? then PumpLocks(i)
    else if p.got < |p.source| then PumpReads(i, Min(READ_BUFFER, |p.source| - p.got), More)
    else PumpReads(i, 0, Eof)
  }

  predicate Finished(s: State) {
    |s.pumps| == 2 && s.pumps[0].phase == Done(true) && s.pumps[1].phase == Done(true)
  }

  /** A step in which nothing fails and that brings the end nearer. */
  function Mover(s: State): Step
    requires Inv(s)
  {
    match s.lock
    case Some(Setup) => SetupUnlocks(true, [])
    case Some(Ticker) => TickerUnlocks(true)
    case Some(Stream(i)) => PumpUnlocks(i, true)
    case None =>
      if s.connected == None then SetupLocks
      else if s.pumps[0].phase != Done(true) then PumpMover(s.pumps[0], 0)
      else PumpMover(s.pumps[1], 1)
  }

  /** Nothing has gone wrong so far. */
  predicate Healthy(s: State) { |s.pumps| == 2 && !s.cancelled && !Failing(s.pumps[0]) && !Failing(s.pumps[1]) }

  lemma PumpMoves(s: State, i: byte)
    requires Inv(s) && Healthy(s) && i < 2 && s.lock == None && s.connected == Some(true)
    requires s.pumps[i].phase != Done(true)
    ensures var step := PumpMover(s.pumps[i], i);
            && Enabled(s, step) && Healthy(Apply(s, step))
            && Apply(s, step).lock != Some(Setup) && Apply(s, step).connected == s.connected
            && Apply(s, step).pumps[1 - i] == s.pumps[1 - i]
            && Apply(s, step).pumps[i].got <= |s.pumps[i].source| == |Apply(s, step).pumps[i].source|
            && Left(Apply(s, step).pumps[i]) < Left(s.pumps[i])
            && Apply(s, step).lock != Some(Ticker)
  {
    assert PumpInv(s, i);
  }

  lemma UnlockMoves(s: State)
    requires Inv(s) && Healthy(s) && s.lock.Some?
    ensures Enabled(s, Mover(s)) && Healthy(Apply(s, Mover(s))) && Inv(Apply(s, Mover(s)))
    ensures Work(Apply(s, Mover(s))) < Work(s)
  {
    assert PumpInv(s, 0) && PumpInv(s, 1);
    StepKeeps(s, Mover(s));
  }

  /** An uncancelled session with a free lock has either not begun to greet or has greeted. */
  lemma GreetsOrGreeted(s: State)
    requires Inv(s) && Healthy(s) && s.lock == None
    ensures s.connected == None || s.connected == Some(true)
  {
    if s.connected.Some? {
      var greeted := s.connected.value;
      assert greeted || s.connected == Some(false);
    }
  }

  lemma FreeMoves(s: State)
    requires Inv(s) && Healthy(s) && s.lock == None && !Finished(s)
    ensures Enabled(s, Mover(s)) && Healthy(Apply(s, Mover(s))) && Inv(Apply(s, Mover(s)))
    ensures Work(Apply(s, Mover(s))) < Work(s)
  {
    GreetsOrGreeted(s);
    if s.connected == Some(true) { PumpMoves(s, if s.pumps[0].phase != Done(true) then 0 else 1); }
    StepKeeps(s, Mover(s));
  }

  lemma {:induction false} Arrive(s: State) returns (more: seq<Step>)
    requires Inv(s) && Healthy(s)
    ensures RunAll(s, more).Some? && Finished(RunAll(s, more).value)
    decreases Work(s)
  {
    if Finished(s) {
      more := [];
    } else {
      if s.lock == None { FreeMoves(s); } else { UnlockMoves(s); }
      var rest := Arrive(Apply(s, Mover(s)));
      more := [Mover(s)] + rest;
      assert more[1..] == rest;
    }
  }

  /**
   Whatever has happened so far, unless something failed or was cancelled everything the shell
   prints can still arrive: some continuation ends both pumps in success with both streams sent.
   */
  lemma OutputCanArrive(stdout: bytes, stderr: bytes, steps: seq<Step>) returns (more: seq<Step>)
    requires RunAll(Start(stdout, stderr), steps).Some? && Healthy(RunAll(Start(stdout, stderr), steps).value)
    ensures var s := RunAll(Start(stdout, stderr), steps).value;
            && RunAll(s, more).Some?
            && var t := RunAll(s, more).value;
               Finished(t) && Carried(t.log, STDOUT) == stdout && Carried(t.log, STDERR) == stderr
  {
    RunKeeps(Start(stdout, stderr), steps);
    var s := RunAll(Start(stdout, stderr), steps).value;
    more := Arrive(s);
    RunKeeps(s, more);
  }
}
