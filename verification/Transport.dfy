/**
 Who owns an SSH transport while it is being set up. Dial, DialViaJump, NewSession and the SFTP
 NewClient run step by step against a setup deadline, whose expiry closes the transport from
 another goroutine, and against cancellation of the caller's context.
 */
module Transport {
  import opened Common

  /** One physical or forwarded connection: whether it was ever opened, how often it was closed. */
  datatype Conn = Conn(dialed: bool, closes: nat)

  datatype Which = Target | Jump

  /** The context.AfterFunc that closes a client when setup ends badly. */
  datatype Hook = Unset | Armed | Fired | Ran | Stopped

  /** A watcher of the caller's context; it closes the client at most once. */
  datatype Watch = Off | Watching | Finished

  datatype Op = Direct | ViaJump | Wrap   // Wrap: NewSession or sftpclient.NewClient

  datatype Pc =
    | Connect | Handshake | OpenChannel | TargetHandshake | Prepare
    | Stopping | Checking(stopped: bool) | DeferredStop | DeferredCancel | Returned

  datatype Outcome = Pending | Success | Failure(hasError: bool)

  datatype State = State(
    op: Op,
    dialing: Which,         // which client the current setup context guards
    pc: Pc,
    parent: bool,           // the caller's context is done
    setup: bool,            // setup.Err() is not nil
    hook: Hook,
    jump: Conn, target: Conn,
    jumpOnce: bool, ownerOnce: bool,      // Client.once of the jump and of the owner
    jumpWatch: Watch, ownerWatch: Watch,
    guard: Watch,           // the second AfterFunc of a session or SFTP client
    outcome: Outcome)

  datatype Step =
    | Proceeds(ok: bool)    // the next operation of the setup goroutine
    | SetupExpires          // the timer, or the parent's cancellation reaching the child context
    | ParentCancels
    | HookFires
    | HookRuns
    | JumpWatchRuns
    | OwnerWatchRuns
    | GuardRuns
    | CallerCloses

  // ----- Client.Close -----

  function CloseJump(s: State): State {
    if s.jumpOnce then s
    else s.(jumpOnce := true, jump := s.jump.(closes := s.jump.closes + 1), jumpWatch := Finished)
  }

  /** The jump's socket goes first. */
  function CloseOwner(s: State): State {
    if s.ownerOnce then s
    else
      var t := if s.jump.dialed then CloseJump(s) else s;
      t.(ownerOnce := true, target := t.target.(closes := t.target.closes + 1), ownerWatch := Finished)
  }

  function CloseGuarded(s: State): State {
    if s.dialing == Jump || s.op == ViaJump then CloseJump(s) else CloseOwner(s)
  }

  // ----- the setup goroutine -----

  function Fail(s: State, hasError: bool): State {
    s.(pc := DeferredStop, outcome := Failure(hasError))
  }

  function SetConn(s: State, which: Which, c: Conn): State {
    if which == Jump then s.(jump := c) else s.(target := c)
  }

  function Proceed(s: State, ok: bool): State {
    match s.pc
    case Connect =>   // also covers an unusable configuration
      if ok then SetConn(s, s.dialing, Conn(true, 0)).(pc := Handshake, hook := Armed)
      else s.(pc := DeferredCancel, outcome := Failure(true))
    case Handshake => if ok then s.(pc := Stopping) else Fail(CloseGuarded(s), true)
    case OpenChannel =>
      if ok then s.(pc := TargetHandshake, target := Conn(true, 0)) else Fail(CloseJump(s), true)
    case TargetHandshake =>
      if ok then s.(pc := Stopping)
      else
        var t := CloseJump(s);
        Fail(t.(target := t.target.(closes := t.target.closes + 1)), true)
    case Prepare =>
      if ok then s.(pc := Stopping, guard := Watching) else Fail(CloseOwner(s), true)
    case Stopping =>
      var stopped := s.hook == Armed;
      s.(pc := Checking(stopped), hook := if stopped then Stopped else s.hook)
    case Checking(stopped) =>
      if !stopped || s.setup then
        var t := s.(guard := if s.guard == Watching then Off else s.guard);
        Fail(if s.dialing == Jump then CloseJump(t) else CloseOwner(t), s.setup)
      else if s.dialing == Jump then
        // the jump host is connected and watched; a new setup context guards the second half
        s.(dialing := Target, pc := OpenChannel, setup := false, hook := Armed,
           jumpWatch := if s.jumpOnce then Finished else Watching)
      else
        s.(pc := DeferredStop, outcome := Success,
           ownerWatch := if s.op == Wrap || s.ownerOnce then s.ownerWatch else Watching)
    case DeferredStop =>
      s.(pc := DeferredCancel, hook := if s.hook == Armed then Stopped else s.hook)
    case DeferredCancel => s.(pc := Returned, setup := true)
    case Returned => s
  }

  predicate Enabled(s: State, step: Step) {
    match step
    case Proceeds(_) => s.pc != Returned
    case SetupExpires => !s.setup
    case ParentCancels => !s.parent
    case HookFires => s.setup && s.hook == Armed
    case HookRuns => s.hook == Fired
    case JumpWatchRuns => s.parent && s.jumpWatch == Watching
    case OwnerWatchRuns => s.parent && s.ownerWatch == Watching
    case GuardRuns => s.parent && s.guard == Watching
    case CallerCloses => s.outcome == Success && s.pc == Returned
  }

  function Apply(s: State, step: Step): State
    requires Enabled(s, step)
  {
    match step
    case Proceeds(ok) => Proceed(s, ok)
    case SetupExpires => s.(setup := true)
    case ParentCancels => s.(parent := true)
    case HookFires => s.(hook := Fired)
    case HookRuns => CloseGuarded(s).(hook := Ran)
    case JumpWatchRuns => CloseJump(s).(jumpWatch := Finished)
    case OwnerWatchRuns => CloseOwner(s).(ownerWatch := Finished)
    case GuardRuns => CloseOwner(s).(guard := Finished)
    case CallerCloses => CloseOwner(s)
  }

  function RunAll(s: State, steps: seq<Step>): Option<State>
    decreases |steps|
  {
    if steps == [] then Some(s)
    else if Enabled(s, steps[0]) then RunAll(Apply(s, steps[0]), steps[1..])
    else None
  }

  // ----- where a setup can start -----

  function StartDial(op: Op, parent: bool): State {
    State(op, if op == ViaJump then Jump else Target, Connect, parent, false, Unset,
          Conn(false, 0), Conn(false, 0), false, false, Off, Off, Off, Pending)
  }

  /** A client that Dial or DialViaJump returned, whatever happened to it since. */
  predicate Handed(s: State) {
    && s.target.dialed && (s.target.closes == if s.ownerOnce then 1 else 0)
    && (s.jump.closes == if s.jump.dialed && s.jumpOnce then 1 else 0)
    && (s.ownerOnce && s.jump.dialed ==> s.jumpOnce)
    && (!s.jump.dialed ==> !s.jumpOnce && s.jumpWatch == Off)
    && (s.ownerOnce || s.ownerWatch == Watching)
  }

  /** NewSession and NewClient take over such a client under a fresh setup context. */
  predicate StartWrap(s: State) {
    && s.op == Wrap && s.dialing == Target && s.pc == Prepare && s.hook == Armed && !s.setup
    && s.guard == Off && s.outcome == Pending && Handed(s)
  }

  predicate Start(s: State) {
    StartWrap(s) || exists op, parent :: op != Wrap && s == StartDial(op, parent)
  }

  // ----- the invariant -----

  predicate JumpCounted(s: State) { s.jump.closes == if s.jump.dialed && s.jumpOnce then 1 else 0 }

  predicate TargetCounted(s: State) {
    && s.target.closes <= 1
    && (s.ownerOnce ==> s.target.dialed && s.target.closes == 1 && (s.jump.dialed ==> s.jumpOnce))
    && (s.target.closes == 1 && !s.ownerOnce ==> s.op == ViaJump && s.outcome.Failure?)
  }

  predicate AllClosed(s: State) {
    && (s.target.dialed ==> s.target.closes == 1)
    && (s.jump.dialed ==> s.jump.closes == 1)
  }

  predicate InSetup(pc: Pc) { pc in {Handshake, OpenChannel, TargetHandshake, Prepare, Stopping} }

  /** The setup hook against the setup context. */
  predicate HookInv(s: State) {
    && (s.hook in {Fired, Ran} ==> s.setup)
    && (InSetup(s.pc) ==> s.hook in {Armed, Fired, Ran})
    && (s.pc.Checking? ==> s.hook in {Stopped, Fired, Ran} && (s.pc.stopped <==> s.hook == Stopped))
    && (s.pc in {Connect, DeferredCancel, Returned} ==> s.hook != Armed)
    && (s.pc == Connect ==> s.hook == Unset)
  }

  /** Which connections exist at each point of each operation. */
  predicate StageInv(s: State) {
    && (s.outcome == Pending <==> !(s.pc in {DeferredStop, DeferredCancel, Returned}))
    && (s.dialing == Jump ==> s.op == ViaJump && !s.target.dialed && !s.ownerOnce && s.outcome != Success)
    && (s.op == ViaJump && s.dialing == Target ==> s.jump.dialed && (s.jumpOnce || s.jumpWatch == Watching))
    && (s.op == Direct ==> !s.jump.dialed)
    && (s.pc == Connect ==> !s.target.dialed && !s.jump.dialed && !s.jumpOnce && !s.ownerOnce)
    && (s.pc == Handshake ==> if s.dialing == Jump then s.jump.dialed else s.op == Direct && s.target.dialed)
    && (s.pc == OpenChannel ==> s.op == ViaJump && s.dialing == Target && !s.target.dialed && !s.ownerOnce)
    && (s.pc == TargetHandshake ==> s.op == ViaJump && s.dialing == Target && s.target.dialed && !s.ownerOnce)
    && (s.pc == Prepare ==> s.op == Wrap)
    && (s.pc == Stopping || s.pc.Checking? ==>
          if s.dialing == Jump then s.jump.dialed else s.target.dialed)
    && (s.op == Wrap ==> s.target.dialed && s.dialing == Target)
    && (s.ownerWatch == Watching ==> s.op == Wrap || s.outcome == Success)
    && (!s.target.dialed ==> s.ownerWatch == Off && s.guard == Off && s.target.closes == 0)
    && (!s.jump.dialed ==> s.jumpWatch == Off && !s.jumpOnce)
    && (s.hook != Unset && s.dialing == Jump ==> s.jump.dialed)
    && (s.hook != Unset && s.op != ViaJump ==> s.target.dialed)
    && (s.guard != Off ==> s.op == Wrap)
    && (s.guard == Finished ==> s.ownerOnce)
    && (s.op == Wrap && (s.pc == Stopping || s.pc.Checking? || s.outcome == Success) ==> s.guard != Off)
    && (s.op == Wrap ==> s.ownerOnce || s.ownerWatch == Watching)
  }

  predicate OutcomeInv(s: State) {
    match s.outcome
    case Pending => true
    case Success =>
      && s.hook == Stopped && s.target.dialed && (s.op == ViaJump ==> s.jump.dialed)
      && (s.ownerOnce || s.ownerWatch == Watching)
    case Failure(hasError) => hasError && AllClosed(s)
  }

  predicate Inv(s: State) {
    JumpCounted(s) && TargetCounted(s) && HookInv(s) && StageInv(s) && OutcomeInv(s)
  }

  lemma EarlyKeeps(s: State, ok: bool)
    requires Inv(s) && s.pc in {Connect, Handshake, OpenChannel}
    ensures Inv(Proceed(s, ok))
  {
  }

  lemma LateKeeps(s: State, ok: bool)
    requires Inv(s) && s.pc in {TargetHandshake, Prepare, Stopping}
    ensures Inv(Proceed(s, ok))
  {
  }

  lemma FailedCheckKeeps(s: State, ok: bool)
    requires Inv(s) && s.pc.Checking? && (!s.pc.stopped || s.setup)
    ensures Inv(Proceed(s, ok))
  {
  }

  lemma PassedCheckKeeps(s: State, ok: bool)
    requires Inv(s) && s.pc.Checking? && s.pc.stopped && !s.setup
    ensures Inv(Proceed(s, ok))
  {
  }

  lemma CheckKeeps(s: State, ok: bool)
    requires Inv(s) && s.pc.Checking?
    ensures Inv(Proceed(s, ok))
  {
    if !s.pc.stopped || s.setup { FailedCheckKeeps(s, ok); } else { PassedCheckKeeps(s, ok); }
  }

  lemma ReturnKeeps(s: State, ok: bool)
    requires Inv(s) && s.pc in {DeferredStop, DeferredCancel, Returned}
    ensures Inv(Proceed(s, ok))
  {
  }

  lemma ContextKeeps(s: State, step: Step)
    requires Inv(s) && Enabled(s, step) && (step.SetupExpires? || step.ParentCancels? || step.HookFires?)
    ensures Inv(Apply(s, step))
  {
  }

  lemma HookKeeps(s: State)
    requires Inv(s) && Enabled(s, HookRuns)
    ensures Inv(Apply(s, HookRuns))
  {
  }

  lemma JumpWatchKeeps(s: State)
    requires Inv(s) && Enabled(s, JumpWatchRuns)
    ensures Inv(Apply(s, JumpWatchRuns))
  {
  }

  lemma ClosingKeeps(s: State, step: Step)
    requires Inv(s) && Enabled(s, step) && (step.OwnerWatchRuns? || step.GuardRuns? || step.CallerCloses?)
    ensures Inv(Apply(s, step))
  {
  }

  lemma StepKeeps(s: State, step: Step)
    requires Inv(s) && Enabled(s, step)
    ensures Inv(Apply(s, step))
  {
    if step.SetupExpires? || step.ParentCancels? || step.HookFires? { ContextKeeps(s, step); }
    else if step.HookRuns? { HookKeeps(s); }
    else if step.JumpWatchRuns? { JumpWatchKeeps(s); }
    else if !step.Proceeds? { ClosingKeeps(s, step); }
    else if s.pc in {Connect, Handshake, OpenChannel} { EarlyKeeps(s, step.ok); }
    else if s.pc in {TargetHandshake, Prepare, Stopping} { LateKeeps(s, step.ok); }
    else if s.pc.Checking? { CheckKeeps(s, step.ok); }
    else { ReturnKeeps(s, step.ok); }
  }

  lemma {:induction false} RunKeeps(s: State, steps: seq<Step>)
    requires Inv(s) && RunAll(s, steps).Some?
    ensures Inv(RunAll(s, steps).value)
    decreases |steps|
  {
    if steps != [] {
      StepKeeps(s, steps[0]);
      RunKeeps(Apply(s, steps[0]), steps[1..]);
    }
  }

  /**
   Under every interleaving of failures, setup expiry, cancellation and closing: a failed setup
   returns an error and has closed everything it owned; nothing is ever closed twice; and once
   setup has succeeded its deadline can neither close the client now nor later.
   */
  lemma SetupIsClean(s0: State, steps: seq<Step>)
    requires Start(s0) && RunAll(s0, steps).Some?
    ensures var s := RunAll(s0, steps).value;
            && (s.outcome.Failure? ==> s.outcome.hasError && AllClosed(s))
            && s.target.closes <= 1 && s.jump.closes <= 1
            && (s.outcome == Success ==> s.target.dialed && (s.op == ViaJump ==> s.jump.dialed))
            && (s.outcome == Success ==> !Enabled(s, HookFires) && !Enabled(s, HookRuns))
  {
    assert Inv(s0);
    RunKeeps(s0, steps);
  }

  /**
   After a success, Close closes target and jump, each exactly once; and after a cancellation,
   unless that has happened already, a watcher is ready to do the same.
   */
  lemma SuccessIsClosable(s0: State, steps: seq<Step>)
    requires Start(s0) && RunAll(s0, steps).Some? && RunAll(s0, steps).value.outcome == Success
    ensures var s := RunAll(s0, steps).value;
            && (s.pc == Returned ==> AllClosed(Apply(s, CallerCloses)))
            && (s.parent ==> AllClosed(s)
                             || (Enabled(s, OwnerWatchRuns) && AllClosed(Apply(s, OwnerWatchRuns))))
            && (s.parent && s.op == Wrap ==> AllClosed(s) || (Enabled(s, GuardRuns) && AllClosed(Apply(s, GuardRuns))))
  {
    assert Inv(s0);
    RunKeeps(s0, steps);
  }

  // ----- why setups end the way they do -----

  /** The calls that can fail. */
  predicate Calls(pc: Pc) { pc in {Connect, Handshake, OpenChannel, TargetHandshake, Prepare} }

  lemma OnlyProceedingEnds(s: State, step: Step)
    requires Enabled(s, step) && !step.Proceeds?
    ensures Apply(s, step).outcome == s.outcome
  {
  }

  lemma CheckingEnds(s: State, ok: bool)
    requires Inv(s) && s.pc.Checking?
    ensures Proceed(s, ok).outcome.Failure? <==> s.hook != Stopped || s.setup
    ensures Proceed(s, ok).outcome == Success <==> s.hook == Stopped && !s.setup && s.dialing == Target
  {
  }

  /**
   A setup fails exactly by a failing call, or when its deadline had passed or its hook could no
   longer be stopped; otherwise the last check is a success.
   */
  lemma EndingsHaveCauses(s: State, step: Step)
    requires Inv(s) && Enabled(s, step) && s.outcome == Pending
    ensures Apply(s, step).outcome.Failure? <==>
              step.Proceeds? && ((Calls(s.pc) && !step.ok) || (s.pc.Checking? && (s.hook != Stopped || s.setup)))
    ensures Apply(s, step).outcome == Success <==>
              step.Proceeds? && s.pc.Checking? && s.hook == Stopped && !s.setup && s.dialing == Target
  {
    if !step.Proceeds? {
      OnlyProceedingEnds(s, step);
    } else if s.pc.Checking? {
      CheckingEnds(s, step.ok);
    }
  }

  /** From the moment the jump host is connected, a cancelled caller closes it, in setup or later. */
  lemma CancellationReachesJump(s0: State, steps: seq<Step>)
    requires Start(s0) && RunAll(s0, steps).Some?
    ensures var s := RunAll(s0, steps).value;
            s.op == ViaJump && s.dialing == Target && s.parent ==>
              s.jump.closes == 1 || (Enabled(s, JumpWatchRuns) && Apply(s, JumpWatchRuns).jump.closes == 1)
  {
    assert Inv(s0);
    RunKeeps(s0, steps);
  }

  /** Once its deadline's hook has run, the transport a setup was waiting for is closed. */
  lemma DeadlineCloses(s: State)
    requires Inv(s) && Enabled(s, HookRuns)
    ensures var t := Apply(s, HookRuns);
            if s.op == ViaJump then t.jump.dialed && t.jump.closes == 1 else t.target.dialed && t.target.closes == 1
  {
  }

  /** A setup whose deadline has not passed, with its hook not yet fired. */
  predicate OnTime(s: State) {
    && s.outcome == Pending && !s.setup
    && match s.pc
       case Connect => true
       case Checking(stopped) => stopped
       case _ => s.hook == Armed
  }

  function StepsLeft(s: State): nat {
    var second := if s.dialing == Jump then 10 else 0;
    match s.pc
    case Connect => second + 8
    case Handshake => second + 7
    case Prepare => second + 7
    case OpenChannel => second + 7
    case TargetHandshake => second + 6
    case Stopping => second + 5
    case Checking(_) => second + 4
    case DeferredStop => 2
    case DeferredCancel => 1
    case Returned => 0
  }

  lemma OnTimeProceeds(s: State)
    requires Inv(s) && OnTime(s)
    ensures var t := Apply(s, Proceeds(true));
            && StepsLeft(t) < StepsLeft(s) && t.op == s.op
            && (t.target.dialed && s.target.dialed ==> t.target.closes == s.target.closes)
            && (s.target.dialed ==> t.target.dialed) && (s.jump.dialed ==> t.jump.dialed)
            && (!s.target.dialed ==> t.target.closes == 0)
            && (if s.jump.dialed then t.jump.closes == s.jump.closes else t.jump.closes == 0)
            && (OnTime(t) || (t.outcome == Success && t.pc == DeferredStop))
  {
  }

  lemma {:induction false} Arrive(s: State) returns (steps: seq<Step>)
    requires Inv(s) && OnTime(s)
    ensures (forall step | step in steps :: step == Proceeds(true)) && RunAll(s, steps).Some?
    ensures var t := RunAll(s, steps).value;
            && t.outcome == Success && t.pc == Returned && t.op == s.op
            && t.target.dialed && (s.op == ViaJump ==> t.jump.dialed)
            && t.target.closes == (if s.target.dialed then s.target.closes else 0)
            && t.jump.closes == (if s.jump.dialed then s.jump.closes else 0)
    decreases StepsLeft(s)
  {
    var t := Apply(s, Proceeds(true));
    OnTimeProceeds(s);
    StepKeeps(s, Proceeds(true));
    var rest;
    if OnTime(t) {
      rest := Arrive(t);
    } else {
      rest := Return(t);
    }
    steps := [Proceeds(true)] + rest;
    assert steps[0] == Proceeds(true) && steps[1..] == rest;
  }

  /** The two deferred calls of a successful setup close nothing. */
  lemma Return(s: State) returns (steps: seq<Step>)
    requires Inv(s) && s.outcome == Success && s.pc == DeferredStop
    ensures steps == [Proceeds(true), Proceeds(true)] && RunAll(s, steps).Some?
    ensures var t := RunAll(s, steps).value;
            && t.outcome == Success && t.pc == Returned && t.op == s.op
            && t.target == s.target && t.jump == s.jump
  {
    steps := [Proceeds(true), Proceeds(true)];
    var t := Apply(s, steps[0]);
    assert RunAll(s, steps) == RunAll(t, steps[1..]);
    assert RunAll(t, steps[1..]) == RunAll(Apply(t, steps[1]), steps[1..][1..]);
  }

  /**
   Setups can succeed: from every reachable state before the deadline, if every remaining call
   works and nothing interferes, setup ends in success and has closed nothing more.
   */
  lemma SetupCanSucceed(s0: State, before: seq<Step>) returns (steps: seq<Step>)
    requires Start(s0) && RunAll(s0, before).Some? && OnTime(RunAll(s0, before).value)
    ensures var s := RunAll(s0, before).value;
            && (forall step | step in steps :: step == Proceeds(true)) && RunAll(s, steps).Some?
            && var t := RunAll(s, steps).value;
               && t.outcome == Success && t.pc == Returned
               && t.target.dialed && (s.op == ViaJump ==> t.jump.dialed)
               && t.target.closes == (if s.target.dialed then s.target.closes else 0)
               && t.jump.closes == (if s.jump.dialed then s.jump.closes else 0)
  {
    assert Inv(s0);
    RunKeeps(s0, before);
    steps := Arrive(RunAll(s0, before).value);
  }
}
