/**
 The remote directory view: requests may be answered late, twice rejected or out of order, and
 captured rows may be used after the view moved on. A render and its effects are one commit.
 */
module Directory {
  import opened Common

  type Path = string

  datatype Request = Request(id: nat, server: int, path: Path, aborted: bool, answer: Answer)

  datatype Answer = Awaited | Listed(files: seq<string>) | Refused

  datatype View = View(
    open: bool, server: int,                                   // props of the committed render
    generation: nat, controller: Option<nat>,                  // refs
    visibleOpen: bool, visibleServer: int, visiblePath: Path,  // the ref `visible`
    files: seq<string>, currentPath: Path, loading: bool, ready: bool, rendered: nat,   // state
    requests: seq<Request>,                                    // every request ever issued
    mounted: bool)

  datatype Event =
    | Loads(path: Path)
    | Answers(i: nat, files: seq<string>)
    | Refuses(i: nat)
    | Renders(open: bool, server: int)
    | Unmounts

  function Abort(v: View): View {
    if v.controller.Some? && v.controller.value < |v.requests| then
      v.(requests := v.requests[v.controller.value := v.requests[v.controller.value].(aborted := true)])
    else v
  }

  function Load(v: View, path: Path): View {
    var a := Abort(v);
    var id := v.generation + 1;
    a.(controller := Some(|a.requests|),
       requests := a.requests + [Request(id, v.server, path, false, Awaited)],
       generation := id, rendered := id, visiblePath := path, currentPath := path,
       files := [], ready := false, loading := true)
  }

  /** The test every continuation makes before it touches the state. */
  predicate Current(v: View, i: nat)
    requires i < |v.requests|
  {
    var r := v.requests[i];
    !r.aborted && v.generation == r.id && v.visibleOpen && v.visibleServer == r.server
  }

  function Settle(v: View, i: nat, answer: Answer): View
    requires i < |v.requests|
  {
    v.(requests := v.requests[i := v.requests[i].(answer := answer)])
  }

  function Cleanup(v: View): View { Abort(v.(generation := v.generation + 1)) }

  function Rerender(v: View, open: bool, server: int): View {
    var r := v.(open := open, server := server, visibleOpen := open, visibleServer := server);
    if open == v.open && server == v.server then r
    else if open then Load(Cleanup(r), "/") else Cleanup(r)
  }

  predicate Enabled(v: View, e: Event) {
    match e
    case Loads(_) => v.mounted
    case Answers(i, _) => i < |v.requests| && v.requests[i].answer == Awaited
    case Refuses(i) => i < |v.requests| && v.requests[i].answer == Awaited
    case Renders(_, _) => v.mounted
    case Unmounts => v.mounted
  }

  function Apply(v: View, e: Event): View
    requires Enabled(v, e)
  {
    match e
    case Loads(path) => Load(v, path)
    case Answers(i, files) =>
      var s := Settle(v, i, Listed(files));
      if Current(v, i) then s.(files := files, ready := true, loading := false) else s
    case Refuses(i) =>
      var s := Settle(v, i, Refused);
      if Current(v, i) then s.(loading := false) else s
    case Renders(open, server) => Rerender(v, open, server)
    case Unmounts => Cleanup(v).(mounted := false)
  }

  /** The first commit. */
  function Mount(open: bool, server: int): View {
    var v := View(open, server, 0, None, open, server, "/", [], "/", false, false, 0, [], true);
    if open then Load(v, "/") else v
  }

  function RunAll(v: View, events: seq<Event>): Option<View>
    decreases |events|
  {
    if events == [] then Some(v)
    else if Enabled(v, events[0]) then RunAll(Apply(v, events[0]), events[1..])
    else None
  }

  // ----- the hook itself -----

  class Hook {
    var open: bool
    var serverId: int
    var generation: nat
    var controller: Option<nat>
    var visibleOpen: bool
    var visibleServer: int
    var visiblePath: Path
    var files: seq<string>
    var currentPath: Path
    var loading: bool
    var ready: bool
    var renderedGeneration: nat
    var requests: seq<Request>
    var mounted: bool

    ghost function State(): View
      reads this
    {
      View(open, serverId, generation, controller, visibleOpen, visibleServer, visiblePath,
           files, currentPath, loading, ready, renderedGeneration, requests, mounted)
    }

    method AbortController()
      modifies this
      ensures State() == Abort(old(State()))
    {
      match controller
      case Some(i) =>
        if i < |requests| { requests := requests[i := requests[i].(aborted := true)]; }
      case None =>
    }

    /** loadFiles up to its first await. */
    method LoadFiles(path: Path)
      modifies this
      ensures State() == Load(old(State()), path)
    {
      AbortController();
      generation := generation + 1;
      controller := Some(|requests|);
      requests := requests + [Request(generation, serverId, path, false, Awaited)];
      renderedGeneration := generation;
      visiblePath := path;
      currentPath := path;
      files := [];
      ready := false;
      loading := true;
    }

    /** The rest of loadFiles for request i: the response or the error, then `finally`. */
    method Continue(i: nat, answer: Answer)
      requires i < |requests| && requests[i].answer == Awaited && answer != Awaited
      modifies this
      ensures State() == Apply(old(State()), if answer.Listed? then Answers(i, answer.files) else Refuses(i))
    {
      var r := requests[i];
      var current := !r.aborted && generation == r.id && visibleOpen && visibleServer == r.server;
      requests := requests[i := r.(answer := answer)];
      if current && answer.Listed? {
        files := answer.files;
        ready := true;
      }
      if current { loading := false; }
    }

    method EffectCleanup()
      modifies this
      ensures State() == Cleanup(old(State()))
    {
      generation := generation + 1;
      AbortController();
    }

    method Render(open': bool, server': int)
      requires mounted
      modifies this
      ensures State() == Apply(old(State()), Renders(open', server'))
    {
      var changed := open' != open || server' != serverId;
      open, serverId := open', server';
      visibleOpen, visibleServer := open', server';
      if changed {
        EffectCleanup();
        if open { LoadFiles("/"); }
      }
    }
  }

  // ----- the invariant -----

  /** The latest request is still wanted. */
  predicate Fresh(v: View) { v.rendered == v.generation && v.requests != [] }

  function Latest(v: View): Request
    requires v.requests != []
  {
    v.requests[|v.requests| - 1]
  }

  predicate Inv(v: View) {
    && v.rendered <= v.generation && v.visiblePath == v.currentPath
    && v.visibleOpen == v.open && v.visibleServer == v.server
    && (v.controller == if v.requests == [] then None else Some(|v.requests| - 1))
    && (forall i | 0 <= i < |v.requests| :: v.requests[i].id <= v.rendered)
    && (forall i | 0 <= i < |v.requests| - 1 :: v.requests[i].aborted)
    && (v.mounted && v.open ==> Fresh(v))
    && (Fresh(v) ==>
          && !Latest(v).aborted && Latest(v).id == v.generation
          && Latest(v).server == v.server && Latest(v).path == v.currentPath
          && v.mounted
          && (v.open && v.ready ==> Latest(v).answer == Listed(v.files))
          && (v.open && v.loading ==> Latest(v).answer == Awaited)
          && (v.open && !v.loading ==> Latest(v).answer != Awaited))
    && (v.requests != [] && !Fresh(v) ==> Latest(v).aborted)
  }

  lemma LoadKeeps(v: View, path: Path)
    requires v.rendered <= v.generation && v.visibleOpen == v.open && v.visibleServer == v.server && v.mounted
    requires v.controller == if v.requests == [] then None else Some(|v.requests| - 1)
    requires forall i | 0 <= i < |v.requests| :: v.requests[i].id <= v.rendered
    requires forall i | 0 <= i < |v.requests| - 1 :: v.requests[i].aborted
    ensures Inv(Load(v, path))
  {
  }

  lemma ContinueKeeps(v: View, e: Event)
    requires Inv(v) && Enabled(v, e) && (e.Answers? || e.Refuses?)
    ensures Inv(Apply(v, e))
  {
  }

  lemma RenderKeeps(v: View, open: bool, server: int)
    requires Inv(v) && v.mounted
    ensures Inv(Rerender(v, open, server))
  {
    var r := v.(open := open, server := server, visibleOpen := open, visibleServer := server);
    if open && (open != v.open || server != v.server) { LoadKeeps(Cleanup(r), "/"); }
  }

  lemma StepKeeps(v: View, e: Event)
    requires Inv(v) && Enabled(v, e)
    ensures Inv(Apply(v, e))
  {
    match e
    case Loads(path) => LoadKeeps(v, path);
    case Renders(open, server) => RenderKeeps(v, open, server);
    case Answers(i, files) => ContinueKeeps(v, e);
    case Refuses(i) => ContinueKeeps(v, e);
    case Unmounts =>
  }

  lemma {:induction false} RunKeeps(v: View, events: seq<Event>)
    requires Inv(v) && RunAll(v, events).Some?
    ensures Inv(RunAll(v, events).value)
    decreases |events|
  {
    if events != [] {
      StepKeeps(v, events[0]);
      RunKeeps(Apply(v, events[0]), events[1..]);
    }
  }

  /**
   In every committed state of an open directory, rows shown as ready are the answer to the
   latest request, which was made for exactly this server and path; a spinner means that request
   is still out; and no older request is alive.
   */
  lemma ShownIsTheAnswer(open: bool, server: int, events: seq<Event>)
    requires RunAll(Mount(open, server), events).Some?
    ensures var v := RunAll(Mount(open, server), events).value;
            && (forall i, j | 0 <= i < |v.requests| && 0 <= j < |v.requests| ::
                  !v.requests[i].aborted && !v.requests[j].aborted ==> i == j)
            && (v.mounted && v.open ==>
                  && v.requests != []
                  && var r := Latest(v);
                     && !r.aborted && r.id == v.generation
                     && r.server == v.server && r.path == v.currentPath
                     && (v.ready ==> r.answer == Listed(v.files))
                     && (v.loading <==> r.answer == Awaited))
  {
    assert Inv(Mount(open, server));
    RunKeeps(Mount(open, server), events);
  }

  /** One more request is out, for this path on this server, and nothing else is shown meanwhile. */
  predicate Requested(v: View, v': View, server: int, path: Path) {
    && |v'.requests| == |v.requests| + 1
    && Latest(v').path == path && Latest(v').server == server
    && Latest(v').answer == Awaited && !Latest(v').aborted
    && v'.currentPath == path && v'.server == server && v'.files == [] && v'.loading && !v'.ready
    && v'.generation > v.generation && v'.rendered == v'.generation
  }

  /** Requests already made keep their server, path and answer. */
  predicate Remembered(v: View, v': View) {
    && |v.requests| <= |v'.requests|
    && forall i | 0 <= i < |v.requests| ::
         v'.requests[i] == v.requests[i].(aborted := v'.requests[i].aborted) && (v.requests[i].aborted ==> v'.requests[i].aborted)
  }

  /** All requests made so far are aborted, and none was added. */
  predicate Ended(v: View, v': View) {
    && |v'.requests| == |v.requests| && v'.generation > v.generation && Remembered(v, v')
    && forall i | 0 <= i < |v'.requests| :: v'.requests[i].aborted
  }

  /** What a render does, seen from outside. */
  predicate StartsOver(v: View, v': View, open': bool, server': int) {
    && v'.open == open' && v'.server == server' && Remembered(v, v')
    && if open' == v.open && server' == v.server then v' == v
       else if open' then Requested(v, v', server', "/")
       else Ended(v, v')
  }

  lemma OpeningStartsOver(v: View, server': int)
    requires Inv(v) && v.mounted && !(v.open && v.server == server')
    ensures StartsOver(v, Apply(v, Renders(true, server')), true, server')
  {
  }

  lemma ClosingEnds(v: View, server': int)
    requires Inv(v) && v.mounted
    ensures StartsOver(v, Apply(v, Renders(false, server')), false, server')
  {
  }

  lemma MountStarts(open: bool, server: int)
    ensures var m := Mount(open, server);
            && m.mounted && m.open == open && m.server == server && m.currentPath == "/" && m.files == [] && !m.ready
            && if open then |m.requests| == 1 && Latest(m) == Request(m.generation, server, "/", false, Awaited) && m.loading
               else m.requests == [] && !m.loading
  {
  }

  /**
   A render with another server, or one that opens the view, starts over at the root of that
   server; closing asks for nothing and ends what was out; a render with the same properties
   changes nothing. The first mount asks for the root, too, if the view is open.
   */
  lemma RenderStartsOver(open: bool, server: int, events: seq<Event>, open': bool, server': int)
    requires RunAll(Mount(open, server), events).Some? && RunAll(Mount(open, server), events).value.mounted
    ensures var v := RunAll(Mount(open, server), events).value;
            StartsOver(v, Apply(v, Renders(open', server')), open', server')
  {
    assert Inv(Mount(open, server));
    RunKeeps(Mount(open, server), events);
    var v := RunAll(Mount(open, server), events).value;
    if !open' {
      ClosingEnds(v, server');
    } else if !(v.open && v.server == server') {
      OpeningStartsOver(v, server');
    }
  }

  /** What any other event does to the screen: a load asks, a current answer shows, the rest is silent. */
  predicate Responds(v: View, v': View, e: Event)
    requires Enabled(v, e)
  {
    match e
    case Loads(path) => Requested(v, v', v.server, path) && Remembered(v, v')
    case Answers(i, files) =>
      var heard := v.(requests := v.requests[i := v.requests[i].(answer := Listed(files))]);
      v' == if v.mounted && v.open && i == |v.requests| - 1 then heard.(files := files, ready := true, loading := false)
            else heard
    case Refuses(i) =>
      var heard := v.(requests := v.requests[i := v.requests[i].(answer := Refused)]);
      v' == if v.mounted && v.open && i == |v.requests| - 1 then heard.(loading := false) else heard
    case Unmounts => !v'.mounted && Ended(v, v')
    case Renders(open', server') => StartsOver(v, v', open', server')
  }

  lemma AnswerResponds(v: View, e: Event)
    requires Inv(v) && Enabled(v, e) && (e.Answers? || e.Refuses?)
    ensures Responds(v, Apply(v, e), e)
  {
    assert v.mounted && v.open ==> Fresh(v);
  }

  lemma LoadResponds(v: View, path: Path)
    requires Inv(v) && v.mounted
    ensures Responds(v, Apply(v, Loads(path)), Loads(path))
  {
  }

  lemma UnmountResponds(v: View)
    requires Inv(v) && v.mounted
    ensures Responds(v, Apply(v, Unmounts), Unmounts)
  {
  }

  lemma EventsRespond(open: bool, server: int, events: seq<Event>, e: Event)
    requires RunAll(Mount(open, server), events).Some? && Enabled(RunAll(Mount(open, server), events).value, e)
    ensures var v := RunAll(Mount(open, server), events).value; Responds(v, Apply(v, e), e)
  {
    assert Inv(Mount(open, server));
    RunKeeps(Mount(open, server), events);
    var v := RunAll(Mount(open, server), events).value;
    match e
    case Loads(path) => LoadResponds(v, path);
    case Renders(open', server') => RenderStartsOver(open, server, events, open', server');
    case Unmounts => UnmountResponds(v);
    case _ => AnswerResponds(v, e);
  }

  /** A late or out-of-order answer, its `finally` included, changes nothing on the screen. */
  lemma LateAnswersAreIgnored(v: View, e: Event)
    requires Inv(v) && Enabled(v, e) && (e.Answers? || e.Refuses?)
    requires e.i < |v.requests| - 1 || !v.open || !v.mounted
    ensures Apply(v, e) == v.(requests := Apply(v, e).requests)
  {
  }

  // ----- captures -----

  /** What a row action keeps of the render it came from. */
  datatype Capture = Capture(id: nat, path: Path, server: int)

  function Take(v: View): Capture { Capture(v.rendered, v.currentPath, v.server) }

  predicate IsCurrent(v: View, c: Capture) {
    v.generation == c.id && v.visibleOpen && v.visibleServer == c.server && v.visiblePath == c.path
  }

  function Refresh(v: View, c: Capture): View { if IsCurrent(v, c) then Load(v, c.path) else v }

  /** How a capture relates to every later state: only the generation can part them. */
  predicate CaptureInv(v: View, c: Capture) {
    && c.id <= v.rendered
    && (c.id == v.generation ==> c.path == v.visiblePath && (v.requests != [] ==> c.server == v.server))
    && (v.requests == [] && v.open ==> c.server == v.server)
  }

  lemma CaptureRender(v: View, open: bool, server: int, c: Capture)
    requires Inv(v) && Enabled(v, Renders(open, server)) && CaptureInv(v, c)
    ensures CaptureInv(Apply(v, Renders(open, server)), c)
    ensures !IsCurrent(v, c) ==> !IsCurrent(Apply(v, Renders(open, server)), c)
  {
  }

  lemma CaptureStep(v: View, e: Event, c: Capture)
    requires Inv(v) && Enabled(v, e) && CaptureInv(v, c)
    ensures CaptureInv(Apply(v, e), c)
    ensures !IsCurrent(v, c) ==> !IsCurrent(Apply(v, e), c)
  {
    if e.Renders? { CaptureRender(v, e.open, e.server, c); }
  }

  lemma {:induction false} CaptureRun(v: View, events: seq<Event>, c: Capture)
    requires Inv(v) && RunAll(v, events).Some? && CaptureInv(v, c)
    ensures CaptureInv(RunAll(v, events).value, c)
    ensures !IsCurrent(v, c) ==> !IsCurrent(RunAll(v, events).value, c)
    decreases |events|
  {
    if events != [] {
      CaptureStep(v, events[0], c);
      StepKeeps(v, events[0]);
      CaptureRun(Apply(v, events[0]), events[1..], c);
    }
  }

  /**
   A capture that has once stopped being current never becomes current again, so a late refresh
   through it issues no request; and in committed states its generation alone decides.
   */
  lemma StaleCapturesStayStale(
      open: bool, server: int, first: seq<Event>, second: seq<Event>, third: seq<Event>)
    requires RunAll(Mount(open, server), first).Some?
    requires RunAll(RunAll(Mount(open, server), first).value, second).Some?
    requires RunAll(RunAll(RunAll(Mount(open, server), first).value, second).value, third).Some?
    ensures var taken := RunAll(Mount(open, server), first).value;
            var middle := RunAll(taken, second).value;
            var last := RunAll(middle, third).value;
            var c := Take(taken);
            && (!IsCurrent(middle, c) ==> !IsCurrent(last, c) && Refresh(last, c) == last)
            && (middle.mounted && middle.open ==> (IsCurrent(middle, c) <==> middle.generation == c.id))
  {
    var taken := RunAll(Mount(open, server), first).value;
    assert Inv(Mount(open, server));
    RunKeeps(Mount(open, server), first);
    CaptureRun(taken, second, Take(taken));
    RunKeeps(taken, second);
    CaptureRun(RunAll(taken, second).value, third, Take(taken));
  }

  /** A refresh through a capture that is current asks again for exactly what the capture saw. */
  lemma CurrentCapturesRefresh(v: View, c: Capture)
    requires Inv(v) && v.mounted && CaptureInv(v, c) && IsCurrent(v, c)
    ensures Requested(v, Refresh(v, c), c.server, c.path)
  {
  }
}
