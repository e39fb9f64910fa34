/**
 Publishing an upload over SFTP: a private temporary file is filled, given its final owner and
 permissions, closed and renamed over the destination. Any number of uploads run at once,
 other programs change the same directories, and every remote call may fail, with or without
 having taken effect.
 */
module Upload {
  import opened Common

  type Path = string
  type NodeId = nat

  const PRIVATE: int := 384   // octal 0600

  datatype Kind = Regular | Symlink | Directory

  datatype Maker = Others | By(upload: nat)

  datatype Node = Node(maker: Maker, kind: Kind, content: bytes, perm: int, owner: (int, int))

  /** Names lead to nodes; an open handle keeps leading to its node whatever happens to names. */
  datatype Fs = Fs(names: map<Path, NodeId>, nodes: map<NodeId, Node>)

  datatype Job = Job(dest: Path, temp: Path, source: bytes)

  datatype Pc =
    | CheckDest | CreateTemp | Secure | Copying | SetOwner | SetMode | Closing(failed: bool)
    | Publishing | Recheck | Renaming | Removing | Done(ok: bool)

  datatype Uploader = Uploader(
    pc: Pc,
    seen: Option<Node>,          // what the first Lstat found at the destination
    mode: int,
    ownership: Option<(int, int)>,
    node: NodeId,                // the open temporary file
    copied: nat,
    attempted: bool,             // a publishing rename was requested
    faithful: bool)              // no creation or removal went another way than reported

  datatype World = World(posix: bool, jobs: seq<Job>, ups: seq<Uploader>, fs: Fs)

  /** What the server answers; a call that fails may have taken effect all the same. */
  datatype Reply = Succeeds | Fails(effect: bool)

  datatype Step =
    | Act(i: nat, reply: Reply, n: nat, id: NodeId, perm: int, owner: (int, int))
    | OthersBind(path: Path, id: NodeId, made: Node)   // create or replace
    | OthersLink(path: Path, from: Path)
    | OthersUnlink(path: Path)

  predicate IsTemp(jobs: seq<Job>, p: Path) { exists i | 0 <= i < |jobs| :: jobs[i].temp == p }

  /** Random names do not collide, and nobody uploads to a temporary name. */
  predicate Distinct(jobs: seq<Job>) {
    && (forall i, j | 0 <= i < j < |jobs| :: jobs[i].temp != jobs[j].temp)
    && (forall i | 0 <= i < |jobs| :: !IsTemp(jobs, jobs[i].dest))
  }

  // ----- what single calls do to the file system -----

  function Create(fs: Fs, p: Path, id: NodeId, node: Node): Fs {
    Fs(fs.names[p := id], fs.nodes[id := node])
  }

  function SetNode(fs: Fs, id: NodeId, node: Node): Fs { fs.(nodes := fs.nodes[id := node]) }

  function Unlink(fs: Fs, p: Path): Fs { fs.(names := fs.names - {p}) }

  function Rename(fs: Fs, from: Path, to: Path): Fs
    requires from in fs.names
  {
    fs.(names := (fs.names - {from})[to := fs.names[from]])
  }

  predicate Happens(reply: Reply) { reply == Succeeds || reply.effect }

  /** posix-rename replaces anything but a directory; plain SFTP v3 rename replaces nothing. */
  predicate CanRename(w: World, job: Job) {
    && job.temp in w.fs.names
    && (job.dest in w.fs.names ==>
          w.posix && job.dest in w.fs.names && w.fs.names[job.dest] in w.fs.nodes
          && w.fs.nodes[w.fs.names[job.dest]].kind != Directory)
  }

  /** Which answers the server can give to the next call of upload i. */
  predicate CanAct(w: World, i: nat, reply: Reply, n: nat, id: NodeId)
    requires i < |w.ups| == |w.jobs|
  {
    var u, job := w.ups[i], w.jobs[i];
    match u.pc
    case CheckDest => job.dest in w.fs.names ==> w.fs.names[job.dest] in w.fs.nodes
    case CreateTemp => id !in w.fs.nodes && (reply == Succeeds ==> job.temp !in w.fs.names)
    case Secure => u.node in w.fs.nodes
    case Copying =>
      && u.node in w.fs.nodes && u.copied + n <= |job.source|
      && (reply == Succeeds && u.copied < |job.source| ==> n > 0)
    case SetOwner => u.node in w.fs.nodes && u.ownership.Some?
    case SetMode => u.node in w.fs.nodes
    case Closing(_) => u.node in w.fs.nodes && n <= |w.fs.nodes[u.node].content|
    case Publishing => reply == Succeeds ==> CanRename(w, job)
    case Renaming => reply == Succeeds ==> CanRename(w, job)
    case Done(_) => false
    case _ => true
  }

  predicate Enabled(w: World, step: Step) {
    match step
    case Act(i, reply, n, id, _, _) => i < |w.ups| == |w.jobs| && CanAct(w, i, reply, n, id)
    case OthersBind(p, id, made) => !IsTemp(w.jobs, p) && id !in w.fs.nodes && made.maker == Others
    case OthersLink(p, from) => !IsTemp(w.jobs, p) && !IsTemp(w.jobs, from) && from in w.fs.names
    case OthersUnlink(p) => !IsTemp(w.jobs, p)
  }

  // ----- Upload, one remote call per step -----

  function ActOn(w: World, step: Step): (Uploader, Fs)
    requires step.Act? && Enabled(w, step)
  {
    var u, job, fs := w.ups[step.i], w.jobs[step.i], w.fs;
    var ok, happens := step.reply == Succeeds, Happens(step.reply);
    match u.pc
    case CheckDest =>
      if !ok then (u.(pc := Done(false)), fs)
      else if job.dest !in fs.names then (u.(pc := CreateTemp), fs)
      else
        var found := fs.nodes[fs.names[job.dest]];
        if found.kind != Regular then (u.(pc := Done(false)), fs)
        else (u.(pc := CreateTemp, seen := Some(found), mode := found.perm, ownership := Some(found.owner)), fs)
    case CreateTemp =>
      var made := Node(By(step.i), Regular, [], step.perm, step.owner);
      if ok then (u.(pc := Secure, node := step.id), Create(fs, job.temp, step.id, made))
      else if happens && job.temp !in fs.names then
        (u.(pc := Done(false), node := step.id, faithful := false), Create(fs, job.temp, step.id, made))
      else (u.(pc := Done(false)), fs)
    case Secure =>
      (u.(pc := if ok then Copying else Closing(true)),
       if happens then SetNode(fs, u.node, fs.nodes[u.node].(perm := PRIVATE)) else fs)
    case Copying =>
      var node := fs.nodes[u.node];
      var wrote := SetNode(fs, u.node, node.(content := node.content + job.source[u.copied..u.copied + step.n]));
      if ok && u.copied == |job.source| then (u.(pc := if u.ownership.Some? then SetOwner else SetMode), fs)
      else if ok then (u.(copied := u.copied + step.n), wrote)
      else (u.(pc := Closing(true)), if happens then wrote else fs)
    case SetOwner =>
      (u.(pc := if ok then SetMode else Closing(true)),
       if happens then SetNode(fs, u.node, fs.nodes[u.node].(owner := u.ownership.value)) else fs)
    case SetMode =>
      (u.(pc := Closing(!ok)), if happens then SetNode(fs, u.node, fs.nodes[u.node].(perm := u.mode)) else fs)
    case Closing(failed) =>   // what a failing close could not flush is lost
      (u.(pc := if failed || !ok then Removing else if w.posix then Publishing else Recheck),
       if !ok && happens then SetNode(fs, u.node, fs.nodes[u.node].(content := fs.nodes[u.node].content[..step.n])) else fs)
    case Recheck =>
      (u.(pc := if ok && job.dest !in fs.names then Renaming else Removing), fs)
    case Removing =>
      if happens then (u.(pc := Done(false)), Unlink(fs, job.temp))
      else (u.(pc := Done(false), faithful := u.faithful && job.temp !in fs.names), fs)
    case Done(_) => (u, fs)
    case _ =>   // Publishing and Renaming
      (u.(pc := if ok then Done(true) else Removing, attempted := true),
       if happens && CanRename(w, job) then Rename(fs, job.temp, job.dest) else fs)
  }

  function Apply(w: World, step: Step): World
    requires Enabled(w, step)
  {
    match step
    case Act(i, _, _, _, _, _) =>
      var (u, fs) := ActOn(w, step);
      w.(ups := w.ups[i := u], fs := fs)
    case OthersBind(p, id, made) => w.(fs := Create(w.fs, p, id, made))
    case OthersLink(p, from) => w.(fs := w.fs.(names := w.fs.names[p := w.fs.names[from]]))
    case OthersUnlink(p) => w.(fs := Unlink(w.fs, p))
  }

  function Fresh(): Uploader { Uploader(CheckDest, None, PRIVATE, None, 0, 0, false, true) }

  /** Any file system that has no temporary names yet, and any jobs. */
  predicate Start(w: World) {
    && Distinct(w.jobs) && |w.ups| == |w.jobs|
    && (forall i | 0 <= i < |w.ups| :: w.ups[i] == Fresh())
    && (forall p | p in w.fs.names :: !IsTemp(w.jobs, p) && w.fs.names[p] in w.fs.nodes)
    && (forall id | id in w.fs.nodes :: w.fs.nodes[id].maker == Others)
  }

  function RunAll(w: World, steps: seq<Step>): Option<World>
    decreases |steps|
  {
    if steps == [] then Some(w)
    else if Enabled(w, steps[0]) then RunAll(Apply(w, steps[0]), steps[1..])
    else None
  }

  // ----- the invariant -----

  /** A published file: the whole source, with the metadata of what it replaces. */
  predicate Complete(job: Job, u: Uploader, node: Node) {
    && node.kind == Regular && node.content == job.source
    && match u.seen
       case None => node.perm == PRIVATE
       case Some(prior) => node.perm == prior.perm && node.owner == prior.owner
  }

  predicate Recorded(u: Uploader) {
    match u.seen
    case None => u.mode == PRIVATE && u.ownership == None
    case Some(prior) => prior.kind == Regular && u.mode == prior.perm && u.ownership == Some(prior.owner)
  }

  /** What is true of the temporary file while an upload still works on it. */
  predicate Progress(job: Job, u: Uploader, node: Node) {
    var want := if u.seen.Some? then Some(u.seen.value.owner) else None;
    match u.pc
    case Secure => node.content == [] && u.copied == 0
    case Copying => u.copied <= |job.source| && node.content == job.source[..u.copied] && node.perm == PRIVATE
    case SetOwner => node.content == job.source && node.perm == PRIVATE
    case SetMode => node.content == job.source && (u.ownership.Some? ==> node.owner == u.ownership.value)
    case Closing(failed) => !failed ==> Complete(job, u, node)
    case Removing => true
    case _ => Complete(job, u, node)
  }

  predicate Working(pc: Pc) { !(pc in {CheckDest, CreateTemp, Removing}) && !pc.Done? }

  predicate UpInv(w: World, i: nat)
    requires i < |w.ups| == |w.jobs|
  {
    var u, job, fs := w.ups[i], w.jobs[i], w.fs;
    && Recorded(u)
    && (u.pc == CheckDest ==> u.seen == None)
    && (forall id | id in fs.nodes && fs.nodes[id].maker == By(i) :: id == u.node)
    && (u.pc in {CheckDest, CreateTemp} ==>
          job.temp !in fs.names && u.copied == 0 && forall id | id in fs.nodes :: fs.nodes[id].maker != By(i))
    && (Working(u.pc) ==>
          && job.temp in fs.names && fs.names[job.temp] == u.node
          && u.node in fs.nodes && fs.nodes[u.node].maker == By(i) && fs.nodes[u.node].kind == Regular
          && Progress(job, u, fs.nodes[u.node])
          && (forall p | p in fs.names && fs.names[p] == u.node :: p == job.temp))
    && (u.pc.Done? && (u.faithful || u.pc.ok) ==> job.temp !in fs.names)
  }

  /** Which calls an upload makes at all. */
  predicate Staged(posix: bool, u: Uploader) {
    && (u.pc == SetOwner ==> u.ownership.Some?)
    && (u.pc in {Recheck, Renaming} ==> !posix) && (u.pc == Publishing ==> posix)
  }

  /** Every name that is not a temporary one shows a foreign file or a complete upload. */
  predicate NamesInv(w: World) { forall p | p in w.fs.names :: NameOk(w, p) }

  predicate NameOk(w: World, p: Path)
    requires p in w.fs.names
  {
    && w.fs.names[p] in w.fs.nodes
    && var node := w.fs.nodes[w.fs.names[p]];
       if IsTemp(w.jobs, p) then
         node.maker.By? && node.maker.upload < |w.jobs| == |w.ups| && w.jobs[node.maker.upload].temp == p
       else
         node.maker == Others
         || (node.maker.upload < |w.jobs| == |w.ups| && Complete(w.jobs[node.maker.upload], w.ups[node.maker.upload], node))
  }

  predicate Inv(w: World) {
    && Distinct(w.jobs) && |w.ups| == |w.jobs|
    && NamesInv(w)
    && (forall i | 0 <= i < |w.ups| :: UpInv(w, i))
    && forall i | 0 <= i < |w.ups| :: Staged(w.posix, w.ups[i])
  }

  lemma StartIsGood(w: World)
    requires Start(w)
    ensures Inv(w)
  {
    forall i | 0 <= i < |w.ups| ensures UpInv(w, i) {
      assert w.ups[i] == Fresh();
      assert IsTemp(w.jobs, w.jobs[i].temp);
    }
  }

  /** Which of a world's names and nodes a step leaves for everyone but upload i. */
  predicate Frame(w: World, w': World, i: nat) {
    && w'.posix == w.posix && w'.jobs == w.jobs && |w'.ups| == |w.ups| == |w.jobs|
    && (forall j | 0 <= j < |w.ups| && j != i :: w'.ups[j] == w.ups[j])
    && (forall id | id in w.fs.nodes && w.fs.nodes[id].maker != By(i) ::
          id in w'.fs.nodes && w'.fs.nodes[id] == w.fs.nodes[id])
    && (forall id | id in w'.fs.nodes && id !in w.fs.nodes :: w'.fs.nodes[id].maker in {By(i), Others})
    && (forall id | id in w.fs.nodes && id in w'.fs.nodes :: w'.fs.nodes[id].maker == w.fs.nodes[id].maker)
    && (forall j | 0 <= j < |w.jobs| && j != i :: SameName(w, w', w.jobs[j].temp))
    && (forall p | p in w'.fs.names :: Traced(w, w', p, i))
  }

  predicate SameName(w: World, w': World, p: Path) {
    if p in w.fs.names then p in w'.fs.names && w'.fs.names[p] == w.fs.names[p] else p !in w'.fs.names
  }

  /** A name after a step shows what it showed, or what a lasting name shows, or a new or own node. */
  predicate Traced(w: World, w': World, p: Path, i: nat)
    requires p in w'.fs.names
  {
    var id := w'.fs.names[p];
    || (p in w.fs.names && w.fs.names[p] == id)
    || id !in w.fs.nodes
    || w.fs.nodes[id].maker == By(i)
    || exists q :: q in w.fs.names && !IsTemp(w.jobs, q) && w.fs.names[q] == id
  }

  lemma OtherKeeps(w: World, w': World, i: nat, j: nat)
    requires Inv(w) && Frame(w, w', i) && j < |w.ups| && j != i
    ensures UpInv(w', j)
  {
    var u, job := w.ups[j], w.jobs[j];
    assert UpInv(w, j) && SameName(w, w', job.temp) && w'.ups[j] == u;
    if Working(u.pc) {
      forall p | p in w'.fs.names && w'.fs.names[p] == u.node ensures p == job.temp {
        assert Traced(w, w', p, i);
        assert IsTemp(w.jobs, job.temp);
      }
    }
  }

  // ----- steps of other programs -----

  lemma OthersFrame(w: World, step: Step)
    requires Inv(w) && Enabled(w, step) && !step.Act?
    ensures Frame(w, Apply(w, step), |w.ups|)
  {
    var w' := Apply(w, step);
    forall j | 0 <= j < |w.jobs| ensures SameName(w, w', w.jobs[j].temp) {
      assert IsTemp(w.jobs, w.jobs[j].temp);
    }
    forall p | p in w'.fs.names ensures Traced(w, w', p, |w.ups|) {
    }
  }

  lemma OthersNames(w: World, step: Step)
    requires NamesInv(w) && Enabled(w, step) && !step.Act?
    ensures NamesInv(Apply(w, step))
  {
  }

  lemma OthersKeep(w: World, step: Step)
    requires Inv(w) && Enabled(w, step) && !step.Act?
    ensures Inv(Apply(w, step))
  {
    OthersFrame(w, step);
    OthersNames(w, step);
    forall i | 0 <= i < |w.ups| ensures UpInv(Apply(w, step), i) {
      OtherKeeps(w, Apply(w, step), |w.ups|, i);
    }
  }

  // ----- steps of an upload -----

  /** The calls that go through the open handle. */
  predicate OnHandle(pc: Pc) { pc in {Secure, Copying, SetOwner, SetMode} }

  /** Only these four things ever happen to the file system in a step of upload i. */
  predicate Effect(w: World, step: Step, fs': Fs)
    requires step.Act? && Enabled(w, step)
  {
    var u, job, fs := w.ups[step.i], w.jobs[step.i], w.fs;
    || fs' == fs
    || (u.pc == CreateTemp && job.temp !in fs.names
        && fs' == Create(fs, job.temp, step.id, Node(By(step.i), Regular, [], step.perm, step.owner)))
    || ((OnHandle(u.pc) || u.pc.Closing?) && u.node in fs.nodes && u.node in fs'.nodes
        && fs'.nodes[u.node].maker == fs.nodes[u.node].maker && fs'.nodes[u.node].kind == fs.nodes[u.node].kind
        && fs' == SetNode(fs, u.node, fs'.nodes[u.node]))
    || (u.pc == Removing && fs' == Unlink(fs, job.temp))
    || (u.pc in {Publishing, Renaming} && CanRename(w, job) && fs' == Rename(fs, job.temp, job.dest))
  }

  lemma ActHasEffect(w: World, step: Step)
    requires step.Act? && Enabled(w, step)
    ensures Effect(w, step, ActOn(w, step).1)
    ensures var u, u' := w.ups[step.i], ActOn(w, step).0;
            && (u.pc != CheckDest ==> u'.seen == u.seen && u'.mode == u.mode && u'.ownership == u.ownership)
            && (u.pc != CreateTemp ==> u'.node == u.node)
  {
  }

  lemma ActFrame(w: World, step: Step)
    requires Inv(w) && step.Act? && Enabled(w, step)
    ensures Frame(w, Apply(w, step), step.i)
  {
    var i, w' := step.i, Apply(w, step);
    ActHasEffect(w, step);
    assert UpInv(w, i);
    forall j | 0 <= j < |w.jobs| && j != i ensures SameName(w, w', w.jobs[j].temp) {
      assert IsTemp(w.jobs, w.jobs[j].temp);
    }
    forall p | p in w'.fs.names ensures Traced(w, w', p, i) {
      assert IsTemp(w.jobs, w.jobs[i].temp);
    }
  }

  lemma ActNames(w: World, step: Step)
    requires Inv(w) && step.Act? && Enabled(w, step)
    ensures NamesInv(Apply(w, step))
  {
    var i := step.i;
    if w.ups[i].pc in {Publishing, Renaming} { PublishNames(w, step); } else { EarlierNames(w, step); }
  }

  lemma PublishNames(w: World, step: Step)
    requires Inv(w) && step.Act? && Enabled(w, step) && w.ups[step.i].pc in {Publishing, Renaming}
    ensures NamesInv(Apply(w, step))
  {
    ActHasEffect(w, step);
    assert UpInv(w, step.i);
    assert IsTemp(w.jobs, w.jobs[step.i].temp);
  }

  lemma EarlierName(w: World, step: Step, p: Path)
    requires Inv(w) && step.Act? && Enabled(w, step) && !(w.ups[step.i].pc in {Publishing, Renaming})
    requires p in Apply(w, step).fs.names
    ensures NameOk(Apply(w, step), p)
  {
    ActHasEffect(w, step);
    assert UpInv(w, step.i);
    assert IsTemp(w.jobs, w.jobs[step.i].temp);
    if p in w.fs.names { assert NameOk(w, p); }
  }

  lemma EarlierNames(w: World, step: Step)
    requires Inv(w) && step.Act? && Enabled(w, step) && !(w.ups[step.i].pc in {Publishing, Renaming})
    ensures NamesInv(Apply(w, step))
  {
    forall p | p in Apply(w, step).fs.names ensures NameOk(Apply(w, step), p) {
      EarlierName(w, step, p);
    }
  }

  /** The temporary file one phase further, with every name where it was. */
  predicate Advanced(w: World, step: Step)
    requires step.Act? && Enabled(w, step)
  {
    var (u', fs') := ActOn(w, step);
    && fs'.names == w.fs.names && Working(u'.pc) && u'.node in fs'.nodes
    && fs'.nodes == w.fs.nodes[u'.node := fs'.nodes[u'.node]]
    && Progress(w.jobs[step.i], u', fs'.nodes[u'.node])
  }

  predicate Progressing(w: World, step: Step)
    requires step.Act? && Enabled(w, step) && OnHandle(w.ups[step.i].pc)
  {
    && Recorded(w.ups[step.i]) && w.fs.nodes[w.ups[step.i].node].kind == Regular
    && Progress(w.jobs[step.i], w.ups[step.i], w.fs.nodes[w.ups[step.i].node])
  }

  lemma CopyProgress(w: World, step: Step)
    requires step.Act? && Enabled(w, step) && w.ups[step.i].pc == Copying && Progressing(w, step)
    ensures Advanced(w, step)
  {
    PrefixGrows(w.jobs[step.i].source, w.ups[step.i].copied, step.n);
  }

  /** A call through the handle takes the temporary file one phase further and renames nothing. */
  lemma HandleProgress(w: World, step: Step)
    requires step.Act? && Enabled(w, step) && OnHandle(w.ups[step.i].pc) && Progressing(w, step)
    ensures Advanced(w, step)
  {
    if w.ups[step.i].pc == Copying { CopyProgress(w, step); }
  }

  lemma HandleOwn(w: World, step: Step)
    requires Inv(w) && step.Act? && Enabled(w, step) && OnHandle(w.ups[step.i].pc)
    ensures UpInv(Apply(w, step), step.i)
  {
    assert UpInv(w, step.i);
    HandleProgress(w, step);
    ActHasEffect(w, step);
  }

  lemma CreateOwn(w: World, step: Step)
    requires Inv(w) && step.Act? && Enabled(w, step) && w.ups[step.i].pc == CreateTemp
    ensures UpInv(Apply(w, step), step.i)
  {
    assert UpInv(w, step.i);
    assert IsTemp(w.jobs, w.jobs[step.i].temp);
  }

  lemma RenameOwn(w: World, step: Step)
    requires Inv(w) && step.Act? && Enabled(w, step) && w.ups[step.i].pc in {Publishing, Renaming}
    ensures UpInv(Apply(w, step), step.i)
  {
    assert UpInv(w, step.i);
    assert IsTemp(w.jobs, w.jobs[step.i].temp);
  }

  lemma LookOwn(w: World, step: Step)
    requires Inv(w) && step.Act? && Enabled(w, step) && w.ups[step.i].pc == CheckDest
    ensures UpInv(Apply(w, step), step.i)
  {
    assert UpInv(w, step.i);
  }

  lemma CheckOwn(w: World, step: Step)
    requires Inv(w) && step.Act? && Enabled(w, step) && w.ups[step.i].pc == Recheck
    ensures UpInv(Apply(w, step), step.i)
  {
    assert UpInv(w, step.i);
  }

  lemma CloseOwn(w: World, step: Step)
    requires Inv(w) && step.Act? && Enabled(w, step) && w.ups[step.i].pc.Closing?
    ensures UpInv(Apply(w, step), step.i)
  {
    assert UpInv(w, step.i);
  }

  lemma RemoveOwn(w: World, step: Step)
    requires Inv(w) && step.Act? && Enabled(w, step) && w.ups[step.i].pc == Removing
    ensures UpInv(Apply(w, step), step.i)
  {
    assert UpInv(w, step.i);
  }

  lemma ActStages(w: World, step: Step)
    requires step.Act? && Enabled(w, step) && Staged(w.posix, w.ups[step.i])
    ensures Staged(w.posix, ActOn(w, step).0)
  {
  }

  lemma StepKeeps(w: World, step: Step)
    requires Inv(w) && Enabled(w, step)
    ensures Inv(Apply(w, step))
  {
    if step.Act? {
      var w' := Apply(w, step);
      ActStages(w, step);
      ActFrame(w, step);
      ActNames(w, step);
      forall j | 0 <= j < |w.ups| ensures UpInv(w', j) {
        if j != step.i {
          OtherKeeps(w, w', step.i, j);
        } else if OnHandle(w.ups[j].pc) {
          HandleOwn(w, step);
        } else if w.ups[j].pc == CreateTemp {
          CreateOwn(w, step);
        } else if w.ups[j].pc in {Publishing, Renaming} {
          RenameOwn(w, step);
        } else if w.ups[j].pc == CheckDest {
          LookOwn(w, step);
        } else if w.ups[j].pc == Recheck {
          CheckOwn(w, step);
        } else if w.ups[j].pc.Closing? {
          CloseOwn(w, step);
        } else {
          RemoveOwn(w, step);
        }
      }
    } else {
      OthersKeep(w, step);
    }
  }

  lemma {:induction false} RunKeeps(w: World, steps: seq<Step>)
    requires Inv(w) && RunAll(w, steps).Some?
    ensures Inv(RunAll(w, steps).value) && RunAll(w, steps).value.jobs == w.jobs
    ensures Untouched(w, RunAll(w, steps).value)
    decreases |steps|
  {
    if steps != [] {
      StepKeeps(w, steps[0]);
      SparesForeign(w, steps[0]);
      RunKeeps(Apply(w, steps[0]), steps[1..]);
    }
  }

  // ----- what every run guarantees -----

  /** Files no upload made are the same, byte for byte and bit for bit. */
  predicate Untouched(w: World, w': World) {
    forall id | id in w.fs.nodes && w.fs.nodes[id].maker == Others ::
      id in w'.fs.nodes && w'.fs.nodes[id] == w.fs.nodes[id]
  }

  lemma SparesForeign(w: World, step: Step)
    requires Inv(w) && Enabled(w, step)
    ensures Untouched(w, Apply(w, step))
  {
    if step.Act? { ActFrame(w, step); } else { OthersFrame(w, step); }
  }

  /**
   At every moment of every run a destination, indeed every name that is not temporary, shows
   a file some other program made or one upload's complete source, with the owner and permissions
   that upload first saw there, or 0600 where it saw nothing; and from any earlier moment on, the
   files other programs had made by then are unmodified.
   */
  lemma DestinationsAreWhole(w0: World, before: seq<Step>, after: seq<Step>, p: Path)
    requires Start(w0) && !IsTemp(w0.jobs, p)
    requires RunAll(w0, before).Some? && RunAll(RunAll(w0, before).value, after).Some?
    ensures var mid := RunAll(w0, before).value;
            var w := RunAll(mid, after).value;
            && Untouched(mid, w)
            && (p in w.fs.names ==>
                  && w.fs.names[p] in w.fs.nodes
                  && var node := w.fs.nodes[w.fs.names[p]];
                     node.maker == Others
                     || (node.maker.upload < |w.jobs| == |w.ups|
                         && Complete(w.jobs[node.maker.upload], w.ups[node.maker.upload], node)))
  {
    StartIsGood(w0);
    RunKeeps(w0, before);
    RunKeeps(RunAll(w0, before).value, after);
  }

  /**
   The first look decides: an upload goes on exactly if it could look and found a regular file,
   whose permissions and owner it will restore, or nothing, and then the file will be private.
   */
  lemma FirstLook(w: World, step: Step)
    requires Inv(w) && step.Act? && Enabled(w, step) && w.ups[step.i].pc == CheckDest
    ensures var u', dest := ActOn(w, step).0, w.jobs[step.i].dest;
            && (u'.pc == CreateTemp <==>
                  step.reply == Succeeds && (dest !in w.fs.names || w.fs.nodes[w.fs.names[dest]].kind == Regular))
            && (u'.pc != CreateTemp ==> u'.pc == Done(false))
            && (u'.pc == CreateTemp ==>
                  if dest !in w.fs.names then u'.seen == None && u'.mode == 0x180 && u'.ownership == None
                  else
                    var node := w.fs.nodes[w.fs.names[dest]];
                    u'.seen == Some(node) && u'.mode == node.perm && u'.ownership == Some(node.owner))
            && ActOn(w, step).1 == w.fs
  {
    assert UpInv(w, step.i);
  }

  /** What the first look found is never forgotten. */
  lemma LookIsKept(w: World, step: Step)
    requires step.Act? && Enabled(w, step) && w.ups[step.i].pc != CheckDest
    ensures ActOn(w, step).0.seen == w.ups[step.i].seen
  {
    ActHasEffect(w, step);
  }

  /** Only a rename that succeeds ends in success, and it moves the temporary file to the destination. */
  lemma SuccessRenames(w: World, step: Step)
    requires step.Act? && Enabled(w, step) && ActOn(w, step).0.pc == Done(true) && w.ups[step.i].pc != Done(true)
    ensures w.ups[step.i].pc in {Publishing, Renaming} && CanRename(w, w.jobs[step.i])
    ensures ActOn(w, step) == (w.ups[step.i].(pc := Done(true), attempted := true),
                               Rename(w.fs, w.jobs[step.i].temp, w.jobs[step.i].dest))
  {
  }

  /** Reporting success means having just published the whole source. */
  lemma SuccessPublishes(w: World, step: Step)
    requires Inv(w) && step.Act? && Enabled(w, step)
    requires Apply(w, step).ups[step.i].pc == Done(true)
    ensures var w', job := Apply(w, step), w.jobs[step.i];
            && job.dest in w'.fs.names && w'.fs.names[job.dest] in w'.fs.nodes
            && Complete(job, w'.ups[step.i], w'.fs.nodes[w'.fs.names[job.dest]])
            && job.temp !in w'.fs.names
  {
    SuccessRenames(w, step);
    assert UpInv(w, step.i);
    assert IsTemp(w.jobs, w.jobs[step.i].temp) && w.jobs[step.i].dest != w.jobs[step.i].temp;
  }

  /** Until it requests the publishing rename an upload changes no lasting name. */
  lemma NothingBeforeRename(w: World, step: Step, p: Path)
    requires Inv(w) && step.Act? && Enabled(w, step) && !IsTemp(w.jobs, p)
    requires !Apply(w, step).ups[step.i].attempted || (!w.posix && p in w.fs.names)
    ensures SameName(w, Apply(w, step), p)
  {
    ActHasEffect(w, step);
    assert IsTemp(w.jobs, w.jobs[step.i].temp);
  }

  lemma {:induction false} AttemptsAreRemembered(w: World, steps: seq<Step>, i: nat)
    requires RunAll(w, steps).Some? && i < |w.ups|
    ensures |RunAll(w, steps).value.ups| == |w.ups|
    ensures w.ups[i].attempted ==> RunAll(w, steps).value.ups[i].attempted
    decreases |steps|
  {
    if steps != [] { AttemptsAreRemembered(Apply(w, steps[0]), steps[1..], i); }
  }

  /** An upload that ends, or is abandoned, before its publishing rename never changed a lasting name. */
  lemma FailedEarlyChangedNothing(w0: World, before: seq<Step>, step: Step, after: seq<Step>, p: Path)
    requires Start(w0) && !IsTemp(w0.jobs, p) && step.Act?
    requires RunAll(w0, before).Some? && Enabled(RunAll(w0, before).value, step)
    requires var w' := Apply(RunAll(w0, before).value, step);
             RunAll(w', after).Some? && |RunAll(w', after).value.ups| == |w'.ups|
             && !RunAll(w', after).value.ups[step.i].attempted
    ensures var w := RunAll(w0, before).value; SameName(w, Apply(w, step), p)
  {
    StartIsGood(w0);
    RunKeeps(w0, before);
    var w := RunAll(w0, before).value;
    AttemptsAreRemembered(Apply(w, step), after, step.i);
    NothingBeforeRename(w, step, p);
  }

  /** A file gains bytes only while nobody but its owner can open it. */
  lemma ContentIsPrivate(w: World, step: Step, id: NodeId)
    requires Inv(w) && Enabled(w, step) && id in w.fs.nodes
    ensures id in Apply(w, step).fs.nodes
    ensures var before, after := w.fs.nodes[id], Apply(w, step).fs.nodes[id];
            !(after.content <= before.content) ==> before.perm == PRIVATE && after.perm == PRIVATE
  {
    if step.Act? { assert UpInv(w, step.i); }
  }

  /** An upload that has ended leaves no temporary file, unless a call misreported or Remove failed. */
  lemma NoLitter(w0: World, steps: seq<Step>, i: nat)
    requires Start(w0) && RunAll(w0, steps).Some? && i < |w0.jobs|
    ensures var w := RunAll(w0, steps).value;
            |w.ups| == |w0.jobs| && (w.ups[i].pc == Done(true) || (w.ups[i].pc == Done(false) && w.ups[i].faithful)
              ==> w0.jobs[i].temp !in w.fs.names)
  {
    StartIsGood(w0);
    RunKeeps(w0, steps);
    assert UpInv(RunAll(w0, steps).value, i);
  }

  // ----- an upload can succeed -----

  predicate OnTrack(pc: Pc) { !pc.Done? && pc != Removing && pc != Closing(true) }

  /** Nothing at the destination stands in the way. */
  predicate Free(w: World, i: nat)
    requires i < |w.ups| == |w.jobs|
  {
    var dest := w.jobs[i].dest;
    dest in w.fs.names ==>
      && w.posix && w.fs.names[dest] in w.fs.nodes
      && var kind := w.fs.nodes[w.fs.names[dest]].kind;
         if w.ups[i].pc == CheckDest then kind == Regular else kind != Directory
  }

  lemma {:induction false} UnusedId(nodes: map<NodeId, Node>) returns (id: NodeId)
    ensures forall k | k in nodes :: k < id
    decreases |nodes|
  {
    if nodes == map[] {
      id := 0;
    } else {
      var k :| k in nodes;
      assert |(nodes - {k}).Keys| < |nodes.Keys|;
      id := UnusedId(nodes - {k});
      assert forall j | j in nodes && j != k :: j in nodes - {k};
      if id <= k { id := k + 1; }
    }
  }

  /** How many calls upload i has yet to make, if all of them succeed. */
  function CallsLeft(w: World, i: nat): nat
    requires i < |w.ups| == |w.jobs|
  {
    match w.ups[i].pc
    case CheckDest => 20
    case CreateTemp => 19
    case Secure => 18
    case Copying => if w.ups[i].copied < |w.jobs[i].source| then 17 else 16
    case SetOwner => 15
    case SetMode => 14
    case Closing(_) => 13
    case Recheck => 12
    case Publishing => 11
    case Renaming => 11
    case _ => 0
  }

  /** The next call of upload i, answered without a failure; the source is copied in one piece. */
  function GoodStep(w: World, i: nat, id: NodeId): Step
    requires i < |w.ups| == |w.jobs|
  {
    var rest := if w.ups[i].copied <= |w.jobs[i].source| then |w.jobs[i].source| - w.ups[i].copied else 0;
    Act(i, Succeeds, if w.ups[i].pc == Copying then rest else 0, id, 0, (0, 0))
  }

  predicate Ready(w: World, i: nat) {
    Inv(w) && i < |w.ups| && OnTrack(w.ups[i].pc) && Free(w, i)
  }

  lemma GoodStepIsPossible(w: World, i: nat, id: NodeId)
    requires Ready(w, i) && id !in w.fs.nodes
    ensures Enabled(w, GoodStep(w, i, id))
  {
    assert UpInv(w, i);
    if w.jobs[i].dest in w.fs.names { assert NameOk(w, w.jobs[i].dest); }
  }

  lemma GoodStepGoesOn(w: World, i: nat, id: NodeId)
    requires Ready(w, i) && id !in w.fs.nodes && Enabled(w, GoodStep(w, i, id))
    ensures var u' := ActOn(w, GoodStep(w, i, id)).0;
            if w.ups[i].pc in {Publishing, Renaming} then u'.pc == Done(true) else OnTrack(u'.pc)
  {
  }

  lemma GoodStepProgresses(w: World, i: nat, id: NodeId)
    requires i < |w.ups| == |w.jobs| && OnTrack(w.ups[i].pc) && Enabled(w, GoodStep(w, i, id))
    requires w.ups[i].pc in {CheckDest, CreateTemp, Secure, Copying} ==> w.ups[i].copied <= |w.jobs[i].source|
    ensures CallsLeft(Apply(w, GoodStep(w, i, id)), i) < CallsLeft(w, i)
  {
  }

  lemma GoodStepStaysFree(w: World, i: nat, id: NodeId)
    requires Ready(w, i) && id !in w.fs.nodes && Enabled(w, GoodStep(w, i, id))
    requires OnTrack(ActOn(w, GoodStep(w, i, id)).0.pc) && !(w.ups[i].pc in {Publishing, Renaming})
    ensures Free(Apply(w, GoodStep(w, i, id)), i)
  {
    var step := GoodStep(w, i, id);
    ActHasEffect(w, step);
    assert UpInv(w, i);
    assert IsTemp(w.jobs, w.jobs[i].temp) && w.jobs[i].dest != w.jobs[i].temp;
  }

  lemma CopiesNoMore(w: World, i: nat)
    requires Ready(w, i)
    ensures w.ups[i].pc in {CheckDest, CreateTemp, Secure, Copying} ==> w.ups[i].copied <= |w.jobs[i].source|
  {
    assert UpInv(w, i);
  }

  predicate OnlyGoodSteps(steps: seq<Step>, i: nat) {
    forall step | step in steps :: step.Act? && step.i == i && step.reply == Succeeds
  }

  lemma {:induction false} Finish(w: World, i: nat) returns (steps: seq<Step>)
    requires Ready(w, i)
    ensures OnlyGoodSteps(steps, i) && RunAll(w, steps).Some?
    ensures var w', dest := RunAll(w, steps).value, w.jobs[i].dest;
            && i < |w'.ups| && w'.ups[i].pc == Done(true)
            && dest in w'.fs.names && w'.fs.names[dest] in w'.fs.nodes
            && Complete(w.jobs[i], w'.ups[i], w'.fs.nodes[w'.fs.names[dest]])
            && (w.ups[i].pc != CheckDest ==> w'.ups[i].seen == w.ups[i].seen)
    decreases CallsLeft(w, i)
  {
    var id := UnusedId(w.fs.nodes);
    var step := GoodStep(w, i, id);
    GoodStepIsPossible(w, i, id);
    GoodStepGoesOn(w, i, id);
    CopiesNoMore(w, i);
    GoodStepProgresses(w, i, id);
    StepKeeps(w, step);
    if w.ups[i].pc != CheckDest { LookIsKept(w, step); }
    var rest: seq<Step> := [];
    if Apply(w, step).ups[i].pc == Done(true) {
      SuccessPublishes(w, step);
    } else {
      GoodStepStaysFree(w, i, id);
      rest := Finish(Apply(w, step), i);
    }
    steps := [step] + rest;
    assert steps[1..] == rest;
  }

  /**
   Uploads work: from every start, to a destination that is absent, or regular where posix-rename
   is available, the calls of an upload, all answered without a failure, end in success with the
   whole source at the destination, under the permissions and owner of what was there, or 0600.
   */
  lemma UploadCanSucceed(w0: World, i: nat) returns (steps: seq<Step>)
    requires Start(w0) && i < |w0.jobs|
    requires var dest := w0.jobs[i].dest;
             dest in w0.fs.names ==> w0.posix && w0.fs.nodes[w0.fs.names[dest]].kind == Regular
    ensures OnlyGoodSteps(steps, i) && RunAll(w0, steps).Some?
    ensures var w, dest := RunAll(w0, steps).value, w0.jobs[i].dest;
            && i < |w.ups| && w.ups[i].pc == Done(true)
            && dest in w.fs.names && w.fs.names[dest] in w.fs.nodes
            && var node := w.fs.nodes[w.fs.names[dest]];
               && node.kind == Regular && node.content == w0.jobs[i].source
               && if dest in w0.fs.names
                  then node.perm == w0.fs.nodes[w0.fs.names[dest]].perm && node.owner == w0.fs.nodes[w0.fs.names[dest]].owner
                  else node.perm == 0x180
  {
    StartIsGood(w0);
    var id := UnusedId(w0.fs.nodes);
    var look := GoodStep(w0, i, id);
    GoodStepIsPossible(w0, i, id);
    FirstLook(w0, look);
    StepKeeps(w0, look);
    GoodStepStaysFree(w0, i, id);
    var rest := Finish(Apply(w0, look), i);
    steps := [look] + rest;
    assert steps[1..] == rest;
  }
}
