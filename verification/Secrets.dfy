/**
 The persistent secrets file. Any number of processes start at once, any of them may crash
 between two system calls, and a reader may find a file another process is still writing.
 */
module Secrets {
  import opened Common
  import opened Crypto

  const DEFAULT_JWT := "opsup-default-jwt-secret-change-me-in-prod"

  datatype Keys = Keys(jwt: string, key: string)

  function BeforeBrace(jwt: string, key: string): string {
    "{\n  \"jwt_secret\": \"" + jwt + "\",\n  \"encryption_key\": \"" + key + "\"\n"
  }

  /** json.MarshalIndent and the final newline. */
  function Render(k: Keys): string { BeforeBrace(k.jwt, k.key) + "}\n" }

  /** The text of 32 random bytes. */
  predicate IsSecret(s: string) {
    DecodeHex(s).Some? && |DecodeHex(s).value| == 32 && EncodeHex(DecodeHex(s).value) == s
  }

  predicate Drawn(k: Keys) { IsSecret(k.jwt) && IsSecret(k.key) }

  lemma {:induction false} DrawnIsSecret(b: bytes)
    requires |b| == 32
    ensures IsSecret(EncodeHex(b))
  {
    HexRoundTrip(b);
  }

  /**
   What is assumed of json.Unmarshal: it reads back what was rendered, also before the final
   newline is on disk, and refuses an empty file and an object whose brace is never closed.
   */
  ghost predicate ReadsJson(parse: string -> Option<Keys>) {
    && (forall k | Drawn(k) :: parse(Render(k)) == Some(k))
    && (forall k | Drawn(k) :: parse(Render(k)[..|Render(k)| - 1]) == Some(k))
    && (forall text | Unclosed(text) :: parse(text) == None)
  }

  predicate Unclosed(text: string) { text == "" || (text[0] == '{' && '}' !in text) }

  lemma {:induction false} EncodedIsHex(b: bytes)
    ensures forall c | c in EncodeHex(b) :: c in DIGITS
  {
    if b != [] { EncodedIsHex(b[1..]); }
  }

  lemma {:induction false} SecretHasNoBrace(s: string)
    requires IsSecret(s)
    ensures '}' !in s
  {
    EncodedIsHex(DecodeHex(s).value);
  }

  lemma {:induction false} NoBraceBefore(jwt: string, key: string)
    requires '}' !in jwt && '}' !in key
    ensures '}' !in BeforeBrace(jwt, key)
  {
    assert '}' !in "{\n  \"jwt_secret\": \"" && '}' !in "\",\n  \"encryption_key\": \"" && '}' !in "\"\n";
  }

  /** A file that is still being written never passes for a complete one. */
  lemma {:induction false} PartialFileIsRefused(k: Keys, n: nat)
    requires Drawn(k) && n < |Render(k)| - 1
    ensures Unclosed(Render(k)[..n])
  {
    var start := BeforeBrace(k.jwt, k.key);
    assert Render(k)[..n] == start[..n];
    SecretHasNoBrace(k.jwt);
    SecretHasNoBrace(k.key);
    NoBraceBefore(k.jwt, k.key);
  }

  // ----- starting processes -----

  /** The environment overrides of one process; an empty one is none. */
  datatype Env = Env(jwt: string, key: string)

  datatype Pc =
    | Reading
    | Securing(found: Keys)        // chmod of the file just read
    | MakingDir | Drawing | Creating | Writing | Syncing
    | Checking(stored: Keys)       // the validation at the end of Load
    | Loaded(cfg: Keys) | Failed

  datatype Starter = Starter(env: Env, pc: Pc, own: Keys, written: nat)

  datatype World = World(file: Option<string>, creator: Option<nat>, starters: seq<Starter>)

  datatype Step =
    | Act(i: nat, ok: bool, n: nat, jwt: bytes, key: bytes)
    | Crash(i: nat)

  predicate Overridden(e: Env) { e.jwt != "" && e.key != "" }

  /** What Load makes of the stored keys: overrides win, unusable values are an error. */
  function Config(e: Env, stored: Keys): Option<Keys> {
    var jwt := if e.jwt != "" then e.jwt else stored.jwt;
    var hexKey := if e.key != "" then e.key else stored.key;
    if |jwt| < 32 || jwt == DEFAULT_JWT then None
    else
      match DecodeHex(hexKey)
      case None => None
      case Some(k) =>
        if |k| != 32 || EncodeHex(k) == LEGACY_KEY then None else Some(Keys(jwt, EncodeHex(k)))
  }

  predicate Enabled(w: World, step: Step) {
    match step
    case Crash(i) => i < |w.starters|
    case Act(i, ok, n, jwt, key) =>
      && i < |w.starters|
      && match w.starters[i].pc
         case Drawing => |jwt| == |key| == 32
         case Creating => ok ==> w.file == None      // O_EXCL
         case Writing =>
           && w.file.Some? && w.starters[i].written + n <= |Render(w.starters[i].own)|
           && (ok ==> n > 0 || w.starters[i].written == |Render(w.starters[i].own)|)
         case Loaded(_) => false
         case Failed => false
         case _ => true
  }

  /** One system call of one starting process. A failed write may have written something. */
  function ActOn(parse: string -> Option<Keys>, w: World, step: Step): (Starter, World)
    requires step.Act? && Enabled(w, step)
  {
    var s := w.starters[step.i];
    match s.pc
    case Reading =>
      if Overridden(s.env) then (s.(pc := Checking(Keys("", ""))), w)
      else if !step.ok then (s.(pc := Failed), w)
      else
        (match w.file
         case None => (s.(pc := MakingDir), w)
         case Some(text) =>
           (match parse(text)
            case None => (s.(pc := Failed), w)
            case Some(k) => (s.(pc := Securing(k)), w)))
    case Securing(k) => (s.(pc := if step.ok then Checking(k) else Failed), w)
    case MakingDir => (s.(pc := if step.ok then Drawing else Failed), w)
    case Drawing =>
      (if step.ok then s.(pc := Creating, own := Keys(EncodeHex(step.jwt), EncodeHex(step.key)))
       else s.(pc := Failed), w)
    case Creating =>
      if step.ok then (s.(pc := Writing, written := 0), w.(file := Some(""), creator := Some(step.i)))
      else (s.(pc := Failed), w)
    case Writing =>
      var text := Render(s.own);
      var w' := w.(file := Some(w.file.value + text[s.written..s.written + step.n]));
      if !step.ok then (s.(pc := Failed, written := s.written + step.n), w')
      else if s.written == |text| then (s.(pc := Syncing), w)
      else (s.(written := s.written + step.n), w')
    case Syncing => (s.(pc := if step.ok then Checking(s.own) else Failed), w)
    case Checking(k) =>
      (match Config(s.env, k)
       case None => (s.(pc := Failed), w)
       case Some(cfg) => (s.(pc := Loaded(cfg)), w))
    case _ => (s, w)
  }

  function Apply(parse: string -> Option<Keys>, w: World, step: Step): World
    requires Enabled(w, step)
  {
    match step
    case Crash(i) => w.(starters := w.starters[i := w.starters[i].(pc := Failed)])
    case Act(i, _, _, _, _) =>
      var (s, w') := ActOn(parse, w, step);
      w'.(starters := w.starters[i := s])
  }

  function RunAll(parse: string -> Option<Keys>, w: World, steps: seq<Step>): Option<World>
    decreases |steps|
  {
    if steps == [] then Some(w)
    else if Enabled(w, steps[0]) then RunAll(parse, Apply(parse, w, steps[0]), steps[1..])
    else None
  }

  /** No file or a file from earlier, and processes that have not done anything yet. */
  predicate Start(w: World) {
    w.creator == None && forall s | s in w.starters :: s.pc == Reading && s.written == 0
  }

  // ----- the invariant -----

  /** The keys the installation has settled on, as soon as there is a file. */
  function Settled(parse: string -> Option<Keys>, w: World): Option<Keys> {
    match w.creator
    case Some(i) => if i < |w.starters| then Some(w.starters[i].own) else None
    case None => if w.file.Some? then parse(w.file.value) else None
  }

  predicate StarterInv(parse: string -> Option<Keys>, w: World, i: nat)
    requires i < |w.starters|
  {
    var s := w.starters[i];
    && (s.pc in {Creating, Writing, Syncing} ==> Drawn(s.own))
    && (s.pc in {Writing, Syncing} ==> w.creator == Some(i))
    && (s.pc == Syncing ==> s.written == |Render(s.own)|)
    && (s.pc.Securing? ==> Settled(parse, w) == Some(s.pc.found))
    && (s.pc.Checking? && !Overridden(s.env) ==> Settled(parse, w) == Some(s.pc.stored))
    && (s.pc.Loaded? && !Overridden(s.env) ==>
          Settled(parse, w).Some? && Config(s.env, Settled(parse, w).value) == Some(s.pc.cfg))
  }

  /** A file made by one of the processes holds what that one has written of its text. */
  predicate FileText(w: World) {
    && (w.file == None ==> w.creator == None)
    && (w.creator.Some? ==>
          && w.file.Some? && w.creator.value < |w.starters|
          && var s := w.starters[w.creator.value];
             && s.written <= |Render(s.own)| && w.file.value == Render(s.own)[..s.written]
             && !(s.pc in {Reading, MakingDir, Drawing, Creating}))
  }

  predicate FileInv(w: World) {
    FileText(w) && (w.creator.Some? ==> Drawn(w.starters[w.creator.value].own))
  }

  predicate Inv(parse: string -> Option<Keys>, w: World) {
    FileInv(w) && forall i | 0 <= i < |w.starters| :: StarterInv(parse, w, i)
  }

  lemma {:induction false} PartIsNotRead(parse: string -> Option<Keys>, k: Keys, n: nat)
    requires ReadsJson(parse) && Drawn(k) && n < |Render(k)| - 1
    ensures parse(Render(k)[..n]) == None
  {
    PartialFileIsRefused(k, n);
  }

  lemma {:induction false} AllButNewlineIsRead(parse: string -> Option<Keys>, k: Keys, n: nat)
    requires ReadsJson(parse) && Drawn(k) && n == |Render(k)| - 1
    ensures parse(Render(k)[..n]) == Some(k)
  {
  }

  lemma {:induction false} WholeIsRead(parse: string -> Option<Keys>, k: Keys, n: nat)
    requires ReadsJson(parse) && Drawn(k) && n == |Render(k)|
    ensures parse(Render(k)[..n]) == Some(k)
  {
    assert Render(k)[..n] == Render(k);
  }

  /** Reading the file yields the settled keys, or nothing. */
  lemma {:induction false} ReadIsSettled(parse: string -> Option<Keys>, w: World)
    requires ReadsJson(parse) && FileInv(w) && w.file.Some? && parse(w.file.value).Some?
    ensures parse(w.file.value) == Settled(parse, w)
  {
    if w.creator.Some? {
      var s := w.starters[w.creator.value];
      var length := |Render(s.own)|;
      if s.written < length - 1 {
        PartIsNotRead(parse, s.own, s.written);
      } else if s.written < length {
        AllButNewlineIsRead(parse, s.own, s.written);
      } else {
        WholeIsRead(parse, s.own, s.written);
      }
    }
  }

  /** The file is never replaced and a settled choice stands. */
  predicate Lasting(parse: string -> Option<Keys>, w: World, w': World) {
    && |w'.starters| == |w.starters|
    && (forall i | 0 <= i < |w.starters| :: w'.starters[i].env == w.starters[i].env)
    && (w.file.Some? ==> w'.file.Some? && w.file.value <= w'.file.value && w'.creator == w.creator)
    && (w.file.Some? && w.creator == None ==> w'.file == w.file)
    && (w.file.Some? ==> Settled(parse, w') == Settled(parse, w))
  }

  /** A write by the creator: the file grows to the longer prefix of its text. */
  lemma {:induction false} WriteGrowsFile(parse: string -> Option<Keys>, w: World, step: Step)
    requires FileText(w) && Enabled(w, step) && step.Act? && w.starters[step.i].pc == Writing && w.creator == Some(step.i)
    ensures FileText(Apply(parse, w, step)) && Lasting(parse, w, Apply(parse, w, step))
    ensures Apply(parse, w, step).starters[step.i].own == w.starters[step.i].own
  {
    var s := w.starters[step.i];
    PrefixGrows(Render(s.own), s.written, step.n);
    assert Apply(parse, w, step).file.value == Render(s.own)[..Apply(parse, w, step).starters[step.i].written];
  }

  lemma {:induction false} WriteKeepsFile(parse: string -> Option<Keys>, w: World, step: Step)
    requires FileInv(w) && Enabled(w, step) && step.Act? && w.starters[step.i].pc == Writing && w.creator == Some(step.i)
    ensures FileInv(Apply(parse, w, step)) && Lasting(parse, w, Apply(parse, w, step))
  {
    WriteGrowsFile(parse, w, step);
    assert Apply(parse, w, step).creator == w.creator;
  }

  lemma {:induction false} CreateKeepsFile(parse: string -> Option<Keys>, w: World, step: Step)
    requires FileInv(w) && Enabled(w, step) && step.Act? && w.starters[step.i].pc == Creating
    requires Drawn(w.starters[step.i].own)
    ensures FileInv(Apply(parse, w, step)) && Lasting(parse, w, Apply(parse, w, step))
  {
  }

  /** A step that leaves the file alone, and its creator's text while that is written. */
  lemma {:induction false} OtherStepKeepsFile(parse: string -> Option<Keys>, w: World, w': World, i: nat)
    requires FileInv(w) && i < |w.starters| && w'.file == w.file && w'.creator == w.creator
    requires |w'.starters| == |w.starters| && w'.starters == w.starters[i := w'.starters[i]]
    requires w'.starters[i].env == w.starters[i].env
    requires w.creator == Some(i) ==>
               && w'.starters[i].own == w.starters[i].own && w'.starters[i].written == w.starters[i].written
               && !(w'.starters[i].pc in {Reading, MakingDir, Drawing, Creating})
    ensures FileInv(w') && Lasting(parse, w, w')
  {
  }

  lemma {:induction false} ActKeepsFile(parse: string -> Option<Keys>, w: World, step: Step)
    requires Inv(parse, w) && Enabled(w, step)
    ensures FileInv(Apply(parse, w, step)) && Lasting(parse, w, Apply(parse, w, step))
  {
    assert StarterInv(parse, w, step.i);
    if step.Act? && w.starters[step.i].pc == Writing {
      WriteKeepsFile(parse, w, step);
    } else if step.Act? && w.starters[step.i].pc == Creating {
      CreateKeepsFile(parse, w, step);
    } else {
      OtherStepKeepsFile(parse, w, Apply(parse, w, step), step.i);
    }
  }

  /** What a reader concludes from the file, before anything is said about who wrote it. */
  lemma {:induction false} ReaderConcludes(parse: string -> Option<Keys>, w: World, step: Step)
    requires Enabled(w, step) && step.Act? && w.starters[step.i].pc == Reading
    ensures var w' := Apply(parse, w, step);
            && w'.file == w.file && w'.creator == w.creator
            && match w'.starters[step.i].pc
               case Securing(k) => w.file.Some? && parse(w.file.value) == Some(k)
               case Checking(_) => Overridden(w'.starters[step.i].env)
               case MakingDir => true
               case Failed => true
               case _ => false
  {
  }

  lemma {:induction false} ReaderKeeps(parse: string -> Option<Keys>, w: World, step: Step)
    requires ReadsJson(parse) && Inv(parse, w) && Enabled(w, step) && step.Act? && w.starters[step.i].pc == Reading
    ensures StarterInv(parse, Apply(parse, w, step), step.i)
  {
    ReaderConcludes(parse, w, step);
    ActKeepsFile(parse, w, step);
    if w.file.Some? && parse(w.file.value).Some? { ReadIsSettled(parse, w); }
  }

  lemma {:induction false} DrawerKeeps(parse: string -> Option<Keys>, w: World, step: Step)
    requires Inv(parse, w) && Enabled(w, step) && step.Act? && w.starters[step.i].pc == Drawing
    ensures StarterInv(parse, Apply(parse, w, step), step.i)
  {
    DrawnIsSecret(step.jwt);
    DrawnIsSecret(step.key);
  }

  lemma {:induction false} WriterKeeps(parse: string -> Option<Keys>, w: World, step: Step)
    requires Inv(parse, w) && Enabled(w, step)
    requires step.Act? ==> !(w.starters[step.i].pc in {Reading, Drawing})
    ensures StarterInv(parse, Apply(parse, w, step), step.i)
  {
    ActKeepsFile(parse, w, step);
    assert StarterInv(parse, w, step.i);
  }

  lemma {:induction false} ActorKeeps(parse: string -> Option<Keys>, w: World, step: Step)
    requires ReadsJson(parse) && Inv(parse, w) && Enabled(w, step)
    ensures StarterInv(parse, Apply(parse, w, step), step.i)
  {
    if step.Act? && w.starters[step.i].pc == Reading {
      ReaderKeeps(parse, w, step);
    } else if step.Act? && w.starters[step.i].pc == Drawing {
      DrawerKeeps(parse, w, step);
    } else {
      WriterKeeps(parse, w, step);
    }
  }

  /** A step of another process leaves what is true of this one. */
  lemma {:induction false} OtherStarterKeeps(parse: string -> Option<Keys>, w: World, w': World, j: nat)
    requires FileInv(w) && FileInv(w') && Lasting(parse, w, w') && j < |w.starters|
    requires StarterInv(parse, w, j) && w'.starters[j] == w.starters[j]
    ensures StarterInv(parse, w', j)
  {
  }

  lemma {:induction false} StepKeeps(parse: string -> Option<Keys>, w: World, step: Step)
    requires ReadsJson(parse) && Inv(parse, w) && Enabled(w, step)
    ensures Inv(parse, Apply(parse, w, step)) && Lasting(parse, w, Apply(parse, w, step))
  {
    ActKeepsFile(parse, w, step);
    ActorKeeps(parse, w, step);
    var w' := Apply(parse, w, step);
    forall j | 0 <= j < |w.starters| && j != step.i ensures StarterInv(parse, w', j) {
      OtherStarterKeeps(parse, w, w', j);
    }
  }

  lemma {:induction false} RunKeeps(parse: string -> Option<Keys>, w: World, steps: seq<Step>)
    requires ReadsJson(parse) && Inv(parse, w) && RunAll(parse, w, steps).Some?
    ensures Inv(parse, RunAll(parse, w, steps).value) && Lasting(parse, w, RunAll(parse, w, steps).value)
    decreases |steps|
  {
    if steps != [] {
      StepKeeps(parse, w, steps[0]);
      RunKeeps(parse, Apply(parse, w, steps[0]), steps[1..]);
    }
  }

  /**
   Whatever starts, interleaves and crashes: from any moment of a run to any later one a file that
   exists is never replaced, only the rest of it written; and any two starts that succeed, at any
   moments, use the same JWT secret unless one overrides it, and the same encryption key unless
   one overrides that.
   */
  lemma {:induction false} KeysPersist(parse: string -> Option<Keys>, w0: World, before: seq<Step>, after: seq<Step>, i: nat, j: nat)
    requires ReadsJson(parse) && Start(w0) && i < |w0.starters| && j < |w0.starters|
    requires RunAll(parse, w0, before).Some? && RunAll(parse, RunAll(parse, w0, before).value, after).Some?
    ensures var mid := RunAll(parse, w0, before).value;
            var w := RunAll(parse, mid, after).value;
            && Lasting(parse, w0, mid) && Lasting(parse, mid, w)
            && var s, t := mid.starters[i], w.starters[j];
               s.pc.Loaded? && t.pc.Loaded? ==>
                 && (s.env.jwt == "" && t.env.jwt == "" ==> s.pc.cfg.jwt == t.pc.cfg.jwt)
                 && (s.env.key == "" && t.env.key == "" ==> s.pc.cfg.key == t.pc.cfg.key)
  {
    RunKeeps(parse, w0, before);
    var mid := RunAll(parse, w0, before).value;
    RunKeeps(parse, mid, after);
    assert StarterInv(parse, mid, i) && StarterInv(parse, RunAll(parse, mid, after).value, j);
  }

  /** Drawn secrets pass Load's validation unchanged, unless the draw hit the old default key. */
  lemma {:induction false} DrawnKeysAreUsed(k: Keys)
    requires Drawn(k)
    ensures Config(Env("", ""), k) == if k.key == LEGACY_KEY then None else Some(k)
  {
    HexRoundTrip(DecodeHex(k.jwt).value);
    assert DEFAULT_JWT[0] == 'o';
    EncodedIsHex(DecodeHex(k.jwt).value);
    assert k.jwt[0] in k.jwt;
  }

  /** A first start that created the file runs with exactly the keys every later start reads. */
  lemma {:induction false} CreatorsKeysAreUsed(parse: string -> Option<Keys>, w0: World, steps: seq<Step>, i: nat)
    requires ReadsJson(parse) && Start(w0) && RunAll(parse, w0, steps).Some? && i < |w0.starters|
    ensures var w := RunAll(parse, w0, steps).value;
            && |w.starters| == |w0.starters|
            && (w.creator.Some? ==> w.creator.value < |w.starters|)
            && (w.creator.Some? && w.starters[i].pc.Loaded? && w.starters[i].env == Env("", "") ==>
                  w.starters[i].pc.cfg == w.starters[w.creator.value].own)
  {
    RunKeeps(parse, w0, steps);
    var w := RunAll(parse, w0, steps).value;
    assert StarterInv(parse, w, i);
    if w.creator.Some? { DrawnKeysAreUsed(w.starters[w.creator.value].own); }
  }

  // ----- what a start ends with -----

  /** Load accepts exactly long enough new secrets and 32-byte keys, and environment values win. */
  lemma {:induction false} ConfigMeans(e: Env, stored: Keys)
    ensures var jwt, key := if e.jwt != "" then e.jwt else stored.jwt, if e.key != "" then e.key else stored.key;
            && (Config(e, stored).Some? <==>
                  && |jwt| >= 32 && jwt != "opsup-default-jwt-secret-change-me-in-prod"
                  && DecodeHex(key).Some? && |DecodeHex(key).value| == 32 && EncodeHex(DecodeHex(key).value) != LEGACY_KEY)
            && (Config(e, stored).Some? ==>
                  && Config(e, stored).value == Keys(jwt, EncodeHex(DecodeHex(key).value))
                  && DecodeHex(Config(e, stored).value.key) == DecodeHex(key))
  {
    var key := if e.key != "" then e.key else stored.key;
    if DecodeHex(key).Some? { HexRoundTrip(DecodeHex(key).value); }
  }

  /** A start with both overrides never looks at the file. */
  predicate OverriddenInv(s: Starter) {
    Overridden(s.env) ==>
      match s.pc
      case Reading => true
      case Checking(k) => k == Keys("", "")
      case Loaded(cfg) => Config(s.env, Keys("", "")) == Some(cfg)
      case Failed => true
      case _ => false
  }

  lemma {:induction false} ActKeepsOverridden(parse: string -> Option<Keys>, w: World, step: Step, j: nat)
    requires j < |w.starters| && OverriddenInv(w.starters[j]) && Enabled(w, step)
    ensures |Apply(parse, w, step).starters| == |w.starters| && OverriddenInv(Apply(parse, w, step).starters[j])
    ensures Apply(parse, w, step).starters[j].env == w.starters[j].env
  {
  }

  lemma {:induction false} RunKeepsOverridden(parse: string -> Option<Keys>, w: World, steps: seq<Step>, j: nat)
    requires j < |w.starters| && OverriddenInv(w.starters[j]) && RunAll(parse, w, steps).Some?
    ensures |RunAll(parse, w, steps).value.starters| == |w.starters| && OverriddenInv(RunAll(parse, w, steps).value.starters[j])
    decreases |steps|
  {
    if steps != [] {
      ActKeepsOverridden(parse, w, steps[0], j);
      RunKeepsOverridden(parse, Apply(parse, w, steps[0]), steps[1..], j);
    }
  }

  /** Whatever happens, a start that succeeds runs with its environment's values where these are set. */
  lemma {:induction false} EnvironmentWins(parse: string -> Option<Keys>, w0: World, steps: seq<Step>, i: nat)
    requires ReadsJson(parse) && Start(w0) && RunAll(parse, w0, steps).Some? && i < |w0.starters|
    ensures var w := RunAll(parse, w0, steps).value;
            && i < |w.starters|
            && var s := w.starters[i];
               s.pc.Loaded? ==>
                 && (s.env.jwt != "" ==> s.pc.cfg.jwt == s.env.jwt)
                 && (s.env.key != "" ==> DecodeHex(s.pc.cfg.key) == DecodeHex(s.env.key))
                 && |s.pc.cfg.jwt| >= 32 && DecodeHex(s.pc.cfg.key).Some? && |DecodeHex(s.pc.cfg.key).value| == 32
                 && (!Overridden(s.env) ==>
                       && Settled(parse, w).Some?
                       && (s.env.jwt == "" ==> s.pc.cfg.jwt == Settled(parse, w).value.jwt)
                       && (s.env.key == "" ==> DecodeHex(s.pc.cfg.key) == DecodeHex(Settled(parse, w).value.key)))
  {
    assert w0.starters[i] in w0.starters;
    RunKeeps(parse, w0, steps);
    RunKeepsOverridden(parse, w0, steps, i);
    var w := RunAll(parse, w0, steps).value;
    assert StarterInv(parse, w, i);
    ConfigMeans(w.starters[i].env, if Settled(parse, w).Some? then Settled(parse, w).value else Keys("", ""));
    ConfigMeans(w.starters[i].env, Keys("", ""));
  }

  /** A start fails only by a crash, a failed call, an unreadable file or unusable values. */
  lemma {:induction false} FailureHasACause(parse: string -> Option<Keys>, w: World, step: Step)
    requires Enabled(w, step) && w.starters[step.i].pc != Failed
    ensures var s := w.starters[step.i];
            Apply(parse, w, step).starters[step.i].pc == Failed <==>
              || step.Crash?
              || (s.pc.Checking? && Config(s.env, s.pc.stored) == None)
              || (!s.pc.Checking? && !(s.pc == Reading && Overridden(s.env)) && !step.ok)
              || (s.pc == Reading && !Overridden(s.env) && w.file.Some? && parse(w.file.value) == None)
  {
  }

  /** The keys a start is going to use if nothing fails and nobody interferes, given what it draws. */
  function Aim(parse: string -> Option<Keys>, w: World, s: Starter, drawn: Keys): Option<Keys> {
    match s.pc
    case Reading => if Overridden(s.env) then Some(Keys("", "")) else if w.file == None then Some(drawn) else parse(w.file.value)
    case Securing(k) => Some(k)
    case MakingDir => Some(drawn)
    case Drawing => Some(drawn)
    case Checking(k) => Some(k)
    case Loaded(_) => None
    case Failed => None
    case _ => Some(s.own)
  }

  /** What the file is going to hold then. */
  function FinalFile(w: World, s: Starter, drawn: Keys): Option<string> {
    match s.pc
    case Reading => if Overridden(s.env) || w.file.Some? then w.file else Some(Render(drawn))
    case MakingDir => Some(Render(drawn))
    case Drawing => Some(Render(drawn))
    case Creating => Some(Render(s.own))
    case Writing =>
      if w.file.Some? && s.written <= |Render(s.own)| then Some(w.file.value + Render(s.own)[s.written..]) else w.file
    case _ => w.file
  }

  predicate Promising(parse: string -> Option<Keys>, w: World, i: nat, jwt: bytes, key: bytes) {
    && i < |w.starters| && |jwt| == |key| == 32
    && var s := w.starters[i];
       && Aim(parse, w, s, Keys(EncodeHex(jwt), EncodeHex(key))).Some?
       && Config(s.env, Aim(parse, w, s, Keys(EncodeHex(jwt), EncodeHex(key))).value).Some?
       && (s.pc in {MakingDir, Drawing, Creating} ==> w.file == None)
       && (s.pc == Writing ==> w.file.Some? && s.written <= |Render(s.own)|)
  }

  function CallsLeft(s: Starter): nat {
    match s.pc
    case Reading => 9
    case MakingDir => 8
    case Drawing => 7
    case Creating => 6
    case Writing => if s.written < |Render(s.own)| then 5 else 4
    case Syncing => 3
    case Securing(_) => 2
    case Checking(_) => 1
    case _ => 0
  }

  /** The next call of a start, successful; the file is written in one piece. */
  function GoodStep(w: World, i: nat, jwt: bytes, key: bytes): Step
    requires i < |w.starters|
  {
    var s := w.starters[i];
    Act(i, true, if s.pc == Writing && s.written <= |Render(s.own)| then |Render(s.own)| - s.written else 0, jwt, key)
  }

  lemma {:induction false} GoodStepIsPossible(parse: string -> Option<Keys>, w: World, i: nat, jwt: bytes, key: bytes)
    requires Promising(parse, w, i, jwt, key)
    ensures Enabled(w, GoodStep(w, i, jwt, key))
  {
  }

  /** One good step further: the same keys, the same file in the end, and less to do. */
  predicate GoesOn(parse: string -> Option<Keys>, w: World, w': World, i: nat, drawn: Keys)
    requires i < |w.starters|
  {
    && |w'.starters| == |w.starters| && w'.starters[i].env == w.starters[i].env
    && Aim(parse, w', w'.starters[i], drawn) == Aim(parse, w, w.starters[i], drawn)
    && FinalFile(w', w'.starters[i], drawn) == FinalFile(w, w.starters[i], drawn)
    && CallsLeft(w'.starters[i]) < CallsLeft(w.starters[i])
    && (w'.starters[i].pc in {MakingDir, Drawing, Creating} ==> w'.file == None)
    && (w'.starters[i].pc == Writing ==> w'.file.Some? && w'.starters[i].written <= |Render(w'.starters[i].own)|)
  }

  lemma {:induction false} ReadingGoesOn(parse: string -> Option<Keys>, w: World, i: nat, jwt: bytes, key: bytes)
    requires i < |w.starters| && w.starters[i].pc == Reading && Enabled(w, GoodStep(w, i, jwt, key))
    requires Aim(parse, w, w.starters[i], Keys(EncodeHex(jwt), EncodeHex(key))).Some?
    ensures GoesOn(parse, w, Apply(parse, w, GoodStep(w, i, jwt, key)), i, Keys(EncodeHex(jwt), EncodeHex(key)))
  {
  }

  lemma {:induction false} CreatingGoesOn(parse: string -> Option<Keys>, w: World, i: nat, jwt: bytes, key: bytes)
    requires Promising(parse, w, i, jwt, key) && w.starters[i].pc in {MakingDir, Drawing} && Enabled(w, GoodStep(w, i, jwt, key))
    ensures GoesOn(parse, w, Apply(parse, w, GoodStep(w, i, jwt, key)), i, Keys(EncodeHex(jwt), EncodeHex(key)))
  {
  }

  lemma {:induction false} CreatedGoesOn(parse: string -> Option<Keys>, w: World, i: nat, jwt: bytes, key: bytes)
    requires Promising(parse, w, i, jwt, key) && w.starters[i].pc == Creating && Enabled(w, GoodStep(w, i, jwt, key))
    ensures GoesOn(parse, w, Apply(parse, w, GoodStep(w, i, jwt, key)), i, Keys(EncodeHex(jwt), EncodeHex(key)))
  {
    var text := Render(w.starters[i].own);
    assert "" + text[0..] == text;
  }

  lemma {:induction false} TextEnds(file: string, text: string, written: nat)
    requires written <= |text|
    ensures written == |text| ==> file + text[written..] == file
    ensures text[written..written + (|text| - written)] == text[written..]
    ensures (file + text[written..]) + text[|text|..] == file + text[written..]
  {
  }

  lemma {:induction false} WritingGoesOn(parse: string -> Option<Keys>, w: World, i: nat, jwt: bytes, key: bytes)
    requires Promising(parse, w, i, jwt, key) && w.starters[i].pc == Writing && Enabled(w, GoodStep(w, i, jwt, key))
    ensures GoesOn(parse, w, Apply(parse, w, GoodStep(w, i, jwt, key)), i, Keys(EncodeHex(jwt), EncodeHex(key)))
  {
    TextEnds(w.file.value, Render(w.starters[i].own), w.starters[i].written);
  }

  lemma {:induction false} SecuredGoesOn(parse: string -> Option<Keys>, w: World, i: nat, jwt: bytes, key: bytes)
    requires Promising(parse, w, i, jwt, key) && Enabled(w, GoodStep(w, i, jwt, key))
    requires w.starters[i].pc == Syncing || w.starters[i].pc.Securing?
    ensures GoesOn(parse, w, Apply(parse, w, GoodStep(w, i, jwt, key)), i, Keys(EncodeHex(jwt), EncodeHex(key)))
  {
  }

  lemma {:induction false} GoodStepGoesOn(parse: string -> Option<Keys>, w: World, i: nat, jwt: bytes, key: bytes)
    requires Promising(parse, w, i, jwt, key) && Enabled(w, GoodStep(w, i, jwt, key)) && !w.starters[i].pc.Checking?
    ensures GoesOn(parse, w, Apply(parse, w, GoodStep(w, i, jwt, key)), i, Keys(EncodeHex(jwt), EncodeHex(key)))
  {
    match w.starters[i].pc
    case Reading => ReadingGoesOn(parse, w, i, jwt, key);
    case MakingDir => CreatingGoesOn(parse, w, i, jwt, key);
    case Drawing => CreatingGoesOn(parse, w, i, jwt, key);
    case Creating => CreatedGoesOn(parse, w, i, jwt, key);
    case Writing => WritingGoesOn(parse, w, i, jwt, key);
    case _ => SecuredGoesOn(parse, w, i, jwt, key);
  }

  predicate OnlyGoodSteps(steps: seq<Step>, i: nat) {
    forall step | step in steps :: step.Act? && step.i == i && step.ok
  }

  lemma {:induction false} CheckingEnds(parse: string -> Option<Keys>, w: World, i: nat, jwt: bytes, key: bytes)
    requires Promising(parse, w, i, jwt, key) && w.starters[i].pc.Checking?
    ensures var step := GoodStep(w, i, jwt, key);
            && Enabled(w, step) && Apply(parse, w, step).file == w.file
            && |Apply(parse, w, step).starters| == |w.starters|
            && Apply(parse, w, step).starters[i].pc == Loaded(Config(w.starters[i].env, w.starters[i].pc.stored).value)
  {
  }

  lemma {:induction false} Finish(parse: string -> Option<Keys>, w: World, i: nat, jwt: bytes, key: bytes) returns (steps: seq<Step>)
    requires Promising(parse, w, i, jwt, key)
    ensures OnlyGoodSteps(steps, i) && RunAll(parse, w, steps).Some?
    ensures var w', s, drawn := RunAll(parse, w, steps).value, w.starters[i], Keys(EncodeHex(jwt), EncodeHex(key));
            && |w'.starters| == |w.starters|
            && w'.starters[i].pc == Loaded(Config(s.env, Aim(parse, w, s, drawn).value).value)
            && w'.file == FinalFile(w, s, drawn)
    decreases CallsLeft(w.starters[i])
  {
    var step := GoodStep(w, i, jwt, key);
    GoodStepIsPossible(parse, w, i, jwt, key);
    var w1 := Apply(parse, w, step);
    var rest: seq<Step> := [];
    if w.starters[i].pc.Checking? {
      CheckingEnds(parse, w, i, jwt, key);
    } else {
      GoodStepGoesOn(parse, w, i, jwt, key);
      rest := Finish(parse, w1, i, jwt, key);
    }
    steps := [step] + rest;
    assert steps[0] == step && steps[1..] == rest;
    assert RunAll(parse, w, steps) == RunAll(parse, w1, rest);
  }

  /**
   Starting works: whatever has happened before, a process that nothing fails or disturbs gets to
   run, with the values of its environment and else with the keys in the file, or, where there
   is no file, with the keys it draws, and these are then in the file.
   */
  lemma {:induction false} LoadCanSucceed(parse: string -> Option<Keys>, w: World, i: nat, jwt: bytes, key: bytes)
    returns (steps: seq<Step>)
    requires i < |w.starters| && w.starters[i].pc == Reading && |jwt| == |key| == 32
    requires var env, drawn := w.starters[i].env, Keys(EncodeHex(jwt), EncodeHex(key));
             if Overridden(env) then Config(env, Keys("", "")).Some?
             else if w.file == None then Config(env, drawn).Some?
             else parse(w.file.value).Some? && Config(env, parse(w.file.value).value).Some?
    ensures OnlyGoodSteps(steps, i) && RunAll(parse, w, steps).Some?
    ensures var w', env, drawn := RunAll(parse, w, steps).value, w.starters[i].env, Keys(EncodeHex(jwt), EncodeHex(key));
            && |w'.starters| == |w.starters|
            && w'.starters[i].pc == Loaded(Config(env, if Overridden(env) then Keys("", "")
                                                       else if w.file == None then drawn else parse(w.file.value).value).value)
            && w'.file == if Overridden(env) || w.file.Some? then w.file else Some(Render(drawn))
  {
    steps := Finish(parse, w, i, jwt, key);
  }
}
