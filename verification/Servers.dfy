/**
 The managed server records: requests are checked and normalised, then read the table, resolve
 credentials and write, with other requests free to read and write between any two of these.
 */
module Servers {
  import opened Common
  import opened Crypto

  const SSH := "ssh"
  const RDP := "rdp"
  const PASSWORD := "password"
  const KEY := "key"

  datatype Row = Row(
    id: int, protocol: string, rdpDomain: string, rdpCert: string,
    name: string, host: string, port: int, username: string, authType: string, hostKey: string,
    privateKey: string, password: string, description: string, group: string, jump: Option<int>)

  /** A create or update request; its credentials are plain text. */
  datatype Request = Request(
    protocol: string, rdpDomain: string, rdpCert: string,
    name: string, host: string, port: int, username: string, authType: string, hostKey: string,
    privateKey: bytes, password: bytes, copyKeyFrom: int, jump: Option<int>, group: string, description: string)

  /** Trimming and fingerprint syntax. */
  datatype Texts = Texts(trim: string -> string, plainHex: string -> string,
                         isCert: string -> bool, isHostKey: string -> bool)

  /** The request in the form validate leaves it in, or None for a 400 answer. */
  function Validate(t: Texts, q: Request): Option<Request> {
    var protocol := if q.protocol == "" then SSH else q.protocol;
    var port := if q.port != 0 then q.port else if protocol == RDP then 3389 else 22;
    var r := q.(protocol := protocol, port := port);
    if protocol != SSH && protocol != RDP then None
    else if port < 1 || port > 65535 then None
    else if protocol == RDP then
      if q.password != [] || q.privateKey != [] || q.copyKeyFrom != 0 || q.hostKey != "" || q.jump.Some? then None
      else
        var cert := t.plainHex(q.rdpCert);
        if cert != "" && !t.isCert(cert) then None else Some(r.(authType := PASSWORD, rdpCert := cert))
    else
      var authType := if q.authType == "" then KEY else q.authType;
      var hostKey := t.trim(q.hostKey);
      if authType != KEY && authType != PASSWORD then None
      else if hostKey != "" && !t.isHostKey(hostKey) then None
      else if q.jump.Some? && q.jump.value <= 0 then None
      else Some(r.(rdpDomain := "", rdpCert := "", authType := authType, hostKey := hostKey))
  }

  /** The same, assignment by assignment, as the handler normalises its request in place. */
  method ValidateInPlace(t: Texts, q: Request) returns (ok: bool, r: Request)
    ensures ok <==> Validate(t, q).Some?
    ensures ok ==> Validate(t, q) == Some(r)
  {
    ok, r := false, q;
    if r.protocol == "" { r := r.(protocol := SSH); }
    if r.protocol != SSH && r.protocol != RDP { return; }
    if r.protocol == RDP && r.port == 0 { r := r.(port := 3389); }
    if r.port == 0 { r := r.(port := 22); }
    if r.port < 1 || r.port > 65535 { return; }
    if r.protocol == RDP {
      if r.password != [] || r.privateKey != [] || r.copyKeyFrom != 0 || r.hostKey != "" || r.jump.Some? { return; }
      r := r.(authType := PASSWORD);
      r := r.(rdpCert := t.plainHex(r.rdpCert));
      if r.rdpCert != "" && !t.isCert(r.rdpCert) { return; }
      ok := true;
      return;
    }
    r := r.(rdpDomain := "", rdpCert := "");
    if r.authType == "" { r := r.(authType := KEY); }
    if r.authType != KEY && r.authType != PASSWORD { return; }
    r := r.(hostKey := t.trim(r.hostKey));
    if r.hostKey != "" && !t.isHostKey(r.hostKey) { return; }
    if r.jump.Some? && r.jump.value <= 0 { return; }
    ok := true;
  }

  /** Which requests are answered with 400, in terms of what was sent. */
  predicate Accepts(t: Texts, q: Request) {
    && q.protocol in {"", "ssh", "rdp"} && 0 <= q.port <= 65535
    && if q.protocol == "rdp" then
         && q.password == [] && q.privateKey == [] && q.copyKeyFrom == 0 && q.hostKey == "" && q.jump == None
         && (t.plainHex(q.rdpCert) == "" || t.isCert(t.plainHex(q.rdpCert)))
       else
         && q.authType in {"", "key", "password"}
         && (t.trim(q.hostKey) == "" || t.isHostKey(t.trim(q.hostKey)))
         && (q.jump.Some? ==> q.jump.value > 0)
  }

  /** How the normal form of a request relates to what was sent, field by field. */
  predicate Normalises(t: Texts, q: Request, r: Request) {
    && r.name == q.name && r.host == q.host && r.username == q.username
    && r.description == q.description && r.group == q.group && r.jump == q.jump
    && r.privateKey == q.privateKey && r.password == q.password && r.copyKeyFrom == q.copyKeyFrom
    && r.protocol == (if q.protocol == "" then "ssh" else q.protocol)
    && r.port == (if q.port != 0 then q.port else if q.protocol == "rdp" then 3389 else 22)
    && if q.protocol == "rdp" then
         r.authType == "password" && r.rdpDomain == q.rdpDomain && r.rdpCert == t.plainHex(q.rdpCert) && r.hostKey == ""
       else
         && r.authType == (if q.authType == "" then "key" else q.authType)
         && r.rdpDomain == "" && r.rdpCert == "" && r.hostKey == t.trim(q.hostKey)
  }

  /** Validation accepts exactly these requests and changes nothing but defaults and spelling. */
  lemma {:induction false} ValidateMeans(t: Texts, q: Request)
    ensures Validate(t, q).Some? <==> Accepts(t, q)
    ensures Validate(t, q).Some? ==> Normalises(t, q, Validate(t, q).value)
  {
  }

  type Rows = map<int, Row>

  function Lookup(rows: Rows, id: int): Option<Row> { if id in rows then Some(rows[id]) else None }

  /** The private key and password to store, or None for a refusal. */
  function Resolve(a: Aead, key: string, nonce: bytes, q: Request, current: Option<Row>, rows: Rows)
    : Option<(string, string)>
    requires |nonce| == NONCE_SIZE
  {
    var oldKey := if current.Some? then current.value.privateKey else "";
    var oldPassword := if current.Some? then current.value.password else "";
    if q.protocol == RDP then Some(("", ""))
    else if q.authType == PASSWORD then
      if q.password != [] then
        (match Encrypt(a, q.password, key, nonce)
         case Some(c) => Some((oldKey, c))
         case None => None)
      else if oldPassword == "" then None
      else Some((oldKey, oldPassword))
    else if q.privateKey != [] then
      (match Encrypt(a, q.privateKey, key, nonce)
       case Some(c) => Some((c, oldPassword))
       case None => None)
    else if q.copyKeyFrom > 0 then
      (match Lookup(rows, q.copyKeyFrom)
       case Some(source) => if source.privateKey == "" then None else Some((source.privateKey, oldPassword))
       case None => None)
    else if oldKey == "" then None
    else Some((oldKey, oldPassword))
  }

  /** Where a stored credential comes from: submitted just now, or carried over untouched. */
  predicate FromSubmission(a: Aead, key: string, value: string, submitted: bytes, kept: string) {
    if submitted != [] then Decrypt(a, value, key) == Some(submitted) else value == kept
  }

  /**
   What a request does to stored credentials. The kind it authenticates with is replaced by what
   it submits, a copied key by its source's; whatever it does not submit is kept; and a request
   that would leave its own kind empty is refused.
   */
  lemma {:induction false} ResolveMeans(a: Aead, key: string, nonce: bytes, q: Request, current: Option<Row>, rows: Rows)
    requires Sound(a) && |nonce| == NONCE_SIZE && q.protocol != RDP
    ensures var oldKey := if current.Some? then current.value.privateKey else "";
            var oldPassword := if current.Some? then current.value.password else "";
            var copied := if q.copyKeyFrom <= 0 then oldKey
                          else if q.copyKeyFrom in rows then rows[q.copyKeyFrom].privateKey else "";
            var r := Resolve(a, key, nonce, q, current, rows);
            && (r.Some? && q.authType == PASSWORD ==>
                  r.value.0 == oldKey && FromSubmission(a, key, r.value.1, q.password, oldPassword))
            && (r.Some? && q.authType != PASSWORD ==>
                  r.value.1 == oldPassword && FromSubmission(a, key, r.value.0, q.privateKey, copied))
            && (r.Some? <==>
                  if q.authType == PASSWORD then if q.password != [] then KeyOf(key).Some? else oldPassword != ""
                  else if q.privateKey != [] then KeyOf(key).Some? else copied != "")
  {
    if KeyOf(key).Some? {
      DecryptEncrypt(a, q.password, key, nonce);
      DecryptEncrypt(a, q.privateKey, key, nonce);
    }
  }

  // ----- requests in flight -----

  datatype Pc =
    | ReadCurrent | ReadJump | ResolveCreds
    | Write(privateKey: string, password: string)
    | Answered(ok: bool)

  datatype Handler = Handler(update: bool, id: int, q: Request, current: Option<Row>, pc: Pc)

  datatype World = World(
    rows: Rows, nextId: int, handlers: seq<Handler>,
    submitted: set<bytes>,        // every credential of an accepted request
    requests: set<Request>)       // every accepted request, as it arrived

  datatype Step =
    | Arrives(update: bool, id: int, q: Request)
    | Acts(i: nat, ok: bool, nonce: bytes)    // ok: the database call works
    | Deletes(id: int)

  function NewRow(h: Handler, id: int, privateKey: string, password: string): Row {
    var q := h.q;
    Row(id, q.protocol, q.rdpDomain, q.rdpCert, q.name, q.host, q.port, q.username, q.authType, q.hostKey,
        privateKey, password, q.description, q.group, q.jump)
  }

  predicate Enabled(w: World, step: Step) {
    match step
    case Arrives(_, _, _) => true
    case Acts(i, _, nonce) => i < |w.handlers| && !w.handlers[i].pc.Answered? && |nonce| == NONCE_SIZE
    case Deletes(id) => id > 0
  }

  /** One step of saveServer. */
  function ActOn(a: Aead, key: string, w: World, step: Step): (Handler, World)
    requires step.Acts? && Enabled(w, step)
  {
    var h := w.handlers[step.i];
    var refused := (h.(pc := Answered(false)), w);
    match h.pc
    case ReadCurrent =>
      if !h.update then (h.(pc := ReadJump), w)
      else if !step.ok || h.id !in w.rows then refused
      else (h.(pc := ReadJump, current := Some(w.rows[h.id])), w)
    case ReadJump =>
      (match h.q.jump
       case None => (h.(pc := ResolveCreds), w)
       case Some(j) =>
         if j == h.id || !step.ok || j !in w.rows || w.rows[j].protocol == RDP then refused
         else (h.(pc := ResolveCreds), w))
    case ResolveCreds =>
      if !step.ok then refused
      else
        (match Resolve(a, key, step.nonce, h.q, h.current, w.rows)
         case None => refused
         case Some((pk, pw)) => (h.(pc := Write(pk, pw)), w))
    case Write(pk, pw) =>
      if !step.ok then refused
      else if h.update then
        (h.(pc := Answered(true)),
         if h.id in w.rows then w.(rows := w.rows[h.id := NewRow(h, h.id, pk, pw)]) else w)
      else
        (h.(pc := Answered(true)),
         w.(rows := w.rows[w.nextId := NewRow(h, w.nextId, pk, pw)], nextId := w.nextId + 1))
    case Answered(_) => (h, w)
  }

  function Apply(a: Aead, key: string, t: Texts, w: World, step: Step): World
    requires Enabled(w, step)
  {
    match step
    case Arrives(update, id, q) =>
      (match Validate(t, q)
       case None => w
       case Some(r) =>
         if update && id <= 0 then w
         else
           w.(handlers := w.handlers + [Handler(update, if update then id else 0, r, None, ReadCurrent)],
              submitted := w.submitted + {r.privateKey, r.password}, requests := w.requests + {q}))
    case Acts(i, _, _) =>
      var (h, w') := ActOn(a, key, w, step);
      w'.(handlers := w'.handlers[i := h])
    case Deletes(id) => w.(rows := w.rows - {id})
  }

  function RunAll(a: Aead, key: string, t: Texts, w: World, steps: seq<Step>): Option<World>
    decreases |steps|
  {
    if steps == [] then Some(w)
    else if Enabled(w, steps[0]) then RunAll(a, key, t, Apply(a, key, t, w, steps[0]), steps[1..])
    else None
  }

  /** An empty table; SQLite's AUTOINCREMENT starts at 1 and never reuses an id. */
  const EMPTY := World(map[], 1, [], {}, {})

  // ----- the invariant -----

  /** A stored credential is absent or decrypts to something somebody submitted. */
  ghost predicate Stored(a: Aead, key: string, submitted: set<bytes>, value: string) {
    value == "" || exists p :: p in submitted && p != [] && Decrypt(a, value, key) == Some(p)
  }

  ghost predicate RowOk(a: Aead, key: string, t: Texts, submitted: set<bytes>, row: Row) {
    && 1 <= row.port <= 65535
    && Stored(a, key, submitted, row.privateKey) && Stored(a, key, submitted, row.password)
    && (row.jump.Some? ==> 0 < row.jump.value && row.jump.value != row.id)
    && (if row.protocol == RDP then
          && row.privateKey == "" && row.password == "" && row.hostKey == "" && row.jump == None
          && (row.rdpCert != "" ==> t.isCert(row.rdpCert))
        else
          && row.protocol == SSH && row.rdpCert == "" && row.rdpDomain == ""
          && (row.hostKey != "" ==> t.isHostKey(row.hostKey))
          && (row.authType == PASSWORD || row.authType == KEY)
          && (row.authType == PASSWORD ==> row.password != "")
          && (row.authType == KEY ==> row.privateKey != ""))
  }

  ghost predicate TableOk(a: Aead, key: string, t: Texts, w: World) {
    forall id | id in w.rows ::
      0 < id < w.nextId && w.rows[id].id == id && RowOk(a, key, t, w.submitted, w.rows[id])
  }

  /** What validation established. */
  predicate Normal(t: Texts, q: Request) {
    && 1 <= q.port <= 65535
    && (q.jump.Some? ==> q.jump.value > 0)
    && (if q.protocol == RDP then
          && q.hostKey == "" && q.jump == None && q.privateKey == [] && q.password == []
          && (q.rdpCert != "" ==> t.isCert(q.rdpCert))
        else
          && q.protocol == SSH && q.rdpCert == "" && q.rdpDomain == ""
          && (q.hostKey != "" ==> t.isHostKey(q.hostKey))
          && (q.authType == PASSWORD || q.authType == KEY))
  }

  ghost predicate HandlerOk(a: Aead, key: string, t: Texts, w: World, h: Handler) {
    && Normal(t, h.q) && h.q.privateKey in w.submitted && h.q.password in w.submitted
    && (if h.update then h.id > 0 else h.id == 0)
    && (h.current.Some? ==> RowOk(a, key, t, w.submitted, h.current.value))
    && (h.pc.ResolveCreds? || h.pc.Write? ==>
          h.q.jump.Some? ==> h.q.jump.value != h.id && h.q.jump.value < w.nextId)
    && (h.pc.Write? ==>
          forall id | id > 0 && (h.q.jump.Some? ==> h.q.jump.value != id) ::
            RowOk(a, key, t, w.submitted, NewRow(h, id, h.pc.privateKey, h.pc.password)))
  }

  ghost predicate Inv(a: Aead, key: string, t: Texts, w: World) {
    && w.nextId > 0
    && TableOk(a, key, t, w)
    && forall i | 0 <= i < |w.handlers| :: HandlerOk(a, key, t, w, w.handlers[i])
  }

  /** Normalised requests are what Validate lets through. */
  lemma {:induction false} ValidIsNormal(t: Texts, q: Request)
    requires Validate(t, q).Some?
    ensures Normal(t, Validate(t, q).value)
    ensures Validate(t, q).value.privateKey == q.privateKey && Validate(t, q).value.password == q.password
  {
  }

  lemma {:induction false} EncryptedIsStored(a: Aead, key: string, nonce: bytes, submitted: set<bytes>, p: bytes)
    requires Sound(a) && |nonce| == NONCE_SIZE && p in submitted && p != []
    requires Encrypt(a, p, key, nonce).Some?
    ensures Stored(a, key, submitted, Encrypt(a, p, key, nonce).value) && Encrypt(a, p, key, nonce).value != ""
  {
    DecryptEncrypt(a, p, key, nonce);
  }

  /** Whatever is kept, copied or encrypted anew is a stored credential that fits the request. */
  lemma {:induction false} ResolvedIsStored(a: Aead, key: string, t: Texts, w: World, nonce: bytes, h: Handler)
    requires Sound(a) && |nonce| == NONCE_SIZE && TableOk(a, key, t, w) && HandlerOk(a, key, t, w, h)
    requires Resolve(a, key, nonce, h.q, h.current, w.rows).Some?
    ensures var (pk, pw) := Resolve(a, key, nonce, h.q, h.current, w.rows).value;
            && Stored(a, key, w.submitted, pk) && Stored(a, key, w.submitted, pw)
            && (h.q.protocol == RDP ==> pk == "" && pw == "")
            && (h.q.protocol == SSH && h.q.authType == PASSWORD ==> pw != "")
            && (h.q.protocol == SSH && h.q.authType == KEY ==> pk != "")
  {
    if h.q.protocol != RDP {
      if h.q.authType == PASSWORD && h.q.password != [] {
        EncryptedIsStored(a, key, nonce, w.submitted, h.q.password);
      } else if h.q.authType != PASSWORD && h.q.privateKey != [] {
        EncryptedIsStored(a, key, nonce, w.submitted, h.q.privateKey);
      }
    }
  }

  /** More submissions and more ids do not spoil what was good. */
  lemma {:induction false} HandlerLasts(a: Aead, key: string, t: Texts, w: World, w': World, h: Handler)
    requires HandlerOk(a, key, t, w, h) && w.submitted <= w'.submitted && w.nextId <= w'.nextId
    ensures HandlerOk(a, key, t, w', h)
  {
  }

  /** The result of one step of a handler, and what it leaves alone. */
  ghost predicate Acted(a: Aead, key: string, t: Texts, w: World, h: Handler, w': World) {
    && HandlerOk(a, key, t, w', h) && TableOk(a, key, t, w')
    && w.nextId <= w'.nextId && w'.submitted == w.submitted && w'.handlers == w.handlers
  }

  lemma {:induction false} ReadsKeep(a: Aead, key: string, t: Texts, w: World, step: Step)
    requires Inv(a, key, t, w) && step.Acts? && Enabled(w, step)
    requires w.handlers[step.i].pc in {ReadCurrent, ReadJump}
    ensures Acted(a, key, t, w, ActOn(a, key, w, step).0, ActOn(a, key, w, step).1)
  {
  }

  lemma {:induction false} WritableNow(a: Aead, key: string, t: Texts, w: World, h: Handler, pk: string, pw: string)
    requires HandlerOk(a, key, t, w, h) && h.pc == ResolveCreds
    requires Stored(a, key, w.submitted, pk) && Stored(a, key, w.submitted, pw)
    requires h.q.protocol == RDP ==> pk == "" && pw == ""
    requires h.q.protocol == SSH && h.q.authType == PASSWORD ==> pw != ""
    requires h.q.protocol == SSH && h.q.authType == KEY ==> pk != ""
    ensures HandlerOk(a, key, t, w, h.(pc := Write(pk, pw)))
  {
  }

  lemma {:induction false} ResolveKeeps(a: Aead, key: string, t: Texts, w: World, step: Step)
    requires Sound(a) && Inv(a, key, t, w) && step.Acts? && Enabled(w, step)
    requires w.handlers[step.i].pc == ResolveCreds
    ensures Acted(a, key, t, w, ActOn(a, key, w, step).0, ActOn(a, key, w, step).1)
  {
    var h := w.handlers[step.i];
    assert HandlerOk(a, key, t, w, h);
    if step.ok && Resolve(a, key, step.nonce, h.q, h.current, w.rows).Some? {
      ResolvedIsStored(a, key, t, w, step.nonce, h);
      var (pk, pw) := Resolve(a, key, step.nonce, h.q, h.current, w.rows).value;
      assert ActOn(a, key, w, step) == (h.(pc := Write(pk, pw)), w);
      WritableNow(a, key, t, w, h, pk, pw);
    }
  }

  lemma {:induction false} WriteKeeps(a: Aead, key: string, t: Texts, w: World, step: Step)
    requires Inv(a, key, t, w) && step.Acts? && Enabled(w, step) && w.handlers[step.i].pc.Write?
    ensures Acted(a, key, t, w, ActOn(a, key, w, step).0, ActOn(a, key, w, step).1)
  {
    var h := w.handlers[step.i];
    assert HandlerOk(a, key, t, w, h);
    var id := if h.update then h.id else w.nextId;
    assert RowOk(a, key, t, w.submitted, NewRow(h, id, h.pc.privateKey, h.pc.password));
  }

  lemma {:induction false} ActKeeps(a: Aead, key: string, t: Texts, w: World, step: Step)
    requires Sound(a) && Inv(a, key, t, w) && step.Acts? && Enabled(w, step)
    ensures Acted(a, key, t, w, ActOn(a, key, w, step).0, ActOn(a, key, w, step).1)
  {
    var pc := w.handlers[step.i].pc;
    if pc in {ReadCurrent, ReadJump} { ReadsKeep(a, key, t, w, step); }
    else if pc == ResolveCreds { ResolveKeeps(a, key, t, w, step); }
    else { WriteKeeps(a, key, t, w, step); }
  }

  lemma {:induction false} StepKeeps(a: Aead, key: string, t: Texts, w: World, step: Step)
    requires Sound(a) && Inv(a, key, t, w) && Enabled(w, step)
    ensures Inv(a, key, t, Apply(a, key, t, w, step))
  {
    var w' := Apply(a, key, t, w, step);
    if step.Acts? { ActKeeps(a, key, t, w, step); }
    if step.Arrives? && Validate(t, step.q).Some? { ValidIsNormal(t, step.q); }
    forall i | 0 <= i < |w.handlers| && !(step.Acts? && step.i == i)
      ensures HandlerOk(a, key, t, w', w'.handlers[i])
    {
      HandlerLasts(a, key, t, w, w', w.handlers[i]);
    }
  }

  lemma {:induction false} RunKeeps(a: Aead, key: string, t: Texts, w: World, steps: seq<Step>)
    requires Sound(a) && Inv(a, key, t, w) && RunAll(a, key, t, w, steps).Some?
    ensures Inv(a, key, t, RunAll(a, key, t, w, steps).value)
    decreases |steps|
  {
    if steps != [] {
      StepKeeps(a, key, t, w, steps[0]);
      RunKeeps(a, key, t, Apply(a, key, t, w, steps[0]), steps[1..]);
    }
  }

  /**
   Whatever creates, updates and deletes interleave from an empty table: remote desktop rows
   hold no credentials, host key or jump; SSH rows hold a credential for their authentication
   type; stored credentials decrypt to something submitted; ports are ports; and no row jumps
   through itself.
   */
  lemma {:induction false} EveryTableIsGood(a: Aead, key: string, t: Texts, steps: seq<Step>)
    requires Sound(a) && RunAll(a, key, t, EMPTY, steps).Some?
    ensures TableOk(a, key, t, RunAll(a, key, t, EMPTY, steps).value)
  {
    RunKeeps(a, key, t, EMPTY, steps);
  }

  // ----- what a save stores -----

  /** A record holds what a normalised request says, field by field. */
  predicate Describes(row: Row, q: Request) {
    && row.name == q.name && row.host == q.host && row.port == q.port && row.username == q.username
    && row.protocol == q.protocol && row.rdpDomain == q.rdpDomain && row.rdpCert == q.rdpCert
    && row.authType == q.authType && row.hostKey == q.hostKey
    && row.description == q.description && row.group == q.group && row.jump == q.jump
  }

  /** The table with one record put in place, and nothing else changed. */
  predicate Puts(rows: Rows, rows': Rows, id: int, q: Request, privateKey: string, password: string) {
    && rows'.Keys == rows.Keys + {id}
    && (forall other | other in rows && other != id :: rows'[other] == rows[other])
    && rows'[id].id == id && Describes(rows'[id], q)
    && rows'[id].privateKey == privateKey && rows'[id].password == password
  }

  /**
   Only a save that answers success changes the table. A create adds a record under the next id,
   an update replaces its own if that is still there; the record holds what the request says.
   */
  lemma {:induction false} SavesStoreTheRequest(a: Aead, key: string, t: Texts, w: World, step: Step)
    requires Enabled(w, step) && step.Acts?
    ensures var w', h := Apply(a, key, t, w, step), w.handlers[step.i];
            && |w'.handlers| == |w.handlers|
            && (forall j | 0 <= j < |w.handlers| && j != step.i :: w'.handlers[j] == w.handlers[j])
            && (w'.handlers[step.i].pc == Answered(true) <==> h.pc.Write? && step.ok)
            && if w'.handlers[step.i].pc == Answered(true) then
                 if !h.update then
                   && Puts(w.rows, w'.rows, w.nextId, h.q, h.pc.privateKey, h.pc.password)
                   && w'.nextId == w.nextId + 1
                 else
                   && w'.nextId == w.nextId
                   && if h.id in w.rows then Puts(w.rows, w'.rows, h.id, h.q, h.pc.privateKey, h.pc.password)
                      else w'.rows == w.rows
               else w'.rows == w.rows && w'.nextId == w.nextId
  {
  }

  /** A deletion removes one record; an arriving request changes none and waits exactly if it is valid. */
  lemma {:induction false} OtherStepsStoreNothing(a: Aead, key: string, t: Texts, w: World, step: Step)
    requires Enabled(w, step) && !step.Acts?
    ensures var w' := Apply(a, key, t, w, step);
            && w'.nextId == w.nextId
            && match step
               case Deletes(id) =>
                 && w'.handlers == w.handlers && w'.rows.Keys == w.rows.Keys - {id}
                 && forall other | other in w'.rows :: w'.rows[other] == w.rows[other]
               case Arrives(update, id, q) =>
                 && w'.rows == w.rows
                 && if Accepts(t, q) && (update ==> id > 0) then
                      && |w'.handlers| == |w.handlers| + 1 && w.handlers <= w'.handlers
                      && var h := w'.handlers[|w.handlers|];
                         && h.pc == ReadCurrent && h.current == None && h.update == update
                         && h.id == (if update then id else 0) && Normalises(t, q, h.q)
                    else w' == w
               case _ => true
  {
    if step.Arrives? { ValidateMeans(t, step.q); }
  }

  /** When nothing else happens in between, this is what a waiting request needs to be saved. */
  ghost predicate CanSave(a: Aead, key: string, nonce: bytes, rows: Rows, h: Handler)
    requires |nonce| == NONCE_SIZE
  {
    && (h.update ==> h.id in rows)
    && (h.q.jump.Some? ==>
          h.q.jump.value != h.id && h.q.jump.value in rows && rows[h.q.jump.value].protocol != "rdp")
    && Resolve(a, key, nonce, h.q, if h.update then Some(rows[h.id]) else None, rows).Some?
  }

  /** One database step after another, for a request nobody disturbs. */
  function ActAlone(a: Aead, key: string, t: Texts, w: World, i: nat, nonce: bytes): Option<World> {
    if Enabled(w, Acts(i, true, nonce)) then Some(Apply(a, key, t, w, Acts(i, true, nonce))) else None
  }

  /** The whole handler, undisturbed: both reads, the credentials and the write. */
  function SaveAlone(a: Aead, key: string, t: Texts, w: World, i: nat, nonce: bytes): Option<World> {
    match ActAlone(a, key, t, w, i, nonce)
    case None => None
    case Some(w1) =>
      match ActAlone(a, key, t, w1, i, nonce)
      case None => None
      case Some(w2) =>
        match ActAlone(a, key, t, w2, i, nonce)
        case None => None
        case Some(w3) => ActAlone(a, key, t, w3, i, nonce)
  }

  function Move(w: World, i: nat, h: Handler): World
    requires i < |w.handlers|
  {
    w.(handlers := w.handlers[i := h])
  }

  lemma {:induction false} FirstReadAlone(a: Aead, key: string, t: Texts, w: World, i: nat, nonce: bytes)
    requires i < |w.handlers| && w.handlers[i].pc == ReadCurrent && |nonce| == NONCE_SIZE
    ensures var h := w.handlers[i];
            ActAlone(a, key, t, w, i, nonce)
            == Some(Move(w, i, if !h.update then h.(pc := ReadJump)
                               else if h.id in w.rows then h.(pc := ReadJump, current := Some(w.rows[h.id]))
                               else h.(pc := Answered(false))))
  {
  }

  lemma {:induction false} JumpReadAlone(a: Aead, key: string, t: Texts, w: World, i: nat, nonce: bytes)
    requires i < |w.handlers| && w.handlers[i].pc == ReadJump && |nonce| == NONCE_SIZE
    ensures var h := w.handlers[i];
            var usable := h.q.jump.Some? ==> h.q.jump.value != h.id && h.q.jump.value in w.rows
                                             && w.rows[h.q.jump.value].protocol != "rdp";
            ActAlone(a, key, t, w, i, nonce) == Some(Move(w, i, h.(pc := if usable then ResolveCreds else Answered(false))))
  {
  }

  lemma {:induction false} ResolveAlone(a: Aead, key: string, t: Texts, w: World, i: nat, nonce: bytes)
    requires i < |w.handlers| && w.handlers[i].pc == ResolveCreds && |nonce| == NONCE_SIZE
    ensures var h := w.handlers[i];
            var found := Resolve(a, key, nonce, h.q, h.current, w.rows);
            ActAlone(a, key, t, w, i, nonce)
            == Some(Move(w, i, h.(pc := if found.Some? then Write(found.value.0, found.value.1) else Answered(false))))
  {
  }

  lemma {:induction false} AnsweredStops(a: Aead, key: string, t: Texts, w: World, i: nat, nonce: bytes)
    requires i < |w.handlers| && w.handlers[i].pc.Answered?
    ensures ActAlone(a, key, t, w, i, nonce) == None
  {
  }

  /**
   A valid request that nobody disturbs and no call fails is saved if and only if its record and
   its jump are there and its credentials can be resolved; then the table holds what it says.
   */
  lemma {:induction false} SavedAlone(a: Aead, key: string, t: Texts, w: World, i: nat, nonce: bytes)
    requires i < |w.handlers| && w.handlers[i].pc == ReadCurrent && w.handlers[i].current == None
    requires |nonce| == NONCE_SIZE
    ensures var h, r := w.handlers[i], SaveAlone(a, key, t, w, i, nonce);
            && (r.Some? <==> CanSave(a, key, nonce, w.rows, h))
            && (r.Some? ==>
                  var creds := Resolve(a, key, nonce, h.q, if h.update then Some(w.rows[h.id]) else None, w.rows).value;
                  && i < |r.value.handlers| && r.value.handlers[i].pc == Answered(true)
                  && Puts(w.rows, r.value.rows, if h.update then h.id else w.nextId, h.q, creds.0, creds.1))
  {
    var h := w.handlers[i];
    FirstReadAlone(a, key, t, w, i, nonce);
    var w1 := ActAlone(a, key, t, w, i, nonce).value;
    if w1.handlers[i].pc.Answered? {
      AnsweredStops(a, key, t, w1, i, nonce);
    } else {
      JumpReadAlone(a, key, t, w1, i, nonce);
      var w2 := ActAlone(a, key, t, w1, i, nonce).value;
      if w2.handlers[i].pc.Answered? {
        AnsweredStops(a, key, t, w2, i, nonce);
      } else {
        ResolveAlone(a, key, t, w2, i, nonce);
        var w3 := ActAlone(a, key, t, w2, i, nonce).value;
        if w3.handlers[i].pc.Answered? {
          AnsweredStops(a, key, t, w3, i, nonce);
        } else {
          assert Enabled(w3, Acts(i, true, nonce)) && w3.rows == w.rows && w3.nextId == w.nextId;
          SavesStoreTheRequest(a, key, t, w3, Acts(i, true, nonce));
        }
      }
    }
  }

  // ----- where every record comes from -----

  ghost predicate Requested(t: Texts, requests: set<Request>, q: Request) {
    exists sent :: sent in requests && Accepts(t, sent) && Normalises(t, sent, q)
  }

  ghost predicate RowRequested(t: Texts, requests: set<Request>, row: Row) {
    exists sent, q :: sent in requests && Accepts(t, sent) && Normalises(t, sent, q) && Describes(row, q)
  }

  ghost predicate Traced(t: Texts, w: World) {
    && (forall id | id in w.rows :: RowRequested(t, w.requests, w.rows[id]))
    && forall i | 0 <= i < |w.handlers| :: Requested(t, w.requests, w.handlers[i].q)
  }

  lemma {:induction false} RequestedLasts(t: Texts, requests: set<Request>, more: set<Request>, q: Request, row: Row)
    requires requests <= more
    ensures Requested(t, requests, q) ==> Requested(t, more, q)
    ensures RowRequested(t, requests, row) ==> RowRequested(t, more, row)
  {
  }

  lemma {:induction false} SaveTraces(a: Aead, key: string, t: Texts, w: World, step: Step)
    requires Traced(t, w) && Enabled(w, step) && step.Acts?
    ensures Traced(t, Apply(a, key, t, w, step))
  {
    var w', h := Apply(a, key, t, w, step), w.handlers[step.i];
    SavesStoreTheRequest(a, key, t, w, step);
    assert Requested(t, w.requests, h.q) && w'.handlers[step.i].q == h.q && w'.requests == w.requests;
    forall id | id in w'.rows ensures RowRequested(t, w.requests, w'.rows[id]) {
      if !(id in w.rows && w'.rows[id] == w.rows[id]) {
        var sent :| sent in w.requests && Accepts(t, sent) && Normalises(t, sent, h.q);
        assert Describes(w'.rows[id], h.q);
      }
    }
  }

  lemma {:induction false} ArrivalTraces(a: Aead, key: string, t: Texts, w: World, step: Step)
    requires Traced(t, w) && Enabled(w, step) && step.Arrives?
    ensures Traced(t, Apply(a, key, t, w, step))
  {
    var w' := Apply(a, key, t, w, step);
    ValidateMeans(t, step.q);
    assert w.requests <= w'.requests && w'.rows == w.rows && w.handlers <= w'.handlers;
    forall id | id in w'.rows ensures RowRequested(t, w'.requests, w'.rows[id]) {
      RequestedLasts(t, w.requests, w'.requests, step.q, w.rows[id]);
    }
    forall i | 0 <= i < |w'.handlers| ensures Requested(t, w'.requests, w'.handlers[i].q) {
      if i < |w.handlers| {
        RequestedLasts(t, w.requests, w'.requests, w.handlers[i].q, NewRow(w.handlers[i], 0, "", ""));
      }
    }
  }

  lemma {:induction false} RunTraces(a: Aead, key: string, t: Texts, w: World, steps: seq<Step>)
    requires Traced(t, w) && RunAll(a, key, t, w, steps).Some?
    ensures Traced(t, RunAll(a, key, t, w, steps).value)
    decreases |steps|
  {
    if steps != [] {
      if steps[0].Acts? {
        SaveTraces(a, key, t, w, steps[0]);
      } else if steps[0].Arrives? {
        ArrivalTraces(a, key, t, w, steps[0]);
      }
      RunTraces(a, key, t, Apply(a, key, t, w, steps[0]), steps[1..]);
    }
  }

  /** Every record of every reachable table is, field by field, what one accepted request asked for. */
  lemma {:induction false} EveryRowWasRequested(a: Aead, key: string, t: Texts, steps: seq<Step>, id: int)
    requires RunAll(a, key, t, EMPTY, steps).Some? && id in RunAll(a, key, t, EMPTY, steps).value.rows
    ensures var w := RunAll(a, key, t, EMPTY, steps).value;
            RowRequested(t, w.requests, w.rows[id])
  {
    RunTraces(a, key, t, EMPTY, steps);
  }
}
