/** From a server record to the SSH connections that are dialled for it. */
module Routes {
  import opened Common
  import opened Crypto
  import opened Servers

  datatype SshConfig = SshConfig(
    host: string, port: int, username: string, authType: string,
    privateKey: bytes, password: bytes, hostKey: string)

  datatype Refusal =
    | Cancelled | NoServer | RemoteDesktop | BadPrivateKey | BadPassword
    | SelfJump | LoadFailed | NoJump | Chain

  function ConnectionConfig(a: Aead, key: string, row: Row): Result<SshConfig, Refusal> {
    if row.protocol == RDP then Err(RemoteDesktop)
    else
      var pk := if row.privateKey == "" then Some([]) else Decrypt(a, row.privateKey, key);
      var pw := if row.password == "" then Some([]) else Decrypt(a, row.password, key);
      if pk.None? then Err(BadPrivateKey)
      else if pw.None? then Err(BadPassword)
      else Ok(SshConfig(row.host, row.port, row.username, row.authType, pk.value, pw.value, row.hostKey))
  }

  /** The hops dialled, jump host first. */
  type Route = seq<SshConfig>

  predicate IsDirect(row: Row) { row.jump == None || row.jump.value == 0 }

  /** The outcomes of the calls dialServer makes: its context before and after, the query. */
  datatype Weather = Weather(cancelledBefore: bool, loads: bool, cancelledAfter: bool)

  function DialServer(a: Aead, key: string, rows: Rows, w: Weather, server: Option<Row>): Result<Route, Refusal> {
    if w.cancelledBefore then Err(Cancelled)
    else if server == None then Err(NoServer)
    else
      var row := server.value;
      match ConnectionConfig(a, key, row)
      case Err(e) => Err(e)
      case Ok(target) =>
        if IsDirect(row) then Ok([target])
        else if row.jump.value == row.id then Err(SelfJump)
        else if !w.loads then Err(LoadFailed)
        else if row.jump.value !in rows then Err(NoJump)
        else
          var jump := rows[row.jump.value];
          if !IsDirect(jump) then Err(Chain)
          else
            match ConnectionConfig(a, key, jump)
            case Err(e) => Err(e)
            case Ok(hop) => if w.cancelledAfter then Err(Cancelled) else Ok([hop, target])
  }

  datatype ConfigError = NoPassword | UnusableKey | UnknownAuthType

  /** makeConfig; `parses` tells which private keys are usable. */
  function MakeConfig(parses: bytes -> bool, cfg: SshConfig): Option<ConfigError> {
    if cfg.authType == PASSWORD then if cfg.password == [] then Some(NoPassword) else None
    else if cfg.authType == KEY then if parses(cfg.privateKey) then None else Some(UnusableKey)
    else Some(UnknownAuthType)
  }

  /** hostKeyCallback: an unpinned host is refused, whatever key it shows. */
  predicate TrustsHost(cfg: SshConfig, observed: string) { cfg.hostKey != "" && cfg.hostKey == observed }

  /** A hop that uses exactly one record: its address, its pin and its own credentials. */
  predicate HopOf(a: Aead, key: string, row: Row, hop: SshConfig) {
    && row.protocol != RDP
    && hop.host == row.host && hop.port == row.port && hop.username == row.username
    && hop.authType == row.authType && hop.hostKey == row.hostKey
    && (if row.privateKey == "" then hop.privateKey == [] else Decrypt(a, row.privateKey, key) == Some(hop.privateKey))
    && (if row.password == "" then hop.password == [] else Decrypt(a, row.password, key) == Some(hop.password))
  }

  /** When and how a record can be reached through the given table. */
  ghost predicate Reaches(a: Aead, key: string, rows: Rows, row: Row, route: Route) {
    || (IsDirect(row) && |route| == 1 && HopOf(a, key, row, route[0]))
    || (&& !IsDirect(row) && |route| == 2 && HopOf(a, key, row, route[1])
        && row.jump.value in rows
        && var jump := rows[row.jump.value];
           jump.id != row.id && IsDirect(jump) && HopOf(a, key, jump, route[0]))
  }

  lemma {:induction false} HopIsConfig(a: Aead, key: string, row: Row, hop: SshConfig)
    ensures HopOf(a, key, row, hop) <==> ConnectionConfig(a, key, row) == Ok(hop)
  {
  }

  /**
   For any table at all: a route is dialled if and only if nothing was cancelled or failed and it
   is the record itself, or a different, itself direct SSH record in front of it, each hop with
   its own pin and credentials. There is never more than one route.
   */
  lemma {:induction false} DialsExactly(a: Aead, key: string, rows: Rows, w: Weather, server: Option<Row>, route: Route)
    requires forall id | id in rows :: rows[id].id == id
    ensures DialServer(a, key, rows, w, server) == Ok(route) <==>
              && !w.cancelledBefore && server.Some?
              && (!IsDirect(server.value) ==> w.loads && !w.cancelledAfter)
              && Reaches(a, key, rows, server.value, route)
  {
    if server.Some? && |route| == 1 {
      HopIsConfig(a, key, server.value, route[0]);
      assert route == [route[0]];
    }
    if server.Some? && |route| == 2 {
      HopIsConfig(a, key, server.value, route[1]);
      assert route == [route[0], route[1]];
      if server.value.jump.Some? && server.value.jump.value in rows {
        HopIsConfig(a, key, rows[server.value.jump.value], route[0]);
      }
    }
  }

  /** What a hop authenticates with is there; only a key that does not parse is refused. */
  predicate Authenticates(parses: bytes -> bool, hop: SshConfig) {
    if hop.authType == "password" then hop.password != [] && MakeConfig(parses, hop) == None
    else
      && hop.authType == "key" && hop.privateKey != []
      && MakeConfig(parses, hop) == if parses(hop.privateKey) then None else Some(UnusableKey)
  }

  /**
   On every table requests can produce, every SSH record yields a configuration, and a record
   for password authentication never lacks its password.
   */
  lemma {:induction false} ReachableRowsConnect(a: Aead, key: string, t: Texts, parses: bytes -> bool, steps: seq<Step>, id: int)
    requires Sound(a) && RunAll(a, key, t, EMPTY, steps).Some?
    requires id in RunAll(a, key, t, EMPTY, steps).value.rows
    ensures var row := RunAll(a, key, t, EMPTY, steps).value.rows[id];
            && (ConnectionConfig(a, key, row).Ok? <==> row.protocol == SSH)
            && (row.protocol == SSH ==>
                  && Authenticates(parses, ConnectionConfig(a, key, row).value))
  {
    EveryTableIsGood(a, key, t, steps);
    var world := RunAll(a, key, t, EMPTY, steps).value;
    assert RowOk(a, key, t, world.submitted, world.rows[id]);
  }

  /** A stored record that can be dialled, seen apart from its jump. */
  ghost predicate Configurable(a: Aead, key: string, parses: bytes -> bool, row: Row) {
    && (ConnectionConfig(a, key, row).Ok? <==> row.protocol == SSH)
    && (row.protocol != SSH ==> ConnectionConfig(a, key, row).error == RemoteDesktop)
    && (row.protocol == SSH ==> Authenticates(parses, ConnectionConfig(a, key, row).value))
  }

  /** Without outside failures a record is dialled exactly if the route exists, and then with what it takes. */
  ghost predicate DialsWell(a: Aead, key: string, parses: bytes -> bool, rows: Rows, row: Row) {
    var d := DialServer(a, key, rows, Weather(false, true, false), Some(row));
    && (d.Ok? <==> row.protocol == SSH
                   && (IsDirect(row) || (row.jump.value in rows && rows[row.jump.value].protocol == SSH
                                         && IsDirect(rows[row.jump.value]))))
    && (d.Err? ==> d.error in {RemoteDesktop, NoJump, Chain})
    && (d.Ok? ==> forall hop | hop in d.value :: Authenticates(parses, hop))
  }

  lemma {:induction false} GoodRowsConfigure(a: Aead, key: string, t: Texts, parses: bytes -> bool, submitted: set<bytes>, row: Row)
    requires RowOk(a, key, t, submitted, row)
    ensures Configurable(a, key, parses, row)
  {
  }

  lemma {:induction false} DialsGoodRows(a: Aead, key: string, parses: bytes -> bool, rows: Rows, row: Row)
    requires Configurable(a, key, parses, row) && row.jump != Some(row.id)
    requires row.jump.Some? && row.jump.value in rows ==> Configurable(a, key, parses, rows[row.jump.value])
    ensures DialsWell(a, key, parses, rows, row)
  {
  }

  /**
   Nothing requests can do to the table, not even between reading a record and reading its jump,
   makes dialling fail for a credential that is missing or does not decrypt: without outside
   failures it succeeds exactly for SSH records that are direct or whose jump is, at that time, a
   direct SSH record.
   */
  lemma {:induction false} ReachableRecordsDial(
      a: Aead, key: string, t: Texts, parses: bytes -> bool, before: seq<Step>, between: seq<Step>, id: int)
    requires Sound(a) && RunAll(a, key, t, EMPTY, before).Some?
    requires RunAll(a, key, t, RunAll(a, key, t, EMPTY, before).value, between).Some?
    requires id in RunAll(a, key, t, EMPTY, before).value.rows
    ensures var mid := RunAll(a, key, t, EMPTY, before).value;
            DialsWell(a, key, parses, RunAll(a, key, t, mid, between).value.rows, mid.rows[id])
  {
    RunKeeps(a, key, t, EMPTY, before);
    var mid := RunAll(a, key, t, EMPTY, before).value;
    RunKeeps(a, key, t, mid, between);
    var end := RunAll(a, key, t, mid, between).value;
    var row := mid.rows[id];
    GoodRowsConfigure(a, key, t, parses, mid.submitted, row);
    if row.jump.Some? && row.jump.value in end.rows {
      GoodRowsConfigure(a, key, t, parses, end.submitted, end.rows[row.jump.value]);
    }
    DialsGoodRows(a, key, parses, end.rows, row);
  }

  /** No hop of any route is trusted unless its own record pins the key it shows. */
  lemma {:induction false} HopsNeedTheirPins(
      a: Aead, key: string, rows: Rows, w: Weather, server: Row, route: Route, i: nat, observed: string)
    requires forall id | id in rows :: rows[id].id == id
    requires DialServer(a, key, rows, w, Some(server)) == Ok(route) && i < |route|
    ensures var row := if i == |route| - 1 then server else if server.jump.Some? && server.jump.value in rows
                       then rows[server.jump.value] else server;
            && (i < |route| - 1 ==> row != server)
            && (TrustsHost(route[i], observed) <==> row.hostKey != "" && row.hostKey == observed)
            && route[i].host == row.host && route[i].port == row.port && route[i].username == row.username
  {
    DialsExactly(a, key, rows, w, Some(server), route);
  }
}
