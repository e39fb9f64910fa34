/** The versioned schema migration, run in one transaction over any older database. */
module Migrations {
  import opened Common

  datatype Cell = Null | Text(s: string) | Number(n: int)

  type Row = map<string, Cell>

  datatype Table = Table(cols: seq<string>, rows: seq<Row>)

  datatype Column = Column(name: string, value: Cell)   // an added column and its default

  datatype Schema = Schema(version: nat, users: bool, sessions: bool, servers: Option<Table>)

  const NEW_SERVERS := Table(
    ["id", "name", "host", "port", "username", "private_key", "description", "group_name",
     "jump_server_id", "created_at", "updated_at"], [])

  /** What even the unversioned release had in its servers table. */
  const LEGACY: seq<string> :=
    ["id", "name", "host", "port", "username", "private_key", "description", "created_at", "updated_at"]

  const MIGRATIONS: seq<seq<Column>> := [
    [Column("jump_server_id", Null), Column("group_name", Text("")),
     Column("auth_type", Text("key")), Column("password", Text(""))],
    [Column("host_key", Text(""))],
    [Column("protocol", Text("ssh")), Column("rdp_domain", Text("")), Column("rdp_cert_fingerprint", Text(""))]
  ]

  predicate HasColumns(t: Table, cs: seq<Column>) { forall c | c in cs :: c.name in t.cols }

  predicate WellFormed(t: Table) {
    forall r | r in t.rows :: r.Keys == set c | c in t.cols
  }

  /** ALTER TABLE servers ADD COLUMN, unless the column is there. */
  function AddColumn(t: Table, c: Column): Table {
    if c.name in t.cols then t
    else Table(t.cols + [c.name], seq(|t.rows|, i requires 0 <= i < |t.rows| => t.rows[i][c.name := c.value]))
  }

  function AddColumns(t: Table, cs: seq<Column>): Table
    decreases |cs|
  {
    if cs == [] then t else AddColumns(AddColumn(t, cs[0]), cs[1..])
  }

  /** The columns migrations number from.. add, in order. */
  function ColumnsFrom(from: nat): seq<Column>
    requires from <= |MIGRATIONS|
    decreases |MIGRATIONS| - from
  {
    if from == |MIGRATIONS| then [] else MIGRATIONS[from] + ColumnsFrom(from + 1)
  }

  /** CREATE TABLE IF NOT EXISTS, part of the first migration only. */
  function Created(s: Schema): Option<Table> {
    if s.version == 0 && s.servers == None then Some(NEW_SERVERS) else s.servers
  }

  /** What a successful migration did. */
  predicate Migrated(s: Schema, s': Schema) {
    && s.version <= |MIGRATIONS| && s'.version == |MIGRATIONS|
    && (s.version == |MIGRATIONS| ==> s' == s)
    && (s.version < |MIGRATIONS| ==>
          && Created(s).Some?
          && s'.servers == Some(AddColumns(Created(s).value, ColumnsFrom(s.version))))
    && s'.users == (s.users || s.version == 0)
    && s'.sessions == (s.sessions || s.version == 0)
  }

  class Database {
    var schema: Schema
    ghost var faults: nat   // how many calls have failed

    method Call() returns (ok: bool)
      modifies this`faults
      ensures faults == old(faults) + if ok then 0 else 1
    {
      ok := *;
      if !ok { faults := faults + 1; }
    }

    method AddServerColumn(t: Option<Table>, c: Column) returns (ok: bool, t': Option<Table>)
      modifies this`faults
      ensures ok <==> t.Some? && faults == old(faults)
      ensures ok ==> t' == Some(AddColumn(t.value, c))
      ensures faults >= old(faults)
    {
      t' := t;
      ok := Call();
      if !ok { return; }
      var found := false;
      var cols := if t.Some? then t.value.cols else [];
      for i := 0 to |cols|
        invariant found <==> c.name in cols[..i]
        invariant faults == old(faults)
      {
        ok := Call();
        if !ok { return; }
        found := found || cols[i] == c.name;
      }
      assert cols[..|cols|] == cols;
      if found { return true, t; }
      ok := Call();
      if !ok || t == None { return false, t; }   // no such table
      t' := Some(AddColumn(t.value, c));
    }

    /** One entry of the migrations list. */
    method RunMigration(i: nat, tx: Schema) returns (ok: bool, tx': Schema)
      requires i < |MIGRATIONS|
      modifies this`faults
      ensures ok <==> (i == 0 || tx.servers.Some?) && faults == old(faults)
      ensures faults >= old(faults)
      ensures ok ==>
                var before := if i == 0 && tx.servers == None then Some(NEW_SERVERS) else tx.servers;
                && before.Some?
                && tx' == Schema(tx.version, tx.users || i == 0, tx.sessions || i == 0,
                                 Some(AddColumns(before.value, MIGRATIONS[i])))
    {
      tx' := tx;
      if i == 0 {
        ok := Call();
        if !ok { return; }
        tx' := tx.(users := true, sessions := true,
                   servers := if tx.servers == None then Some(NEW_SERVERS) else tx.servers);
      }
      ghost var before := tx'.servers;
      var todo := MIGRATIONS[i];
      while todo != []
        invariant tx' == tx.(users := tx'.users, sessions := tx'.sessions, servers := tx'.servers)
        invariant tx'.users == (tx.users || i == 0) && tx'.sessions == (tx.sessions || i == 0)
        invariant todo != MIGRATIONS[i] ==> before.Some?
        invariant faults == old(faults)
        invariant before.Some? ==>
                    tx'.servers.Some? && AddColumns(tx'.servers.value, todo) == AddColumns(before.value, MIGRATIONS[i])
        invariant before == None ==> tx'.servers == None
        decreases |todo|
      {
        var servers;
        ok, servers := AddServerColumn(tx'.servers, todo[0]);
        if !ok { return; }
        tx' := tx'.(servers := servers);
        todo := todo[1..];
      }
      ok := true;
    }

    /**
     An error leaves the database as it was, and comes from a failed call, a database of a newer
     release or a missing table only; success leaves it at the newest version.
     */
    method Migrate() returns (ok: bool)
      modifies this
      ensures !ok ==> schema == old(schema)
      ensures ok <==> && old(schema).version <= 3 && faults == old(faults)
                      && (old(schema).servers.Some? || old(schema).version in {0, 3})
      ensures ok ==> Migrated(old(schema), schema)
    {
      ok := Call();
      if !ok { return; }
      ok := Call();
      if !ok { return; }
      var tx := schema;
      ghost var s := schema;
      if tx.version > |MIGRATIONS| { return false; }
      for i := tx.version to |MIGRATIONS|
        invariant schema == s && tx.version == i && faults == old(faults)
        invariant i > s.version ==> s.servers.Some? || s.version == 0
        invariant i == s.version ==> tx == s
        invariant i > s.version ==>
                    && Created(s).Some? && tx.servers.Some?
                    && AddColumns(tx.servers.value, ColumnsFrom(i)) == AddColumns(Created(s).value, ColumnsFrom(s.version))
        invariant tx.users == (s.users || (s.version == 0 && i > 0))
        invariant tx.sessions == (s.sessions || (s.version == 0 && i > 0))
      {
        ghost var before := if i == 0 && tx.servers == None then Some(NEW_SERVERS) else tx.servers;
        ok, tx := RunMigration(i, tx);
        if !ok { return; }
        AddColumnsAppend(before.value, MIGRATIONS[i], ColumnsFrom(i + 1));
        ok := Call();
        if !ok { return; }
        tx := tx.(version := i + 1);
      }
      ok := Call();
      if !ok { return; }
      schema := tx;
    }
  }

  lemma {:induction false} AddColumnsAppend(t: Table, cs: seq<Column>, ds: seq<Column>)
    ensures AddColumns(t, cs + ds) == AddColumns(AddColumns(t, cs), ds)
    decreases |cs|
  {
    if cs == [] {
      assert cs + ds == ds;
    } else {
      assert (cs + ds)[1..] == cs[1..] + ds;
      AddColumnsAppend(AddColumn(t, cs[0]), cs[1..], ds);
    }
  }

  predicate DistinctNames(cs: seq<Column>) {
    forall i, j | 0 <= i < j < |cs| :: cs[i].name != cs[j].name
  }

  /** The new table holds every old cell, and every new column with its default. */
  ghost predicate Extended(t: Table, t': Table, cs: seq<Column>) {
    && t.cols <= t'.cols && HasColumns(t', cs) && WellFormed(t')
    && |t'.rows| == |t.rows|
    && (forall i, c | 0 <= i < |t.rows| && c in t.cols ::
          c in t.rows[i] && c in t'.rows[i] && t'.rows[i][c] == t.rows[i][c])
    && (forall i, d | 0 <= i < |t.rows| && d in cs && d.name !in t.cols ::
          d.name in t'.rows[i] && t'.rows[i][d.name] == d.value)
  }

  lemma AddColumnExtends(t: Table, c: Column)
    requires WellFormed(t)
    ensures Extended(t, AddColumn(t, c), [c])
  {
    var t' := AddColumn(t, c);
    if c.name !in t.cols {
      forall r | r in t'.rows ensures r.Keys == set x | x in t'.cols {
        var i :| 0 <= i < |t'.rows| && t'.rows[i] == r;
        assert t.rows[i] in t.rows;
      }
      forall i, x | 0 <= i < |t.rows| && x in t.cols
        ensures x in t.rows[i] && x in t'.rows[i] && t'.rows[i][x] == t.rows[i][x]
      {
        assert t.rows[i] in t.rows;
      }
    } else {
      forall i, x | 0 <= i < |t.rows| && x in t.cols
        ensures x in t.rows[i] && x in t'.rows[i] && t'.rows[i][x] == t.rows[i][x]
      {
        assert t.rows[i] in t.rows;
      }
    }
  }

  lemma {:induction false} AddColumnsExtends(t: Table, cs: seq<Column>)
    requires WellFormed(t) && DistinctNames(cs)
    ensures Extended(t, AddColumns(t, cs), cs)
    decreases |cs|
  {
    if cs == [] {
      forall i, x | 0 <= i < |t.rows| && x in t.cols ensures x in t.rows[i] {
        assert t.rows[i] in t.rows;
      }
    } else {
      var m := AddColumn(t, cs[0]);
      AddColumnExtends(t, cs[0]);
      AddColumnsExtends(m, cs[1..]);
      assert cs == [cs[0]] + cs[1..];
      forall d | d in cs[1..] ensures d.name != cs[0].name {
        var k :| 0 <= k < |cs[1..]| && cs[1..][k] == d;
        assert cs[k + 1] == d;
      }
    }
  }

  /** The columns the first `upTo` migrations are responsible for. */
  function ColumnsUpTo(upTo: nat): seq<Column>
    requires upTo <= |MIGRATIONS|
  {
    if upTo == 0 then [] else ColumnsUpTo(upTo - 1) + MIGRATIONS[upTo - 1]
  }

  /** A database some release left behind; the unversioned one may have later columns already. */
  predicate Supported(s: Schema) {
    && s.version <= |MIGRATIONS|
    && (s.servers == None ==> s.version == 0)
    && (s.servers.Some? ==>
          && WellFormed(s.servers.value)
          && (forall c | c in LEGACY :: c in s.servers.value.cols)
          && HasColumns(s.servers.value, ColumnsUpTo(s.version)))
  }

  lemma {:induction false} ColumnsSplit(at: nat)
    requires at <= |MIGRATIONS|
    ensures ColumnsUpTo(at) + ColumnsFrom(at) == ColumnsFrom(0)
  {
    if at > 0 {
      ColumnsSplit(at - 1);
      Regroup(ColumnsUpTo(at - 1), MIGRATIONS[at - 1], ColumnsFrom(at));
    }
  }

  lemma AllColumns()
    ensures ColumnsFrom(0) == MIGRATIONS[0] + (MIGRATIONS[1] + MIGRATIONS[2])
    ensures ColumnsFrom(|MIGRATIONS|) == []
  {
    assert ColumnsFrom(2) == MIGRATIONS[2] + ColumnsFrom(3) == MIGRATIONS[2];
    assert ColumnsFrom(1) == MIGRATIONS[1] + ColumnsFrom(2);
  }

  lemma JoinedDistinct(a: seq<Column>, b: seq<Column>)
    requires DistinctNames(a) && DistinctNames(b)
    requires forall i, j | 0 <= i < |a| && 0 <= j < |b| :: a[i].name != b[j].name
    ensures DistinctNames(a + b)
  {
  }

  lemma TailDistinct(a: seq<Column>, b: seq<Column>)
    requires DistinctNames(a + b)
    ensures DistinctNames(b)
  {
    assert forall i | 0 <= i < |b| :: b[i] == (a + b)[|a| + i];
  }

  lemma AllColumnsDistinct()
    ensures DistinctNames(ColumnsFrom(0))
  {
    AllColumns();
    JoinedDistinct(MIGRATIONS[1], MIGRATIONS[2]);
    JoinedDistinct(MIGRATIONS[0], MIGRATIONS[1] + MIGRATIONS[2]);
  }

  lemma ColumnsFromDistinct(from: nat)
    requires from <= |MIGRATIONS|
    ensures DistinctNames(ColumnsFrom(from))
  {
    ColumnsSplit(from);
    AllColumnsDistinct();
    TailDistinct(ColumnsUpTo(from), ColumnsFrom(from));
  }

  lemma ColumnsMeet(from: nat)
    requires from <= |MIGRATIONS|
    ensures ColumnsUpTo(from) + ColumnsFrom(from) == ColumnsUpTo(|MIGRATIONS|)
  {
    ColumnsSplit(from);
    ColumnsSplit(|MIGRATIONS|);
    AllColumns();
  }

  /**
   From every supported database a successful migration ends at the newest version with all
   columns present, every old cell unchanged and every added cell at its column's default; running again
   succeeds only by changing nothing.
   */
  lemma MigrationPreserves(s: Schema, s': Schema)
    requires Supported(s) && Migrated(s, s')
    ensures s'.servers.Some?
    ensures forall c | c in LEGACY :: c in s'.servers.value.cols
    ensures HasColumns(s'.servers.value, ColumnsUpTo(|MIGRATIONS|))
    ensures s.servers.Some? ==> Extended(s.servers.value, s'.servers.value, ColumnsFrom(s.version))
    ensures s.servers == None ==> s'.servers.value.rows == []
    ensures Migrated(s', s') && forall again | Migrated(s', again) :: again == s'
  {
    var t := if s.version == |MIGRATIONS| then s.servers.value else Created(s).value;
    ColumnsFromDistinct(s.version);
    ColumnsMeet(s.version);
    AddColumnsExtends(t, ColumnsFrom(s.version));
    var t' := s'.servers.value;
    assert t' == AddColumns(t, ColumnsFrom(s.version));
    forall c | c in t.cols ensures c in t'.cols {
      assert t.cols <= t'.cols;
    }
  }

  /** Column by column: it exists, and a row that lacked it holds this value. */
  predicate Gains(t: Option<Table>, t': Table, name: string, value: Cell) {
    && name in t'.cols
    && (t.Some? && name !in t.value.cols ==> forall r | r in t'.rows :: name in r && r[name] == value)
  }

  lemma ColumnGained(s: Schema, s': Schema, c: Column)
    requires Supported(s) && Migrated(s, s') && c in ColumnsFrom(0)
    ensures s'.servers.Some? && Gains(s.servers, s'.servers.value, c.name, c.value)
  {
    MigrationPreserves(s, s');
    ColumnsSplit(s.version);
    ColumnsMeet(0);
    assert ColumnsUpTo(0) + ColumnsFrom(0) == ColumnsFrom(0);
    if s.servers.Some? && c.name !in s.servers.value.cols { OldRowsGain(s.servers.value, s'.servers.value, ColumnsFrom(s.version), c); }
  }

  lemma OldRowsGain(t: Table, t': Table, cs: seq<Column>, c: Column)
    requires Extended(t, t', cs) && c in cs && c.name !in t.cols
    ensures Gains(Some(t), t', c.name, c.value)
  {
  }

  lemma AddedColumns(c: Column)
    ensures c in ColumnsFrom(0) <==> c in MIGRATIONS[0] || c in MIGRATIONS[1] || c in MIGRATIONS[2]
  {
    AllColumns();
  }

  lemma FirstColumnsGained(s: Schema, s': Schema)
    requires Supported(s) && Migrated(s, s')
    ensures s'.servers.Some?
    ensures var t, t' := s.servers, s'.servers.value;
            && Gains(t, t', "jump_server_id", Null) && Gains(t, t', "group_name", Text(""))
            && Gains(t, t', "auth_type", Text("key")) && Gains(t, t', "password", Text(""))
  {
    forall i | 0 <= i < 4
      ensures s'.servers.Some? && Gains(s.servers, s'.servers.value, MIGRATIONS[0][i].name, MIGRATIONS[0][i].value)
    {
      AddedColumns(MIGRATIONS[0][i]);
      ColumnGained(s, s', MIGRATIONS[0][i]);
    }
    assert MIGRATIONS[0][0] == Column("jump_server_id", Null) && MIGRATIONS[0][1] == Column("group_name", Text(""));
    assert MIGRATIONS[0][2] == Column("auth_type", Text("key")) && MIGRATIONS[0][3] == Column("password", Text(""));
  }

  lemma LaterColumnsGained(s: Schema, s': Schema)
    requires Supported(s) && Migrated(s, s')
    ensures s'.servers.Some?
    ensures var t, t' := s.servers, s'.servers.value;
            && Gains(t, t', "host_key", Text("")) && Gains(t, t', "protocol", Text("ssh"))
            && Gains(t, t', "rdp_domain", Text("")) && Gains(t, t', "rdp_cert_fingerprint", Text(""))
  {
    AddedColumns(MIGRATIONS[1][0]);
    ColumnGained(s, s', MIGRATIONS[1][0]);
    forall i | 0 <= i < 3
      ensures s'.servers.Some? && Gains(s.servers, s'.servers.value, MIGRATIONS[2][i].name, MIGRATIONS[2][i].value)
    {
      AddedColumns(MIGRATIONS[2][i]);
      ColumnGained(s, s', MIGRATIONS[2][i]);
    }
    assert MIGRATIONS[2][0] == Column("protocol", Text("ssh")) && MIGRATIONS[2][1] == Column("rdp_domain", Text(""));
    assert MIGRATIONS[2][2] == Column("rdp_cert_fingerprint", Text(""));
  }

  /**
   The newest schema, name by name: its columns, and what the rows of every supported database
   get in columns they did not have.
   */
  lemma MigratedSchema(s: Schema, s': Schema)
    requires Supported(s) && Migrated(s, s')
    ensures s'.version == 3 && s'.servers.Some?
    ensures s.version == 0 ==> s'.users && s'.sessions
    ensures forall name | name in ["id", "name", "host", "port", "username", "private_key", "description", "created_at", "updated_at"] ::
              name in s'.servers.value.cols
    ensures var t, t' := s.servers, s'.servers.value;
            && Gains(t, t', "jump_server_id", Null) && Gains(t, t', "group_name", Text(""))
            && Gains(t, t', "auth_type", Text("key")) && Gains(t, t', "password", Text(""))
            && Gains(t, t', "host_key", Text("")) && Gains(t, t', "protocol", Text("ssh"))
            && Gains(t, t', "rdp_domain", Text("")) && Gains(t, t', "rdp_cert_fingerprint", Text(""))
  {
    FirstColumnsGained(s, s');
    LaterColumnsGained(s, s');
    MigrationPreserves(s, s');
    assert LEGACY == ["id", "name", "host", "port", "username", "private_key", "description", "created_at", "updated_at"];
  }
}
