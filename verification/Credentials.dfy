/**
 The one-way credential upgrade at startup: in one transaction, everything that only the old
 default key opens is encrypted again under the active key.
 */
module Credentials {
  import opened Common
  import opened Crypto

  datatype Row = Row(id: int, privateKey: string, password: Option<string>, rest: seq<string>)

  datatype Update = Update(id: int, privateKey: string, password: string)

  function Text(t: Option<string>): string { if t.Some? then t.value else "" }

  /** The active key does not open this credential. */
  predicate Outdated(a: Aead, key: string, value: string) {
    value != "" && Decrypt(a, value, key).None?
  }

  predicate NeedsUpgrade(a: Aead, key: string, row: Row) {
    Outdated(a, key, row.privateKey) || Outdated(a, key, Text(row.password))
  }

  function CountUpgrades(a: Aead, key: string, rows: seq<Row>): nat {
    if rows == [] then 0
    else (if NeedsUpgrade(a, key, rows[0]) then 1 else 0) + CountUpgrades(a, key, rows[1..])
  }

  /** How one stored credential may change. */
  predicate Carried(a: Aead, key: string, before: string, after: string) {
    if !Outdated(a, key, before) then after == before
    else
      && after != ""
      && Decrypt(a, before, LEGACY_KEY).Some?
      && Decrypt(a, after, key) == Decrypt(a, before, LEGACY_KEY)
  }

  /** How one row may change: not at all, unless the legacy key is needed for it. */
  predicate Upgraded(a: Aead, key: string, before: Row, after: Row) {
    if !NeedsUpgrade(a, key, before) then after == before
    else
      && after.id == before.id && after.rest == before.rest && after.password.Some?
      && Carried(a, key, before.privateKey, after.privateKey)
      && Carried(a, key, Text(before.password), after.password.value)
  }

  predicate AllUpgraded(a: Aead, key: string, before: seq<Row>, after: seq<Row>) {
    && |before| == |after|
    && forall i | 0 <= i < |before| :: Upgraded(a, key, before[i], after[i])
  }

  predicate UniqueIds(rows: seq<Row>) {
    forall i, j | 0 <= i < j < |rows| :: rows[i].id != rows[j].id
  }

  /** UPDATE servers SET private_key=?, password=? WHERE id=? */
  function Exec(rows: seq<Row>, u: Update): seq<Row> {
    seq(|rows|, i requires 0 <= i < |rows| =>
      if rows[i].id == u.id then rows[i].(privateKey := u.privateKey, password := Some(u.password)) else rows[i])
  }

  function ExecAll(rows: seq<Row>, us: seq<Update>): seq<Row>
    decreases |us|
  {
    if us == [] then rows else ExecAll(Exec(rows, us[0]), us[1..])
  }

  /** The update, if any, that turns one row into the other. */
  function Change(a: Aead, key: string, before: Row, after: Row): seq<Update> {
    if NeedsUpgrade(a, key, before) then [Update(after.id, after.privateKey, Text(after.password))] else []
  }

  /** The updates that turn one table into the other. */
  function Changes(a: Aead, key: string, before: seq<Row>, after: seq<Row>): seq<Update>
    requires |before| == |after|
  {
    if before == [] then [] else Change(a, key, before[0], after[0]) + Changes(a, key, before[1..], after[1..])
  }

  lemma {:induction false} ChangesIds(a: Aead, key: string, before: seq<Row>, after: seq<Row>)
    requires AllUpgraded(a, key, before, after)
    ensures forall u | u in Changes(a, key, before, after) :: exists i :: 0 <= i < |before| && before[i].id == u.id
    ensures |Changes(a, key, before, after)| == CountUpgrades(a, key, before)
  {
    if before != [] {
      ChangesIds(a, key, before[1..], after[1..]);
      forall u | u in Changes(a, key, before, after)
        ensures exists i :: 0 <= i < |before| && before[i].id == u.id
      {
        if u in Changes(a, key, before[1..], after[1..]) {
          var i :| 0 <= i < |before[1..]| && before[1..][i].id == u.id;
          assert before[i + 1].id == u.id;
        } else {
          assert before[0].id == u.id;
        }
      }
    }
  }

  /** Updates of other rows pass a row by. */
  lemma {:induction false} ExecSkips(row: Row, rows: seq<Row>, us: seq<Update>)
    requires forall u | u in us :: u.id != row.id
    ensures ExecAll([row] + rows, us) == [row] + ExecAll(rows, us)
    decreases |us|
  {
    if us != [] {
      assert us[0].id != row.id;
      assert Exec([row] + rows, us[0]) == [row] + Exec(rows, us[0]);
      ExecSkips(row, Exec(rows, us[0]), us[1..]);
    }
  }

  lemma {:induction false} ExecAppend(rows: seq<Row>, us: seq<Update>, vs: seq<Update>)
    ensures ExecAll(rows, us + vs) == ExecAll(ExecAll(rows, us), vs)
    decreases |us|
  {
    if us == [] {
      assert us + vs == vs;
    } else {
      assert (us + vs)[1..] == us[1..] + vs;
      ExecAppend(Exec(rows, us[0]), us[1..], vs);
    }
  }

  lemma {:induction false} OtherIds(a: Aead, key: string, before: seq<Row>, after: seq<Row>, id: int)
    requires AllUpgraded(a, key, before, after) && forall i | 0 <= i < |before| :: before[i].id != id
    ensures forall u | u in Changes(a, key, before, after) :: u.id != id
  {
    ChangesIds(a, key, before, after);
  }

  /** One update turns one row into another and leaves all others alone. */
  lemma {:induction false} ExecOne(before: Row, after: Row, rest: seq<Row>)
    requires after.id == before.id && after.rest == before.rest && after.password.Some?
    requires forall i | 0 <= i < |rest| :: rest[i].id != before.id
    ensures ExecAll([before] + rest, [Update(after.id, after.privateKey, Text(after.password))]) == [after] + rest
  {
    var u := Update(after.id, after.privateKey, Text(after.password));
    assert ExecAll([before] + rest, [u]) == Exec([before] + rest, u);
    assert Exec([before] + rest, u) == [after] + rest;
  }

  lemma {:induction false} ChangeSuffices(a: Aead, key: string, before: Row, after: Row, rest: seq<Row>)
    requires Upgraded(a, key, before, after) && forall i | 0 <= i < |rest| :: rest[i].id != before.id
    ensures ExecAll([before] + rest, Change(a, key, before, after)) == [after] + rest
  {
    if NeedsUpgrade(a, key, before) { ExecOne(before, after, rest); }
  }

  /** Updates of one row, then updates of the others. */
  lemma {:induction false} ExecBoth(b: Row, c: Row, bs: seq<Row>, cs: seq<Row>, us: seq<Update>, vs: seq<Update>)
    requires ExecAll([b] + bs, us) == [c] + bs && ExecAll(bs, vs) == cs
    requires forall v | v in vs :: v.id != c.id
    ensures ExecAll([b] + bs, us + vs) == [c] + cs
  {
    ExecAppend([b] + bs, us, vs);
    ExecSkips(c, bs, vs);
  }

  /** Row by row, the collected updates produce exactly the intended table. */
  lemma {:induction false} ChangesSuffice(a: Aead, key: string, before: seq<Row>, after: seq<Row>)
    requires AllUpgraded(a, key, before, after) && UniqueIds(before)
    ensures ExecAll(before, Changes(a, key, before, after)) == after
  {
    if before != [] {
      var b, c := before[1..], after[1..];
      ChangeSuffices(a, key, before[0], after[0], b);
      ChangesSuffice(a, key, b, c);
      OtherIds(a, key, b, c, after[0].id);
      ExecBoth(before[0], after[0], b, c, Change(a, key, before[0], after[0]), Changes(a, key, b, c));
      assert before == [before[0]] + b && after == [after[0]] + c;
    }
  }

  /** The row an update, if there is one, leaves behind. */
  function Stored(row: Row, changed: bool, item: Update): Row {
    if changed then row.(privateKey := item.privateKey, password := Some(item.password)) else row
  }

  /** Neither key opens this credential, or there is no usable key to carry it over to. */
  predicate Hopeless(a: Aead, key: string, value: string) {
    Outdated(a, key, value) && (Decrypt(a, value, LEGACY_KEY).None? || KeyOf(key).None?)
  }

  predicate HopelessRow(a: Aead, key: string, row: Row) {
    Hopeless(a, key, row.privateKey) || Hopeless(a, key, Text(row.password))
  }

  predicate Savable(a: Aead, key: string, rows: seq<Row>) {
    forall i | 0 <= i < |rows| :: !HopelessRow(a, key, rows[i])
  }

  lemma {:induction false} SavableNext(a: Aead, key: string, rows: seq<Row>, i: nat)
    requires i < |rows| && Savable(a, key, rows[..i])
    ensures !HopelessRow(a, key, rows[i]) ==> Savable(a, key, rows[..i + 1])
    ensures HopelessRow(a, key, rows[i]) ==> !Savable(a, key, rows)
  {
    assert rows[..i + 1] == rows[..i] + [rows[i]];
  }

  class Database {
    var rows: seq<Row>
    ghost var faults: nat   // how many calls have failed

    /** Any call on the transaction may fail; until the commit the table is untouched. */
    method Call() returns (ok: bool)
      modifies this`faults
      ensures faults == old(faults) + if ok then 0 else 1
    {
      ok := *;
      if !ok { faults := faults + 1; }
    }

    /** Encryption with a drawn nonce; drawing it may fail. */
    method Seal(a: Aead, plaintext: bytes, key: string) returns (r: Option<string>)
      requires Sound(a)
      modifies this`faults
      ensures faults >= old(faults) && (r.Some? <==> KeyOf(key).Some? && faults == old(faults))
      ensures r.Some? ==> r.value != "" && Decrypt(a, r.value, key) == Some(plaintext)
    {
      var nonce: bytes := *;
      if |nonce| != NONCE_SIZE {
        faults := faults + 1;
        return None;
      }
      r := Encrypt(a, plaintext, key, nonce);
      if r.Some? { DecryptEncrypt(a, plaintext, key, nonce); }
    }

    /** The inner loop's body. */
    method UpgradeValue(a: Aead, key: string, value: string) returns (ok: bool, changed: bool, stored: string)
      requires Sound(a)
      modifies this`faults
      ensures faults >= old(faults) && (ok <==> !Hopeless(a, key, value) && faults == old(faults))
      ensures ok ==> changed == Outdated(a, key, value) && Carried(a, key, value, stored)
    {
      if value == "" { return true, false, value; }
      if Decrypt(a, value, key).Some? { return true, false, value; }
      var plaintext := Decrypt(a, value, LEGACY_KEY);
      if plaintext.None? { return false, false, value; }
      var sealed := Seal(a, plaintext.value, key);
      if sealed.None? { return false, false, value; }
      return true, true, sealed.value;
    }

    /** One scanned row, with the values to store when `changed`. */
    method UpgradeRow(a: Aead, key: string, row: Row) returns (ok: bool, changed: bool, item: Update)
      requires Sound(a)
      modifies this`faults
      ensures faults >= old(faults) && (ok <==> !HopelessRow(a, key, row) && faults == old(faults))
      ensures ok ==> changed == NeedsUpgrade(a, key, row) && item.id == row.id
      ensures ok ==> Upgraded(a, key, row, Stored(row, changed, item))
      ensures ok ==> Change(a, key, row, Stored(row, changed, item)) == if changed then [item] else []
    {
      item := Update(row.id, row.privateKey, Text(row.password));
      changed := false;
      var again, stored;
      ok, changed, stored := UpgradeValue(a, key, item.privateKey);
      if !ok { return; }
      item := item.(privateKey := stored);
      ok, again, stored := UpgradeValue(a, key, item.password);
      if !ok { return; }
      item := item.(password := stored);
      changed := changed || again;
    }

    /**
     An error leaves every row as it was, and comes only from a failed call or a credential that
     cannot be carried over. Success returns the number of rows some value of which
     the active key did not open, and leaves every credential opening, under the active key, to
     the plaintext it had.
     */
    method UpgradeCredentials(a: Aead, key: string) returns (r: Result<nat, string>)
      requires Sound(a) && UniqueIds(rows)
      modifies this
      ensures r.Err? ==> rows == old(rows)
      ensures r.Ok? <==>
                faults == old(faults) && Savable(a, key, old(rows))
      ensures r.Ok? ==> AllUpgraded(a, key, old(rows), rows) && r.value == CountUpgrades(a, key, old(rows))
    {
      var ok := Call();
      if !ok { return Err("begin"); }
      var tx := rows;
      var updates: seq<Update> := [];
      ghost var target: seq<Row> := [];
      var i := 0;
      while i < |tx|
        invariant i <= |tx| && tx == rows == old(rows) && |target| == i && faults == old(faults)
        invariant Savable(a, key, tx[..i])
        invariant AllUpgraded(a, key, tx[..i], target)
        invariant updates == Changes(a, key, tx[..i], target)
      {
        ok := Call();
        if !ok { return Err("scan"); }
        SavableNext(a, key, tx, i);
        var done, changed, item := UpgradeRow(a, key, tx[i]);
        if !done { return Err("cannot decrypt credentials"); }
        Collected(a, key, tx, i, target, Stored(tx[i], changed, item));
        target := target + [Stored(tx[i], changed, item)];
        if changed { updates := updates + [item]; }
        i := i + 1;
      }
      assert tx[..i] == tx;
      ChangesIds(a, key, tx, target);
      ChangesSuffice(a, key, tx, target);
      var k := 0;
      while k < |updates|
        invariant k <= |updates| && rows == old(rows) && faults == old(faults)
        invariant ExecAll(tx, updates[k..]) == target
      {
        ok := Call();
        if !ok { return Err("update"); }
        assert updates[k..][1..] == updates[k + 1..];
        tx := Exec(tx, updates[k]);
        k := k + 1;
      }
      ok := Call();
      if !ok { return Err("commit"); }
      rows := tx;
      r := Ok(|updates|);
    }
  }

  lemma {:induction false} ChangesSnoc(a: Aead, key: string, before: seq<Row>, after: seq<Row>, b: Row, c: Row)
    requires |before| == |after|
    ensures Changes(a, key, before + [b], after + [c])
            == Changes(a, key, before, after) + Change(a, key, b, c)
  {
    if before == [] {
      assert before + [b] == [b] && after + [c] == [c];
    } else {
      assert (before + [b])[1..] == before[1..] + [b] && (after + [c])[1..] == after[1..] + [c];
      ChangesSnoc(a, key, before[1..], after[1..], b, c);
    }
  }

  /** One more row collected. */
  lemma {:induction false} Collected(a: Aead, key: string, tx: seq<Row>, i: nat, target: seq<Row>, next: Row)
    requires i < |tx| && AllUpgraded(a, key, tx[..i], target) && Upgraded(a, key, tx[i], next)
    ensures AllUpgraded(a, key, tx[..i + 1], target + [next])
    ensures Changes(a, key, tx[..i + 1], target + [next])
            == Changes(a, key, tx[..i], target) + Change(a, key, tx[i], next)
  {
    assert tx[..i + 1] == tx[..i] + [tx[i]];
    ChangesSnoc(a, key, tx[..i], target, tx[i], next);
    forall k | 0 <= k < i + 1 ensures Upgraded(a, key, tx[..i + 1][k], (target + [next])[k]) {
      if k < i { assert tx[..i + 1][k] == tx[..i][k] && (target + [next])[k] == target[k]; }
    }
  }

  /** After an upgrade every stored credential opens under the active key. */
  lemma {:induction false} UpgradedOpens(a: Aead, key: string, before: Row, after: Row)
    requires Upgraded(a, key, before, after)
    ensures !NeedsUpgrade(a, key, after)
  {
  }

  lemma {:induction false} NothingToCount(a: Aead, key: string, rows: seq<Row>)
    requires forall i | 0 <= i < |rows| :: !NeedsUpgrade(a, key, rows[i])
    ensures CountUpgrades(a, key, rows) == 0
  {
    if rows != [] { NothingToCount(a, key, rows[1..]); }
  }

  /** A second successful run with the same key reports 0 and changes nothing. */
  lemma {:induction false} SecondRunIsIdle(a: Aead, key: string, first: seq<Row>, second: seq<Row>, third: seq<Row>)
    requires AllUpgraded(a, key, first, second) && AllUpgraded(a, key, second, third)
    ensures CountUpgrades(a, key, second) == 0 && third == second
  {
    forall i | 0 <= i < |second| ensures !NeedsUpgrade(a, key, second[i]) && third[i] == second[i] {
      UpgradedOpens(a, key, first[i], second[i]);
    }
    NothingToCount(a, key, second);
  }

  /** With a different active key, and if ciphertexts commit to their key, the old key is retired. */
  lemma {:induction false} LegacyKeyIsRetired(a: Aead, key: string, before: Row, after: Row)
    requires Committing(a) && KeyOf(key) != KeyOf(LEGACY_KEY) && Upgraded(a, key, before, after)
    ensures after.privateKey != "" ==> Decrypt(a, after.privateKey, LEGACY_KEY).None?
    ensures Text(after.password) != "" ==> Decrypt(a, Text(after.password), LEGACY_KEY).None?
  {
    UpgradedOpens(a, key, before, after);
    if after.privateKey != "" && Decrypt(a, after.privateKey, LEGACY_KEY).Some? {
      OneKeyOpens(a, after.privateKey, key, LEGACY_KEY);
    }
    if Text(after.password) != "" && Decrypt(a, Text(after.password), LEGACY_KEY).Some? {
      OneKeyOpens(a, Text(after.password), key, LEGACY_KEY);
    }
  }
}
