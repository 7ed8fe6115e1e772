/**
  Recovery after a restart: the seven table prefixes keep the rows of the two relays apart in one
  store, and reading a table back by its prefix gives exactly its rows.
*/
module Recovery {
  import opened Escrow
  import opened Relay
  import opened RelayHandle
  import Hex
  import Protocol
  import Store
  import opened Wrappers

  /** The relay from L1 has no table of starts. */
  predicate HasTable(source: Layer, t: Table) {
    source == L1 ==> t != StartTable
  }

  function Prefix(source: Layer, t: Table): string
    requires HasTable(source, t)
  {
    match t
    case StartTable => "L2_StartTx_"
    case SendTable => if source == L1 then "L1_SendTx_" else "L2_SendTx_"
    case AckTable => if source == L1 then "L1_SendAckInfo_" else "L2_SendAck_"
    case ReplyTable => if source == L1 then "L1_ReplyAckInfo_" else "L2_ReplyAck_"
  }

  const HEX_DIGITS := "0123456789abcdef"

  /** An id in a key is the hexadecimal text the contract answers with. */
  function IdText(id: TxId): string {
    if id == [] then [] else [HEX_DIGITS[id[0] / 16], HEX_DIGITS[id[0] % 16]] + IdText(id[1..])
  }

  function DbKey(source: Layer, t: Table, id: TxId): string
    requires HasTable(source, t)
  {
    Prefix(source, t) + IdText(id)
  }

  lemma DigitInjective(a: nat, b: nat)
    requires a < 16 && b < 16 && HEX_DIGITS[a] == HEX_DIGITS[b]
    ensures a == b
  {
  }

  lemma {:induction false} IdTextInjective(a: TxId, b: TxId)
    requires IdText(a) == IdText(b)
    ensures a == b
  {
    if a != [] && b != [] {
      assert IdText(a)[0] == HEX_DIGITS[a[0] / 16] && IdText(a)[1] == HEX_DIGITS[a[0] % 16];
      assert IdText(b)[0] == HEX_DIGITS[b[0] / 16] && IdText(b)[1] == HEX_DIGITS[b[0] % 16];
      DigitInjective(a[0] / 16, b[0] / 16);
      DigitInjective(a[0] % 16, b[0] % 16);
      assert IdText(a)[2..] == IdText(a[1..]) && IdText(b)[2..] == IdText(b[1..]);
      IdTextInjective(a[1..], b[1..]);
      assert a == [a[0]] + a[1..] && b == [b[0]] + b[1..];
    }
  }

  /** No prefix is the beginning of another. */
  lemma PrefixFree(s: Layer, t: Table, s': Layer, t': Table)
    requires HasTable(s, t) && HasTable(s', t') && Store.StartsWith(Prefix(s, t), Prefix(s', t'))
    ensures s == s' && t == t'
  {
    var p, q := Prefix(s, t), Prefix(s', t');
    assert p[..|q|][1] == q[1] && p[..|q|][3] == q[3] && p[..|q|][4] == q[4];
    assert p[..|q|][7] == q[7];
    assert p[..|q|][0] == q[0];
  }

  /** A key of one table begins with the prefix of no other. */
  lemma KeyOfTable(s: Layer, t: Table, id: TxId, s': Layer, t': Table)
    requires HasTable(s, t) && HasTable(s', t') && Store.StartsWith(DbKey(s, t, id), Prefix(s', t'))
    ensures s == s' && t == t'
  {
    var p, q := Prefix(s, t), Prefix(s', t');
    var key := DbKey(s, t, id);
    if |q| <= |p| {
      assert key[..|q|] == p[..|q|];
      PrefixFree(s, t, s', t');
    } else {
      assert key[..|q|][..|p|] == key[..|p|] == p && q[..|p|] == p;
      PrefixFree(s', t', s, t);
    }
  }

  lemma DbKeyInjective(s: Layer, t: Table, id: TxId, s': Layer, t': Table, id': TxId)
    requires HasTable(s, t) && HasTable(s', t') && DbKey(s, t, id) == DbKey(s', t', id')
    ensures s == s' && t == t' && id == id'
  {
    assert Store.StartsWith(DbKey(s', t', id'), Prefix(s', t'));
    KeyOfTable(s, t, id, s', t');
    assert DbKey(s, t, id)[|Prefix(s, t)|..] == IdText(id);
    assert DbKey(s', t', id')[|Prefix(s, t)|..] == IdText(id');
    IdTextInjective(id, id');
  }

  // ---------- Two relays in one store ----------

  type Rows = map<string, Info>

  ghost predicate Found(source: Layer, rows: Rows, db: map<Key, Info>, k: Key) {
    k in db ==>
      && HasTable(source, k.table) && db[k].id == k.id
      && DbKey(source, k.table, k.id) in rows && rows[DbKey(source, k.table, k.id)] == db[k]
  }

  ghost predicate Owned(source: Layer, rows: Rows, db: map<Key, Info>, t: Table, text: string)
    requires HasTable(source, t)
  {
    text in rows && Store.StartsWith(text, Prefix(source, t)) ==>
      exists id :: Key(t, id) in db && text == DbKey(source, t, id)
  }

  /** The store holds the relay's table rows under their keys, and nothing else under its prefixes. */
  ghost predicate OnDisk(source: Layer, rows: Rows, db: map<Key, Info>) {
    && (forall k :: Found(source, rows, db, k))
    && (forall t, text :: HasTable(source, t) ==> Owned(source, rows, db, t, text))
  }

  lemma PutFound(source: Layer, rows: Rows, db: map<Key, Info>, writer: Layer, t: Table, i: Info, k: Key)
    requires HasTable(writer, t) && Found(source, rows, db, k)
    ensures Found(source, rows[DbKey(writer, t, i.id) := i], if writer == source then db[Key(t, i.id) := i] else db, k)
  {
    if k in db && DbKey(source, k.table, k.id) == DbKey(writer, t, i.id) {
      DbKeyInjective(source, k.table, k.id, writer, t, i.id);
    }
  }

  lemma PutOwned(source: Layer, rows: Rows, db: map<Key, Info>, writer: Layer, t: Table, i: Info, u: Table,
                 text: string)
    requires HasTable(writer, t) && HasTable(source, u) && Owned(source, rows, db, u, text)
    ensures var db' := if writer == source then db[Key(t, i.id) := i] else db;
      Owned(source, rows[DbKey(writer, t, i.id) := i], db', u, text)
  {
    if Store.StartsWith(text, Prefix(source, u)) {
      if text == DbKey(writer, t, i.id) {
        KeyOfTable(writer, t, i.id, source, u);
        assert Key(u, i.id) in db[Key(t, i.id) := i];
      } else if text in rows {
        var id :| Key(u, id) in db && text == DbKey(source, u, id);
        assert Key(u, id) in db[Key(t, i.id) := i];
      }
    }
  }

  /** A row written by either relay appears in its own table and nowhere else. */
  lemma PutOnDisk(source: Layer, rows: Rows, db: map<Key, Info>, writer: Layer, t: Table, i: Info)
    requires OnDisk(source, rows, db) && HasTable(writer, t)
    ensures OnDisk(source, rows[DbKey(writer, t, i.id) := i], if writer == source then db[Key(t, i.id) := i] else db)
  {
    var rows', db' := rows[DbKey(writer, t, i.id) := i], if writer == source then db[Key(t, i.id) := i] else db;
    forall k ensures Found(source, rows', db', k) { PutFound(source, rows, db, writer, t, i, k); }
    forall u, text | HasTable(source, u)
      ensures Owned(source, rows', db', u, text)
    {
      PutOwned(source, rows, db, writer, t, i, u, text);
    }
  }

  lemma DeleteFound(source: Layer, rows: Rows, db: map<Key, Info>, writer: Layer, t: Table, id: TxId, k: Key)
    requires HasTable(writer, t) && Found(source, rows, db, k)
    ensures Found(source, rows - {DbKey(writer, t, id)}, if writer == source then db - {Key(t, id)} else db, k)
  {
    if k in db && DbKey(source, k.table, k.id) == DbKey(writer, t, id) {
      DbKeyInjective(source, k.table, k.id, writer, t, id);
    }
  }

  lemma DeleteOwned(source: Layer, rows: Rows, db: map<Key, Info>, writer: Layer, t: Table, id: TxId, u: Table,
                    text: string)
    requires HasTable(writer, t) && HasTable(source, u) && Owned(source, rows, db, u, text)
    ensures Owned(source, rows - {DbKey(writer, t, id)}, if writer == source then db - {Key(t, id)} else db, u, text)
  {
    if text in rows && text != DbKey(writer, t, id) && Store.StartsWith(text, Prefix(source, u)) {
      var j :| Key(u, j) in db && text == DbKey(source, u, j);
      assert writer == source ==> Key(u, j) in db - {Key(t, id)};
    }
  }

  lemma DeleteOnDisk(source: Layer, rows: Rows, db: map<Key, Info>, writer: Layer, t: Table, id: TxId)
    requires OnDisk(source, rows, db) && HasTable(writer, t)
    ensures OnDisk(source, rows - {DbKey(writer, t, id)}, if writer == source then db - {Key(t, id)} else db)
  {
    var rows', db' := rows - {DbKey(writer, t, id)}, if writer == source then db - {Key(t, id)} else db;
    forall k ensures Found(source, rows', db', k) { DeleteFound(source, rows, db, writer, t, id, k); }
    forall u, text | HasTable(source, u)
      ensures Owned(source, rows', db', u, text)
    {
      DeleteOwned(source, rows, db, writer, t, id, u, text);
    }
  }

  /** What a command of a relay does to the store. */
  function RowsAfter(writer: Layer, rows: Rows, c: Cmd): Rows
    requires (c.DbPut? || c.DbDelete?) ==> HasTable(writer, c.table)
  {
    match c
    case DbPut(t, i) => rows[DbKey(writer, t, i.id) := i]
    case DbDelete(t, id) => rows - {DbKey(writer, t, id)}
    case _ => rows
  }

  /** Whichever relay carries out a command, both find their own tables in the store, changed only by themselves. */
  lemma CommandOnDisk(source: Layer, rows: Rows, a: Agent, writer: Layer, c: Cmd, now: int)
    requires OnDisk(source, rows, a.db) && !Submits(c)
    requires (c.DbPut? || c.DbDelete?) ==> HasTable(writer, c.table)
    ensures OnDisk(source, RowsAfter(writer, rows, c), if writer == source then Local(a, c, now).db else a.db)
  {
    match c {
      case DbPut(t, i) => PutOnDisk(source, rows, a.db, writer, t, i);
      case DbDelete(t, id) => DeleteOnDisk(source, rows, a.db, writer, t, id);
      case _ =>
    }
  }

  /** A scan of a table's prefix finds exactly the table's rows. */
  lemma ScanFinds(source: Layer, rows: Rows, db: map<Key, Info>, t: Table, values: set<Info>)
    requires OnDisk(source, rows, db) && HasTable(source, t)
    requires values == set k | k in rows && Store.StartsWith(k, Prefix(source, t)) :: rows[k]
    ensures forall i :: i in values <==> Key(t, i.id) in db && db[Key(t, i.id)] == i
  {
    forall i | i in values ensures Key(t, i.id) in db && db[Key(t, i.id)] == i {
      var k :| k in rows && Store.StartsWith(k, Prefix(source, t)) && rows[k] == i;
      assert Owned(source, rows, db, t, k);
      var id :| Key(t, id) in db && k == DbKey(source, t, id);
      assert Found(source, rows, db, Key(t, id));
    }
    forall i: Info | Key(t, i.id) in db && db[Key(t, i.id)] == i ensures i in values {
      assert Found(source, rows, db, Key(t, i.id));
      assert Store.StartsWith(DbKey(source, t, i.id), Prefix(source, t));
      assert rows[DbKey(source, t, i.id)] in values;
    }
  }

  lemma RowsAre(source: Layer, rows: Rows, db: map<Key, Info>)
    requires OnDisk(source, rows, db)
    ensures forall k :: k in db ==> db[k].id == k.id && HasTable(source, k.table)
  {
    forall k | k in db ensures db[k].id == k.id && HasTable(source, k.table) { assert Found(source, rows, db, k); }
  }

  // ---------- Initialize ----------

  /** Memory holds the rows read so far. */
  ghost predicate Loaded(mem: map<Key, Entry>, db: map<Key, Info>, done: set<Table>, now: int) {
    && (forall k :: k in mem <==> k in db && k.table in done)
    && (forall k :: k in mem ==> mem[k] == Entry(db[k], now + ACK_PERIOD))
  }

  /** Put the rows of one table into memory, in whatever order the set gives them. */
  method Load(h: Handle, t: Table, values: set<Info>, ghost db: map<Key, Info>, ghost done: set<Table>, now: int)
    requires t !in done && Loaded(h.mem, db, done, now)
    requires forall i :: i in values <==> Key(t, i.id) in db && db[Key(t, i.id)] == i
    requires forall k :: k in db ==> db[k].id == k.id
    modifies h`mem
    ensures Loaded(h.mem, db, done + {t}, now)
  {
    var left := values;
    while left != {}
      invariant left <= values
      invariant forall k :: k in h.mem <==>
        k in db && (k.table in done || (k.table == t && exists i :: i in values - left && i.id == k.id))
      invariant forall k :: k in h.mem ==> h.mem[k] == Entry(db[k], now + ACK_PERIOD)
      decreases |left|
    {
      var i :| i in left;
      if Key(t, i.id) !in h.mem {
        h.mem := h.mem[Key(t, i.id) := Entry(i, now + ACK_PERIOD)];
      }
      left := left - {i};
    }
    forall k | k in db && k.table == t ensures k in h.mem {
      assert db[Key(t, k.id)] == db[k];
    }
  }

  /** Read one table back: scan its prefix and put what is found into memory. */
  method LoadTable(h: Handle, rows: Rows, keys: seq<string>, t: Table, ghost done: set<Table>, now: int)
    requires Store.Sorted(keys) && forall k :: k in keys <==> k in rows
    requires OnDisk(h.source, rows, h.db) && HasTable(h.source, t)
    requires t !in done && Loaded(h.mem, h.db, done, now)
    modifies h`mem
    ensures Loaded(h.mem, h.db, done + {t}, now)
  {
    var values := Store.GetAllByIterator(rows, keys, Prefix(h.source, t));
    ScanFinds(h.source, rows, h.db, t, values);
    RowsAre(h.source, rows, h.db);
    Load(h, t, values, h.db, done, now);
  }

  lemma AllLoaded(mem: map<Key, Entry>, db: map<Key, Info>, now: int)
    requires Loaded(mem, db, {StartTable, SendTable, AckTable, ReplyTable}, now) && forall k :: k in db ==>
      db[k].id == k.id
    ensures Agent(mem, db) == Protocol.Reloaded(Agent(map[], db), now) && InStep(Agent(mem, db))
  {
    forall k | k in db ensures k in mem {
      match k.table { case StartTable => case SendTable => case AckTable => case ReplyTable => }
    }
    assert mem == Protocol.Reloaded(Agent(map[], db), now).mem;
  }

  /**
    Start of a relay on an existing store: afterwards memory holds exactly the rows its tables have
    in the store, each to be looked at again after one period.
  */
  method Initialize(h: Handle, rows: Rows, keys: seq<string>, now: int)
    requires Store.Sorted(keys) && forall k :: k in keys <==> k in rows
    requires h.mem == map[] && OnDisk(h.source, rows, h.db)
    modifies h`mem
    ensures h.Tables() == Protocol.Reloaded(Agent(map[], h.db), now) && h.Valid()
  {
    RowsAre(h.source, rows, h.db);
    if h.source == L2 {
      LoadTable(h, rows, keys, StartTable, {}, now);
    }
    LoadTable(h, rows, keys, SendTable, {StartTable}, now);
    LoadTable(h, rows, keys, AckTable, {StartTable, SendTable}, now);
    LoadTable(h, rows, keys, ReplyTable, {StartTable, SendTable, AckTable}, now);
    AllLoaded(h.mem, h.db, now);
  }

  /** The text of an id is its hexadecimal text. */
  lemma {:induction false} IdTextIsHex(id: TxId)
    ensures IdText(id) == Hex.HexOf(id)
  {
    if id != [] {
      IdTextIsHex(id[1..]);
      assert forall i :: 0 <= i < 2 * |id| - 2 ==> Hex.Nibble(id, 2 + i) == Hex.Nibble(id[1..], i);
      assert HEX_DIGITS[id[0] / 16] == Hex.HexDigit(id[0] / 16) && HEX_DIGITS[id[0] % 16] == Hex.HexDigit(id[0] % 16);
    }
  }
}
