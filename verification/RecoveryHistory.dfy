/**
 Live writes and the logs they leave: replaying the logs over the live tables changes nothing,
 and replaying them into empty tables gives every logged row back.
 */
module RecoveryHistory {
  import opened Domain
  import opened ShardLog
  import opened Recovery

  datatype World = World(rows: Rows, logs: Logs)

  /** One repository write.  A submitted disposition is saved in a transaction that logs nothing. */
  datatype Write = Write(row: Row, logged: bool)

  const EMPTY: World := World(map[], map[])

  /** A ledger entry is only ever inserted; the other tables accept any save. */
  predicate Accepts(t: Rows, row: Row) { row.LedgerRow? ==> KeyOf(row) !in t }

  /** The stored row after a save: every column of the new one, but the first registration time of a mail. */
  function Upserted(stored: Option<Row>, row: Row): Row {
    match (stored, row)
    case (Some(MailRow(_, _, _, _, _, registeredAt, _)), MailRow(_, _, _, _, _, _, _)) =>
      row.(registeredAt := registeredAt)
    case (_, _) => row
  }

  function Live(t: Rows, row: Row): Rows {
    t[KeyOf(row) := Upserted(Lookup(t, KeyOf(row)), row)]
  }

  function Logged(logs: Logs, row: Row): Logs {
    logs[PathOf(row) := Records(logs, PathOf(row)) + [row]]
  }

  function After(w: World, write: Write): World {
    if !Accepts(w.rows, write.row) then w
    else World(Live(w.rows, write.row), if write.logged then Logged(w.logs, write.row) else w.logs)
  }

  function Final(w: World, writes: seq<Write>): World
    decreases writes
  {
    if writes == [] then w else Final(After(w, writes[0]), writes[1..])
  }

  /** Only new submissions go unlogged, and a logged row stays in one shard. */
  ghost predicate Orderly(w: World, write: Write) {
    var k := KeyOf(write.row);
    if write.logged then forall p :: p != PathOf(write.row) ==> OfKey(Records(w.logs, p), k) == []
    else write.row.DispRow? && k !in w.rows
  }

  ghost predicate Serial(w: World, writes: seq<Write>)
    decreases writes
  {
    writes == [] || (Orderly(w, writes[0]) && Serial(After(w, writes[0]), writes[1..]))
  }

  ghost predicate HasRecord(logs: Logs, k: Key) {
    exists p :: OfKey(Records(logs, p), k) != []
  }

  /** The last record of a row carries what the row holds. */
  predicate CarriedAt(w: World, p: Path, k: Key) {
    var mine := OfKey(Records(w.logs, p), k);
    mine != [] ==> k in w.rows && SameCarried(w.rows[k], Last(mine))
  }

  /** Only submissions have no record. */
  ghost predicate RecordedAt(w: World, k: Key) {
    k in w.rows && !k.DispKey? ==> HasRecord(w.logs, k)
  }

  ghost predicate Current(w: World) {
    (forall p, k :: CarriedAt(w, p, k)) && (forall k :: RecordedAt(w, k))
  }

  ghost predicate Invariant(w: World) {
    Keyed(w.rows) && OneShardPerKey(w.logs) && Current(w)
  }

  lemma LoggedOfKey(logs: Logs, row: Row, p: Path, k: Key)
    ensures OfKey(Records(Logged(logs, row), p), k) ==
            OfKey(Records(logs, p), k) + (if p == PathOf(row) && k == KeyOf(row) then [row] else [])
  {
    if p == PathOf(row) {
      OfKeyConcat(Records(logs, p), [row], k);
      assert [row][1..] == [];
      assert OfKey([row], k) == (if k == KeyOf(row) then [row] else []) + OfKey([], k);
    }
  }

  lemma UpsertedCarries(stored: Option<Row>, row: Row)
    requires stored.Some? ==> KeyOf(stored.value) == KeyOf(row)
    ensures KeyOf(Upserted(stored, row)) == KeyOf(row) && SameCarried(Upserted(stored, row), row)
  {
  }

  lemma UnloggedKeeps(w: World, write: Write)
    requires Invariant(w) && Orderly(w, write) && !write.logged
    ensures Invariant(After(w, write))
  {
    var v, key := After(w, write), KeyOf(write.row);
    hide OneShardPerKey;
    forall p, k ensures CarriedAt(v, p, k) {
      assert CarriedAt(w, p, k);
    }
    forall k ensures RecordedAt(v, k) {
      assert RecordedAt(w, k);
    }
  }

  lemma LoggedKeepsShards(w: World, row: Row)
    requires OneShardPerKey(w.logs) && Orderly(w, Write(row, true))
    ensures OneShardPerKey(Logged(w.logs, row))
  {
    var logs := Logged(w.logs, row);
    forall k, s1, s2 | OfKey(Records(logs, s1), k) != [] && OfKey(Records(logs, s2), k) != [] ensures s1 == s2 {
      LoggedOfKey(w.logs, row, s1, k);
      LoggedOfKey(w.logs, row, s2, k);
    }
  }

  lemma LookupKeyed(t: Rows, k: Key)
    requires Keyed(t)
    ensures Lookup(t, k).Some? ==> KeyOf(Lookup(t, k).value) == k
  {
  }

  lemma AfterLogged(w: World, row: Row)
    requires Accepts(w.rows, row)
    ensures var v := After(w, Write(row, true));
            && v.logs == Logged(w.logs, row)
            && v.rows == w.rows[KeyOf(row) := Upserted(Lookup(w.rows, KeyOf(row)), row)]
  {
    hide Accepts, Upserted, Logged, Lookup, KeyOf;
  }

  /** The row just logged is the last record of its key. */
  lemma CarriedNow(w: World, row: Row)
    requires Keyed(w.rows) && Accepts(w.rows, row)
    ensures CarriedAt(After(w, Write(row, true)), PathOf(row), KeyOf(row))
  {
    hide Upserted, PathOf, SameCarried, Keyed, Logged, Records, OfKey, Lookup, KeyOf, After, Accepts;
    AfterLogged(w, row);
    LoggedOfKey(w.logs, row, PathOf(row), KeyOf(row));
    LookupKeyed(w.rows, KeyOf(row));
    UpsertedCarries(Lookup(w.rows, KeyOf(row)), row);
  }

  /** Other rows, and records in other files, are untouched. */
  lemma CarriedElsewhere(w: World, row: Row, p: Path, k: Key)
    requires CarriedAt(w, p, k) && Accepts(w.rows, row)
    requires k == KeyOf(row) ==> p != PathOf(row) && OfKey(Records(w.logs, p), k) == []
    ensures CarriedAt(After(w, Write(row, true)), p, k)
  {
    hide Upserted, PathOf, SameCarried, Logged, Records, OfKey, Lookup, KeyOf, After, Accepts;
    AfterLogged(w, row);
    LoggedOfKey(w.logs, row, p, k);
  }

  lemma CarriedAfter(w: World, row: Row, p: Path, k: Key)
    requires Keyed(w.rows) && CarriedAt(w, p, k) && Orderly(w, Write(row, true)) && Accepts(w.rows, row)
    ensures CarriedAt(After(w, Write(row, true)), p, k)
  {
    hide CarriedAt, Orderly, PathOf, KeyOf, After, Accepts, Keyed, Records, OfKey;
    if p == PathOf(row) && k == KeyOf(row) {
      CarriedNow(w, row);
    } else {
      if p != PathOf(row) {
        OnlyThere(w, row, p);
      }
      CarriedElsewhere(w, row, p, k);
    }
  }

  lemma RecordedAfter(w: World, row: Row, k: Key)
    requires RecordedAt(w, k)
    ensures RecordedAt(After(w, Write(row, true)), k)
  {
    if k == KeyOf(row) {
      LoggedOfKey(w.logs, row, PathOf(row), k);
    } else if HasRecord(w.logs, k) {
      var p :| OfKey(Records(w.logs, p), k) != [];
      LoggedOfKey(w.logs, row, p, k);
    }
    hide Upserted, PathOf, Logged, Records, OfKey, Lookup;
  }

  lemma LoggedKeeps(w: World, row: Row)
    requires Invariant(w) && Orderly(w, Write(row, true)) && Accepts(w.rows, row)
    ensures Invariant(After(w, Write(row, true)))
  {
    var v := After(w, Write(row, true));
    hide OneShardPerKey, Upserted, Orderly, CarriedAt, RecordedAt, Logged, Records;
    KeyedAt(w.rows, KeyOf(row));
    UpsertedCarries(Lookup(w.rows, KeyOf(row)), row);
    LoggedKeepsShards(w, row);
    forall p, k ensures CarriedAt(v, p, k) {
      assert CarriedAt(w, p, k);
      CarriedAfter(w, row, p, k);
    }
    forall k ensures RecordedAt(v, k) {
      assert RecordedAt(w, k);
      RecordedAfter(w, row, k);
    }
  }

  lemma OnlyThere(w: World, row: Row, p: Path)
    requires Orderly(w, Write(row, true)) && p != PathOf(row)
    ensures OfKey(Records(w.logs, p), KeyOf(row)) == []
  {
  }

  lemma WriteKeeps(w: World, write: Write)
    requires Invariant(w) && Orderly(w, write)
    ensures Invariant(After(w, write))
  {
    if !write.logged {
      UnloggedKeeps(w, write);
    } else if Accepts(w.rows, write.row) {
      LoggedKeeps(w, write.row);
    }
    hide Invariant, Orderly;
  }

  lemma {:induction false} InvariantForever(w: World, writes: seq<Write>)
    requires Invariant(w) && Serial(w, writes)
    ensures Invariant(Final(w, writes))
    decreases writes
  {
    if writes == [] {
    } else {
      WriteKeeps(w, writes[0]);
      hide Invariant, After, Orderly;
      InvariantForever(After(w, writes[0]), writes[1..]);
    }
  }

  lemma CurrentIsUpToDate(w: World, shards: seq<Path>)
    requires Invariant(w)
    ensures UpToDate(w.rows, InOrder(w.logs, shards))
  {
    hide OneShardPerKey, SameCarried, Records, Keyed, OfKey, InOrder;
    forall k | OfKey(InOrder(w.logs, shards), k) != []
      ensures k in w.rows && SameCarried(w.rows[k], Last(OfKey(InOrder(w.logs, shards), k)))
    {
      RecordsMet(w.logs, shards, k);
      var s :| s in shards && OfKey(Records(w.logs, s), k) != [];
      EndsInOrder(w.logs, shards, s, k);
      assert CarriedAt(w, s, k);
    }
  }

  /** Replaying any files of a well-kept world over its own rows changes nothing. */
  lemma ReplayKeepsRows(w: World, shards: seq<Path>)
    requires Invariant(w)
    ensures Replay(w.rows, InOrder(w.logs, shards)) == w.rows
  {
    CurrentIsUpToDate(w, shards);
    ReplayIsNoOpIff(w.rows, InOrder(w.logs, shards));
  }

  /**
   After any serial history, replaying any of the shards, in any order and any number of times,
   over the live tables changes nothing.
   */
  lemma RebuildIsNoOp(writes: seq<Write>, shards: seq<Path>)
    requires Serial(EMPTY, writes)
    ensures var w := Final(EMPTY, writes); Replay(w.rows, InOrder(w.logs, shards)) == w.rows
  {
    assert Invariant(EMPTY);
    InvariantForever(EMPTY, writes);
    hide Final, Serial;
    ReplayKeepsRows(Final(EMPTY, writes), shards);
  }

  /** A row as replay gives it back: its first record, with the carried columns it has now. */
  ghost predicate GivenBack(w: World, rebuilt: Rows, k: Key) {
    && k in rebuilt && k in w.rows
    && exists p :: OfKey(Records(w.logs, p), k) != [] && rebuilt[k] == Merge(OfKey(Records(w.logs, p), k)[0], w.rows[k])
  }

  /**
   Replaying shards into empty tables, in any order, gives back exactly the rows that have a
   record in them; if they are all the shards, that is every mail and ledger entry, and the
   dispositions saved again after submission.  A mail or disposition has the columns of its
   first record, with the live carried columns.
   */
  lemma RebuildFromEmpty(writes: seq<Write>, shards: seq<Path>, k: Key)
    requires Serial(EMPTY, writes)
    ensures var w := Final(EMPTY, writes);
            var rebuilt := Replay(map[], InOrder(w.logs, shards));
            && (k in rebuilt <==> RecordIn(w.logs, shards, k))
            && (k in rebuilt ==> GivenBack(w, rebuilt, k) && (k.LedgerKey? ==> rebuilt[k] == w.rows[k]))
            && ((forall p :: p in w.logs ==> p in shards) ==>
                  && (k in rebuilt <==> HasRecord(w.logs, k))
                  && (!k.DispKey? ==> (k in rebuilt <==> k in w.rows)))
  {
    assert Invariant(EMPTY);
    InvariantForever(EMPTY, writes);
    var w := Final(EMPTY, writes);
    hide Final, Serial;
    RebuildOne(w, shards, k);
    if forall p :: p in w.logs ==> p in shards {
      AllShards(w, shards, k);
    }
  }

  lemma AllShards(w: World, shards: seq<Path>, k: Key)
    requires Invariant(w) && forall p :: p in w.logs ==> p in shards
    ensures RecordIn(w.logs, shards, k) <==> HasRecord(w.logs, k)
    ensures !k.DispKey? ==> (HasRecord(w.logs, k) <==> k in w.rows)
  {
    hide OneShardPerKey, Keyed, SameCarried, OfKey;
    assert RecordedAt(w, k);
    if HasRecord(w.logs, k) {
      var p :| OfKey(Records(w.logs, p), k) != [];
      RecordsOutside(w.logs, p, k);
      assert CarriedAt(w, p, k);
    }
  }

  lemma RebuildOne(w: World, shards: seq<Path>, k: Key)
    requires Invariant(w)
    ensures var rebuilt := Replay(map[], InOrder(w.logs, shards));
            && (k in rebuilt <==> RecordIn(w.logs, shards, k))
            && (k in rebuilt ==> GivenBack(w, rebuilt, k) && (k.LedgerKey? ==> rebuilt[k] == w.rows[k]))
  {
    hide Replay, InOrder, OneShardPerKey, Keyed, Merge, SameCarried, OfKey, Records, Orderly;
    var recs := InOrder(w.logs, shards);
    var rebuilt := Replay(map[], recs);
    assert Keyed(map[]) by { KeyedEmpty(); }
    ReplayIs(map[], recs, k);
    RecordsMet(w.logs, shards, k);
    KeyedAt(w.rows, k);
    if RecordIn(w.logs, shards, k) {
      var p :| p in shards && OfKey(Records(w.logs, p), k) != [];
      EndsInOrder(w.logs, shards, p, k);
      assert CarriedAt(w, p, k);
      var mine := OfKey(Records(w.logs, p), k);
      assert mine[0] in mine && Last(mine) in mine;
      assert rebuilt[k] == Merge(mine[0], Last(mine));
      CarriesOver(mine[0], w.rows[k], Last(mine));
      assert GivenBack(w, rebuilt, k);
    }
  }

  lemma KeyedEmpty()
    ensures Keyed(map[])
  {
  }

  lemma RecordsOutside(logs: Logs, p: Path, k: Key)
    ensures OfKey(Records(logs, p), k) != [] ==> p in logs
  {
  }

  lemma CarriesOver(first: Row, live: Row, last: Row)
    requires KeyOf(first) == KeyOf(live) == KeyOf(last) && SameCarried(live, last)
    ensures Merge(first, last) == Merge(first, live) && (live.LedgerRow? ==> Merge(first, live) == live)
  {
  }

  /**
   A crash between the commit and the append loses a record.  Replay over the live tables is
   then a no-op exactly if the row has no record at all, or the lost write left the carried
   columns as they were; otherwise replay undoes them.
   */
  lemma LostAppend(w: World, row: Row, shards: seq<Path>)
    requires Invariant(w) && (forall p :: p in w.logs ==> p in shards) && Accepts(w.rows, row)
    ensures var t := Live(w.rows, row);
            var k := KeyOf(row);
            Replay(t, InOrder(w.logs, shards)) == t <==>
                (HasRecord(w.logs, k) ==> k in w.rows && SameCarried(t[k], w.rows[k]))
  {
    var t, recs, key := Live(w.rows, row), InOrder(w.logs, shards), KeyOf(row);
    LookupKeyed(w.rows, key);
    UpsertedCarries(Lookup(w.rows, key), row);
    assert Keyed(t);
    CurrentIsUpToDate(w, shards);
    KeyRecords(w, shards, key);
    KeyedAt(w.rows, key);
    hide *;
    ReplayIsNoOpIff(t, recs);
    OneRowChanged(w.rows, recs, key, Upserted(Lookup(w.rows, key), row));
    assert t == w.rows[key := Upserted(Lookup(w.rows, key), row)] by { LiveIs(w.rows, row); }
    if OfKey(recs, key) != [] {
      SameCarriedTransfers(t[key], w.rows[key], Last(OfKey(recs, key)));
    }
  }

  lemma LiveIs(t: Rows, row: Row)
    ensures Live(t, row) == t[KeyOf(row) := Upserted(Lookup(t, KeyOf(row)), row)]
  {
  }

  lemma OneRowChanged(t: Rows, recs: seq<Row>, key: Key, row: Row)
    requires UpToDate(t, recs)
    ensures UpToDate(t[key := row], recs) <==> (OfKey(recs, key) != [] ==> SameCarried(row, Last(OfKey(recs, key))))
  {
    hide OfKey, SameCarried;
    var u := t[key := row];
    if OfKey(recs, key) != [] ==> SameCarried(row, Last(OfKey(recs, key))) {
      forall k | OfKey(recs, k) != [] ensures k in u && SameCarried(u[k], Last(OfKey(recs, k))) {
        assert k != key ==> k in t && SameCarried(t[k], Last(OfKey(recs, k)));
      }
    } else {
      assert !SameCarried(u[key], Last(OfKey(recs, key)));
    }
  }

  /** The last record that recovery meets for a row carries what the row holds. */
  lemma KeyRecords(w: World, shards: seq<Path>, k: Key)
    requires Invariant(w) && forall p :: p in w.logs ==> p in shards
    ensures HasRecord(w.logs, k) <==> OfKey(InOrder(w.logs, shards), k) != []
    ensures var mine := OfKey(InOrder(w.logs, shards), k);
            mine != [] ==> KeyOf(Last(mine)) == k && k in w.rows && SameCarried(w.rows[k], Last(mine))
  {
    RecordsMet(w.logs, shards, k);
    AllShards(w, shards, k);
    CurrentIsUpToDate(w, shards);
    hide InOrder, Keyed, OneShardPerKey, SameCarried, Current, OfKey, Records;
    var mine := OfKey(InOrder(w.logs, shards), k);
    if mine != [] {
      assert Last(mine) in mine;
    }
  }

  lemma SameCarriedTransfers(newer: Row, stale: Row, last: Row)
    requires KeyOf(newer) == KeyOf(stale) == KeyOf(last) && SameCarried(stale, last)
    ensures SameCarried(newer, stale) <==> SameCarried(newer, last)
  {
  }
}
