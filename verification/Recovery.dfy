/**
 Replaying the shard logs.  The three logged tables are kept as one map from table and primary
 key to row; a replayed record inserts its row, or updates the few columns that replay carries.
 */
module Recovery {
  import opened Domain
  import opened ShardLog

  datatype MailColumns = MailColumns(mailNo: string, routeId: string, vehicleNo: string, originStation: string,
                                     destStation: string, senderName: string, senderAddr: string, receiverName: string,
                                     receiverAddr: string, responsible: string, shardId: string, dataVersion: int)

  datatype DispColumns = DispColumns(requestNo: string, mailId: string, mailNo: string, kind: string, target: string,
                                     submittedBy: string, reviewedBy: string, reviewNote: string, issuedBy: string,
                                     withdrawnBy: string, withdrawnReason: string, conflictReason: string,
                                     shardId: string, dataVersion: int)

  datatype LedgerColumns = LedgerColumns(date: string, routeId: string, volumeNo: string, formNo: string,
                                         entryType: string, mailNo: string, responsible: string, description: string,
                                         prevState: string, nextState: string, shardId: string, dataVersion: int)

  datatype Row =
    | MailRow(id: Id, mailState: MailState, version: int, handoverId: string, dispositionId: string,
              registeredAt: string, mail: MailColumns)
    | DispRow(id: Id, dispState: DispositionState, version: int, disp: DispColumns)
    | LedgerRow(id: Id, entry: LedgerColumns)

  datatype Key = MailKey(id: Id) | DispKey(id: Id) | LedgerKey(id: Id)

  function KeyOf(row: Row): Key {
    match row
    case MailRow(id, _, _, _, _, _, _) => MailKey(id)
    case DispRow(id, _, _, _) => DispKey(id)
    case LedgerRow(id, _) => LedgerKey(id)
  }

  function ShardOf(row: Row): string {
    match row
    case MailRow(_, _, _, _, _, _, mail) => mail.shardId
    case DispRow(_, _, _, disp) => disp.shardId
    case LedgerRow(_, entry) => entry.shardId
  }

  /** The file that holds the records of a row. */
  function PathOf(row: Row): Path { ShardPath(ShardOf(row)) }

  type Rows = map<Key, Row>

  ghost predicate Keyed(t: Rows) { forall k :: k in t ==> KeyOf(t[k]) == k }

  // ---------------------------------------------------------------- replaying

  /** The row after a record for it is replayed: a mail or disposition keeps most of its columns. */
  function Merge(base: Row, rec: Row): Row {
    match (base, rec)
    case (MailRow(_, _, _, _, _, _, _), MailRow(_, state, version, handoverId, dispositionId, _, _)) =>
      base.(mailState := state, version := version, handoverId := handoverId, dispositionId := dispositionId)
    case (DispRow(_, _, _, _), DispRow(_, state, version, _)) => base.(dispState := state, version := version)
    case (_, _) => rec
  }

  function ReplayOne(t: Rows, rec: Row): Rows {
    var k := KeyOf(rec);
    t[k := if k in t then Merge(t[k], rec) else rec]
  }

  function Replay(t: Rows, recs: seq<Row>): Rows
    decreases recs
  {
    if recs == [] then t else Replay(ReplayOne(t, recs[0]), recs[1..])
  }

  /** The records for one row, oldest first. */
  function OfKey(recs: seq<Row>, k: Key): (r: seq<Row>)
    ensures forall x :: x in r ==> KeyOf(x) == k
    decreases recs
  {
    if recs == [] then [] else (if KeyOf(recs[0]) == k then [recs[0]] else []) + OfKey(recs[1..], k)
  }

  function Last(recs: seq<Row>): Row
    requires recs != []
  {
    recs[|recs| - 1]
  }

  /** What replaying leaves under a key, in terms of that key's first and last record. */
  function Rebuilt(stored: Option<Row>, mine: seq<Row>): Option<Row> {
    if mine == [] then stored
    else Some(Merge(if stored.Some? then stored.value else mine[0], Last(mine)))
  }

  function Lookup(t: Rows, k: Key): Option<Row> { if k in t then Some(t[k]) else None }

  lemma MergeAbsorbs(a: Row, b: Row, c: Row)
    requires KeyOf(a) == KeyOf(b) == KeyOf(c)
    ensures Merge(Merge(a, b), c) == Merge(a, c) && Merge(a, a) == a && KeyOf(Merge(a, b)) == KeyOf(a)
  {
  }

  lemma ReplayOneKeyed(t: Rows, rec: Row)
    requires Keyed(t)
    ensures Keyed(ReplayOne(t, rec))
  {
  }

  /** Replaying any records, in closed form. */
  lemma {:induction false} ReplayIs(t: Rows, recs: seq<Row>, k: Key)
    requires Keyed(t)
    ensures Keyed(Replay(t, recs)) && Lookup(Replay(t, recs), k) == Rebuilt(Lookup(t, k), OfKey(recs, k))
    decreases recs
  {
    if recs == [] {
    } else {
      var rec := recs[0];
      var u := ReplayOne(t, rec);
      ReplayOneKeyed(t, rec);
      ReplayIs(u, recs[1..], k);
      var rest := OfKey(recs[1..], k);
      hide Keyed, Replay, Merge;
      if KeyOf(rec) == k {
        var base := if k in t then t[k] else rec;
        KeyedAt(t, k);
        MergeAbsorbs(base, rec, rec);
        assert ([rec] + rest)[1..] == rest;
        if rest != [] {
          assert Last(rest) in rest;
          assert Last([rec] + rest) == Last(rest);
          MergeAbsorbs(base, rec, Last(rest));
        }
      } else {
        assert [] + rest == rest;
      }
    }
  }

  lemma KeyedAt(t: Rows, k: Key)
    requires Keyed(t)
    ensures k in t ==> KeyOf(t[k]) == k
  {
  }

  /** Whether replaying `b` over `a` changes nothing. */
  predicate SameCarried(a: Row, b: Row) { Merge(a, b) == a }

  lemma SameCarriedMeaning(a: Row, b: Row)
    requires KeyOf(a) == KeyOf(b)
    ensures SameCarried(a, b) <==>
            match a
            case MailRow(_, state, version, handoverId, dispositionId, _, _) =>
              state == b.mailState && version == b.version && handoverId == b.handoverId &&
                  dispositionId == b.dispositionId
            case DispRow(_, state, version, _) => state == b.dispState && version == b.version
            case LedgerRow(_, _) => a == b
  {
  }

  /** The log is up to date: for every logged row, its last record carries what the live row holds. */
  ghost predicate UpToDate(t: Rows, recs: seq<Row>) {
    forall k :: OfKey(recs, k) != [] ==> k in t && SameCarried(t[k], Last(OfKey(recs, k)))
  }

  lemma EqualByLookup(t: Rows, u: Rows)
    requires forall k :: Lookup(t, k) == Lookup(u, k)
    ensures t == u
  {
    forall k ensures k in t <==> k in u {
      assert Lookup(t, k) == Lookup(u, k);
    }
    forall k | k in t ensures t[k] == u[k] {
      assert Lookup(t, k) == Lookup(u, k);
    }
  }

  /** Replay changes nothing if and only if the log is up to date. */
  lemma ReplayIsNoOpIff(t: Rows, recs: seq<Row>)
    requires Keyed(t)
    ensures Replay(t, recs) == t <==> UpToDate(t, recs)
  {
    forall k ensures Lookup(Replay(t, recs), k) == Rebuilt(Lookup(t, k), OfKey(recs, k)) {
      ReplayIs(t, recs, k);
    }
    hide Keyed, Replay, OfKey, Merge;
    if UpToDate(t, recs) {
      forall k ensures Lookup(Replay(t, recs), k) == Lookup(t, k) {
        assert OfKey(recs, k) != [] ==> k in t && SameCarried(t[k], Last(OfKey(recs, k)));
      }
      EqualByLookup(Replay(t, recs), t);
    }
    if Replay(t, recs) == t {
      forall k | OfKey(recs, k) != [] ensures k in t && SameCarried(t[k], Last(OfKey(recs, k))) {
        assert Lookup(t, k) == Rebuilt(Lookup(t, k), OfKey(recs, k));
      }
    }
  }

  /** Replaying twice is replaying once, over any tables. */
  lemma ReplayIsIdempotent(t: Rows, recs: seq<Row>)
    requires Keyed(t)
    ensures Replay(Replay(t, recs), recs) == Replay(t, recs)
  {
    var u := Replay(t, recs);
    forall k ensures Lookup(Replay(u, recs), k) == Lookup(u, k) {
      ReplayIs(t, recs, k);
      ReplayIs(u, recs, k);
      KeyedAt(t, k);
      var mine := OfKey(recs, k);
      if mine != [] {
        assert mine[0] in mine && Last(mine) in mine;
        var base := if k in t then t[k] else mine[0];
        MergeAbsorbs(base, Last(mine), Last(mine));
      }
      hide Keyed, Replay, OfKey, Merge;
    }
    EqualByLookup(Replay(u, recs), u);
  }

  // ---------------------------------------------------------------- shards

  type Logs = map<Path, seq<Row>>

  function Records(logs: Logs, shard: Path): seq<Row> { if shard in logs then logs[shard] else [] }

  /** The records met when shards are recovered in the given order. */
  function InOrder(logs: Logs, shards: seq<Path>): seq<Row>
    decreases shards
  {
    if shards == [] then [] else Records(logs, shards[0]) + InOrder(logs, shards[1..])
  }

  lemma {:induction false} OfKeyConcat(a: seq<Row>, b: seq<Row>, k: Key)
    ensures OfKey(a + b, k) == OfKey(a, k) + OfKey(b, k)
    decreases a
  {
    if a == [] {
      assert a + b == b;
    } else {
      assert (a + b)[1..] == a[1..] + b;
      OfKeyConcat(a[1..], b, k);
    }
  }

  /** The records of one row all lie in one shard. */
  ghost predicate OneShardPerKey(logs: Logs) {
    forall k, s1, s2 :: OfKey(Records(logs, s1), k) != [] && OfKey(Records(logs, s2), k) != [] ==> s1 == s2
  }

  lemma {:induction false} ReplayConcat(t: Rows, a: seq<Row>, b: seq<Row>)
    ensures Replay(t, a + b) == Replay(Replay(t, a), b)
    decreases a
  {
    if a == [] {
      assert a + b == b;
    } else {
      assert (a + b)[1..] == a[1..] + b;
      ReplayConcat(ReplayOne(t, a[0]), a[1..], b);
    }
  }

  /** Some of these shards has a record of the row. */
  ghost predicate RecordIn(logs: Logs, shards: seq<Path>, k: Key) {
    exists p :: p in shards && OfKey(Records(logs, p), k) != []
  }

  lemma {:induction false} RecordsMet(logs: Logs, shards: seq<Path>, k: Key)
    ensures OfKey(InOrder(logs, shards), k) != [] <==> RecordIn(logs, shards, k)
    decreases shards
  {
    if shards == [] {
    } else {
      RecordsMet(logs, shards[1..], k);
      OfKeyConcat(Records(logs, shards[0]), InOrder(logs, shards[1..]), k);
      assert shards == [shards[0]] + shards[1..];
      hide OfKey, Records, InOrder;
      if RecordIn(logs, shards[1..], k) {
        var p :| p in shards[1..] && OfKey(Records(logs, p), k) != [];
        assert p in shards;
      }
    }
  }

  /** Two runs of records that begin and end with the same record: all that replay can tell of them. */
  predicate SameEnds(a: seq<Row>, b: seq<Row>) {
    a != [] && b != [] && a[0] == b[0] && Last(a) == Last(b)
  }

  /**
   Wherever its shard comes, and however often, a row meets the records of that shard first and
   last.
   */
  lemma {:induction false} EndsInOrder(logs: Logs, shards: seq<Path>, shard: Path, k: Key)
    requires OneShardPerKey(logs) && shard in shards && OfKey(Records(logs, shard), k) != []
    ensures SameEnds(OfKey(InOrder(logs, shards), k), OfKey(Records(logs, shard), k))
    decreases shards
  {
    var rest := shards[1..];
    OfKeyConcat(Records(logs, shards[0]), InOrder(logs, rest), k);
    assert shards == [shards[0]] + rest;
    RecordsMet(logs, rest, k);
    assert InOrder(logs, shards) == Records(logs, shards[0]) + InOrder(logs, rest);
    hide OfKey, Records, InOrder;
    var mine := OfKey(Records(logs, shard), k);
    var a, b := OfKey(Records(logs, shards[0]), k), OfKey(InOrder(logs, rest), k);
    if shard in rest {
      EndsInOrder(logs, rest, shard, k);
    } else {
      assert shards[0] == shard;
      forall p | p in rest ensures OfKey(Records(logs, p), k) == [] {
        assert p != shard;
      }
    }
    assert shards[0] != shard ==> a == [];
    EndsJoin(a, b, mine);
  }

  lemma EndsJoin(a: seq<Row>, b: seq<Row>, mine: seq<Row>)
    requires mine != [] && (a == mine || a == []) && (b == [] || SameEnds(b, mine)) && (a == [] ==> b != [])
    ensures SameEnds(a + b, mine)
  {
    if b == [] {
      assert a + b == a;
    } else {
      assert (a + b)[|a + b| - 1] == b[|b| - 1];
    }
  }

  /** Shards can be recovered in any order, and any number of times, when no row's records span two of them. */
  lemma ShardOrderDoesNotMatter(t: Rows, logs: Logs, shards: seq<Path>, other: seq<Path>)
    requires Keyed(t) && OneShardPerKey(logs) && forall s :: s in shards <==> s in other
    ensures Replay(t, InOrder(logs, shards)) == Replay(t, InOrder(logs, other))
  {
    forall k ensures Lookup(Replay(t, InOrder(logs, shards)), k) == Lookup(Replay(t, InOrder(logs, other)), k) {
      ReplayIs(t, InOrder(logs, shards), k);
      ReplayIs(t, InOrder(logs, other), k);
      RecordsMet(logs, shards, k);
      RecordsMet(logs, other, k);
      hide Keyed, Replay, OfKey, OneShardPerKey, InOrder, Records;
      if RecordIn(logs, shards, k) {
        var p :| p in shards && OfKey(Records(logs, p), k) != [];
        EndsInOrder(logs, shards, p, k);
        EndsInOrder(logs, other, p, k);
      } else {
        assert !RecordIn(logs, other, k);
      }
    }
    EqualByLookup(Replay(t, InOrder(logs, shards)), Replay(t, InOrder(logs, other)));
  }
}
