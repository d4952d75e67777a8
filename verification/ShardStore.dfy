/**
 The store as it runs: a write commits to the tables and then appends its record to a shard
 file; recovery reads every file back, line by line.  Encoding records as JSON is represented
 by a pair of functions with the properties assumed of it in `Codec`.
 */
module ShardStore {
  import opened Domain
  import opened ShardLog
  import opened Recovery
  import opened RecoveryHistory

  /** What a line of a shard file decodes to.  A handover fails to replay; an unknown type is ignored. */
  datatype Record = RowRecord(row: Row) | HandoverRecord | UnknownRecord

  type Encoder = Row -> Bytes

  type Decoder = Bytes -> Option<Record>

  ghost predicate Codec(encode: Encoder, decode: Decoder) {
    forall row :: decode(encode(row)) == Some(RowRecord(row)) && OneLine(encode(row)) && encode(row) != []
  }

  function Encoded(recs: seq<Row>, encode: Encoder): (r: seq<Bytes>)
    ensures |r| == |recs| && forall i :: 0 <= i < |r| ==> r[i] == encode(recs[i])
    decreases recs
  {
    if recs == [] then [] else [encode(recs[0])] + Encoded(recs[1..], encode)
  }

  /** The rows among the lines that decode; all other lines are skipped. */
  function RowsIn(lines: seq<Bytes>, decode: Decoder): seq<Row>
    decreases lines
  {
    if lines == [] then []
    else
      (match decode(lines[0])
       case Some(RowRecord(row)) => [row]
       case _ => []) + RowsIn(lines[1..], decode)
  }

  /** Lines that replay without an error. */
  function Replayed(lines: seq<Bytes>, decode: Decoder): nat
    decreases lines
  {
    if lines == [] then 0
    else
      var ok := decode(lines[0]).Some? && !decode(lines[0]).value.HandoverRecord?;
      (if ok then 1 else 0) + Replayed(lines[1..], decode)
  }

  function FileRows(data: Bytes, decode: Decoder): seq<Row> { RowsIn(NonEmpty(Pieces(data)), decode) }

  lemma {:induction false} DecodeEncoded(recs: seq<Row>, encode: Encoder, decode: Decoder)
    requires Codec(encode, decode)
    ensures RowsIn(Encoded(recs, encode), decode) == recs
    decreases recs
  {
    if recs == [] {
    } else {
      DecodeEncoded(recs[1..], encode, decode);
      assert Encoded(recs, encode)[1..] == Encoded(recs[1..], encode);
      assert recs == [recs[0]] + recs[1..];
    }
  }

  /**
   What one line adds, whatever stands before and after it: its row, if it decodes to one; a
   damaged, handover or unknown line adds no row, and counts as replayed only if it is unknown.
   */
  lemma {:induction false} EachLineCounts(before: seq<Bytes>, line: Bytes, after: seq<Bytes>, decode: Decoder)
    ensures RowsIn(before + [line] + after, decode) ==
            RowsIn(before, decode) +
            (match decode(line) case Some(RowRecord(row)) => [row] case _ => []) +
            RowsIn(after, decode)
    ensures Replayed(before + [line] + after, decode) ==
            Replayed(before, decode) +
            (match decode(line) case None => 0 case Some(HandoverRecord) => 0 case Some(_) => 1) +
            Replayed(after, decode)
    ensures RowsIn([], decode) == [] && Replayed([], decode) == 0
    decreases before
  {
    if before == [] {
      assert (before + [line] + after)[1..] == after && (before + [line] + after)[0] == line;
    } else {
      assert (before + [line] + after)[1..] == before[1..] + [line] + after;
      EachLineCounts(before[1..], line, after, decode);
    }
  }

  /**
   A crash in the middle of an append.  Recovery gives back every row appended before, and from
   then on every row but the next one appended, which is glued to the torn record.
   */
  lemma TornFileRecovers(before: seq<Row>, torn: Bytes, next: Row, after: seq<Row>, encode: Encoder, decode: Decoder)
    requires Codec(encode, decode) && OneLine(torn) && decode(torn).None? && decode(torn + encode(next)).None?
    ensures FileRows(Framed(Encoded(before, encode)) + torn, decode) == before
    ensures FileRows(Framed(Encoded(before, encode)) + torn + Framed(Encoded([next] + after, encode)), decode) ==
            before + after
  {
    hide Framed, Pieces, NonEmpty, Encoded, RowsIn, Codec;
    var ls, ms := Encoded(before, encode), Encoded(after, encode);
    LinesOf(before, encode, decode);
    LinesOf(after, encode, decode);
    EncodedCons(next, after, encode);
    CodecAt(next, encode, decode);
    assert torn != [] by {
      assert [] + encode(next) == encode(next);
    }
    TornAppend(ls, torn);
    TornRecordSpoilsOne(ls, torn, encode(next), ms);
    EachLineCounts(ls, torn, [], decode);
    EachLineCounts(ls, torn + encode(next), ms, decode);
    assert ls + [torn] + [] == ls + [torn];
    assert before + [] + [] == before && before + [] + after == before + after;
  }

  lemma CodecAt(row: Row, encode: Encoder, decode: Decoder)
    requires Codec(encode, decode)
    ensures decode(encode(row)) == Some(RowRecord(row)) && OneLine(encode(row)) && encode(row) != []
  {
  }

  lemma EncodedCons(next: Row, after: seq<Row>, encode: Encoder)
    ensures Encoded([next] + after, encode) == [encode(next)] + Encoded(after, encode)
  {
    assert ([next] + after)[1..] == after;
  }

  /** Encoded rows are non-empty single lines, and decode to the rows. */
  lemma LinesOf(recs: seq<Row>, encode: Encoder, decode: Decoder)
    requires Codec(encode, decode)
    ensures var ls := Encoded(recs, encode);
            AllOneLine(ls) && [] !in ls && NonEmpty(ls) == ls && RowsIn(ls, decode) == recs
  {
    DecodeEncoded(recs, encode, decode);
    NonEmptyAll(Encoded(recs, encode));
    hide NonEmpty, RowsIn;
  }

  /** A file of appended rows reads back as exactly those rows. */
  lemma FileRoundTrip(recs: seq<Row>, encode: Encoder, decode: Decoder)
    requires Codec(encode, decode)
    ensures FileRows(Framed(Encoded(recs, encode)), decode) == recs
  {
    FramingRoundTrip(Encoded(recs, encode));
    DecodeEncoded(recs, encode, decode);
  }

  type Disk = map<Path, Bytes>

  /** Recovery of the listed files, one after another; a file that cannot be opened is passed over. */
  function RecoverListed(t: Rows, disk: Disk, listing: seq<Path>, decode: Decoder): Rows
    decreases listing
  {
    if listing == [] then t
    else
      var p := Reopened(listing[0]);
      RecoverListed(if p in disk then Replay(t, FileRows(disk[p], decode)) else t, disk, listing[1..], decode)
  }

  function Damaged(disk: Disk, listing: seq<Path>): seq<Path>
    decreases listing
  {
    if listing == [] then []
    else (if Reopened(listing[0]) in disk then [] else [listing[0]]) + Damaged(disk, listing[1..])
  }

  /** Lines replayed, and all lines, over the listed files that can be opened. */
  function Tally(disk: Disk, listing: seq<Path>, decode: Decoder): (nat, nat)
    decreases listing
  {
    if listing == [] then (0, 0)
    else
      var rest := Tally(disk, listing[1..], decode);
      var p := Reopened(listing[0]);
      if p !in disk then rest
      else
        var lines := NonEmpty(Pieces(disk[p]));
        (Replayed(lines, decode) + rest.0, |lines| + rest.1)
  }

  /** The files hold exactly the logged rows. */
  ghost predicate Holds(disk: Disk, logs: Logs, encode: Encoder) {
    disk.Keys == logs.Keys && forall p :: p in disk ==> disk[p] == Framed(Encoded(logs[p], encode))
  }

  /** Files that recovery opens under the name it lists them by. */
  predicate Reopenable(disk: Disk, listing: seq<Path>) {
    forall p :: p in listing ==> p in disk && Reopened(p) == p
  }

  /** The files that recovery opens for those it has listed. */
  function ReopenedAll(listing: seq<Path>): seq<Path>
    decreases listing
  {
    if listing == [] then [] else [Reopened(listing[0])] + ReopenedAll(listing[1..])
  }

  /** Recovering files that hold the logged rows replays the rows of the files opened, in the order of the listing. */
  lemma {:induction false} RecoverIsReplay(t: Rows, disk: Disk, logs: Logs, listing: seq<Path>,
                                           encode: Encoder, decode: Decoder)
    requires Codec(encode, decode) && Holds(disk, logs, encode)
    ensures RecoverListed(t, disk, listing, decode) == Replay(t, InOrder(logs, ReopenedAll(listing)))
    decreases listing
  {
    if listing == [] {
    } else {
      var p, rest := Reopened(listing[0]), ReopenedAll(listing[1..]);
      assert ([p] + rest)[1..] == rest;
      assert p in disk.Keys <==> p in logs.Keys;
      if p in disk {
        FileRoundTrip(logs[p], encode, decode);
      }
      RecoverIsReplay(Replay(t, Records(logs, p)), disk, logs, listing[1..], encode, decode);
      hide Codec, FileRows, Replay, Reopened;
      ReplayConcat(t, Records(logs, p), InOrder(logs, rest));
      ReplayNothing(t);
    }
  }

  lemma ReplayNothing(t: Rows)
    ensures Replay(t, []) == t
  {
  }

  lemma {:induction false} ReopenableListing(disk: Disk, listing: seq<Path>)
    requires Reopenable(disk, listing)
    ensures ReopenedAll(listing) == listing && Damaged(disk, listing) == []
    decreases listing
  {
    if listing == [] {
    } else {
      ReopenableListing(disk, listing[1..]);
    }
  }

  /** After a serial history, recovering any listing of files over the live tables leaves every row as it is. */
  lemma RecoveryOverLiveTables(writes: seq<Write>, disk: Disk, listing: seq<Path>, encode: Encoder, decode: Decoder)
    requires Codec(encode, decode) && Serial(EMPTY, writes) && Holds(disk, Final(EMPTY, writes).logs, encode)
    ensures RecoverListed(Final(EMPTY, writes).rows, disk, listing, decode) == Final(EMPTY, writes).rows
  {
    RebuildIsNoOp(writes, ReopenedAll(listing));
    hide Serial, Final, Codec, Holds;
    RecoverIsReplay(Final(EMPTY, writes).rows, disk, Final(EMPTY, writes).logs, listing, encode, decode);
  }

  /**
   Into empty tables, recovery of any listing gives back exactly the rows with a record in a
   file that it opens: those of a shard without a route stay lost, unless some listed file is
   opened under that shard's name.
   */
  lemma RecoveryIntoEmptyTables(writes: seq<Write>, disk: Disk, listing: seq<Path>,
                                encode: Encoder, decode: Decoder, k: Key)
    requires Codec(encode, decode) && Serial(EMPTY, writes) && Holds(disk, Final(EMPTY, writes).logs, encode)
    ensures var w := Final(EMPTY, writes);
            var rebuilt := RecoverListed(map[], disk, listing, decode);
            && (k in rebuilt <==> RecordIn(w.logs, ReopenedAll(listing), k))
            && (k in rebuilt ==> GivenBack(w, rebuilt, k))
  {
    RebuildFromEmpty(writes, ReopenedAll(listing), k);
    hide Serial, Final, Codec, Holds;
    RecoverIsReplay(map[], disk, Final(EMPTY, writes).logs, listing, encode, decode);
  }

  datatype Report = Report(total: nat, rebuilt: nat, damaged: seq<Path>, records: nat, errors: nat)

  /**
   The tables after this row is saved: a mail takes every column of it but the registration time, which
   stays as first stored; a disposition or ledger entry is stored as it is; all other rows stay.
   */
  predicate TakesRow(before: Rows, after: Rows, row: Row) {
    match row
    case MailRow(id, state, version, handoverId, dispositionId, registeredAt, mail) =>
      var k := MailKey(id);
      var first := if k in before && before[k].MailRow? then before[k].registeredAt else registeredAt;
      after == before[k := MailRow(id, state, version, handoverId, dispositionId, first, mail)]
    case DispRow(id, _, _, _) => after == before[DispKey(id) := row]
    case LedgerRow(id, _) => after == before[LedgerKey(id) := row] && LedgerKey(id) !in before
  }

  /**
   The tables after a record of this row is replayed: a mail already there takes its state, version,
   handover and disposition, a disposition its state and version, a ledger entry everything.
   */
  predicate TakesRecord(before: Rows, after: Rows, row: Row) {
    match row
    case MailRow(id, state, version, handoverId, dispositionId, _, _) =>
      var k := MailKey(id);
      if k in before && before[k].MailRow? then
        after == before[k := MailRow(before[k].id, state, version, handoverId, dispositionId,
                                     before[k].registeredAt, before[k].mail)]
      else after == before[k := row]
    case DispRow(id, state, version, _) =>
      var k := DispKey(id);
      if k in before && before[k].DispRow? then
        after == before[k := DispRow(before[k].id, state, version, before[k].disp)]
      else after == before[k := row]
    case LedgerRow(id, _) => after == before[LedgerKey(id) := row]
  }

  /** The shard files after a row is logged: one more line in the file of the shard that the row names. */
  predicate TakesLine(before: Disk, after: Disk, row: Row, line: Bytes) {
    var shardId := match row
      case MailRow(_, _, _, _, _, _, mail) => mail.shardId
      case DispRow(_, _, _, disp) => disp.shardId
      case LedgerRow(_, entry) => entry.shardId;
    var p := Path(SplitShardId(shardId).0, SplitShardId(shardId).1 + ".jsonl");
    after == before[p := (if p in before then before[p] else []) + line + [10]]
  }

  /** A save is refused for a ledger entry already stored, and changes nothing; any other save takes its row. */
  predicate SaveAnswers(before: Rows, after: Rows, row: Row, saved: bool) {
    && (saved <==> !(row.LedgerRow? && LedgerKey(row.id) in before))
    && if saved then TakesRow(before, after, row) else after == before
  }

  class Store {
    const encode: Encoder
    const decode: Decoder
    var rows: Rows
    var disk: Disk
    ghost var logs: Logs

    ghost predicate Valid()
      reads this
    {
      Codec(encode, decode) && Holds(disk, logs, encode)
    }

    ghost function Value(): World
      reads this
    {
      World(rows, logs)
    }

    constructor (encode: Encoder, decode: Decoder)
      requires Codec(encode, decode)
      ensures Valid() && Value() == EMPTY && this.encode == encode && this.decode == decode
    {
      this.encode, this.decode := encode, decode;
      rows, disk, logs := map[], map[], map[];
    }

    /** Appends one line and reports where it starts. */
    method Append(shardId: string, record: Bytes) returns (position: nat)
      modifies this`disk
      ensures var p := Path(SplitShardId(shardId).0, SplitShardId(shardId).1 + ".jsonl");
              var before := if p in old(disk) then old(disk)[p] else [];
              disk == old(disk)[p := before + record + [10]] && position == |before|
    {
      var p := ShardPath(shardId);
      if p !in disk {
        disk := disk[p := []];
      }
      position := |disk[p]|;
      disk := disk[p := disk[p] + record + [NEWLINE]];
    }

    /** The table write of a save, in its transaction; a second ledger entry under one key is refused. */
    method Commit(row: Row) returns (saved: bool)
      modifies this`rows
      ensures saved == Accepts(old(rows), row)
      ensures rows == if saved then Live(old(rows), row) else old(rows)
      ensures SaveAnswers(old(rows), rows, row, saved)
    {
      var k := KeyOf(row);
      if row.LedgerRow? && k in rows {
        return false;
      }
      rows := rows[k := Upserted(if k in rows then Some(rows[k]) else None, row)];
      return true;
    }

    /** Commit, then append to the shard file: a logged write. */
    method Save(row: Row) returns (saved: bool)
      requires Valid()
      modifies this
      ensures Valid() && Value() == After(old(Value()), Write(row, true)) && saved == Accepts(old(rows), row)
      ensures SaveAnswers(old(rows), rows, row, saved)
      ensures if saved then TakesLine(old(disk), disk, row, encode(row)) else disk == old(disk)
      ensures old(Invariant(Value()) && Orderly(Value(), Write(row, true))) ==> Invariant(Value())
    {
      hide Invariant, Orderly, Holds, Codec, SaveAnswers;
      KeepsIf(Value(), Write(row, true));
      saved := Commit(row);
      if saved {
        AppendHolds(disk, logs, row, encode);
        var _ := Append(ShardOf(row), encode(row));
        logs := Logged(logs, row);
      }
    }

    /** A save inside the caller's own transaction: nothing is logged. */
    method SaveTx(row: Row) returns (saved: bool)
      requires Valid()
      modifies this`rows
      ensures Valid() && Value() == After(old(Value()), Write(row, false)) && saved == Accepts(old(rows), row)
      ensures SaveAnswers(old(rows), rows, row, saved)
      ensures old(Invariant(Value()) && Orderly(Value(), Write(row, false))) ==> Invariant(Value())
    {
      hide Invariant, Orderly;
      KeepsIf(Value(), Write(row, false));
      saved := Commit(row);
    }

    /** Replays one record; a handover fails, and an unknown type changes nothing. */
    method ReplayRecord(rec: Record) returns (replayed: bool)
      modifies this`rows
      ensures rec.RowRecord? ==> TakesRecord(old(rows), rows, rec.row)
      ensures !rec.RowRecord? ==> rows == old(rows)
      ensures rows == AfterLine(old(rows), Some(rec)) && replayed == !rec.HandoverRecord?
    {
      match rec {
        case RowRecord(row) =>
          var k := KeyOf(row);
          rows := rows[k := if k in rows then Merge(rows[k], row) else row];
          return true;
        case HandoverRecord => return false;
        case UnknownRecord => return true;
      }
    }

    /** Replays one file, whatever it holds; lines that do not decode are counted and skipped. */
    method RecoverShard(path: Path) returns (readable: bool, records: nat, errors: nat)
      modifies this`rows
      ensures readable == (path in disk)
      ensures !readable ==> rows == old(rows) && records == errors == 0
      ensures readable ==> rows == Replay(old(rows), FileRows(disk[path], decode))
      ensures readable ==> var lines := NonEmpty(Pieces(disk[path]));
                         records == Replayed(lines, decode) && records + errors == |lines|
    {
      records, errors := 0, 0;
      if path !in disk {
        return false, 0, 0;
      }
      var lines := SplitLines(disk[path]);
      hide NonEmpty, Pieces, Replay, RowsIn, Replayed, AfterLine;
      var i := 0;
      assert lines[0..] == lines;
      while i < |lines|
        invariant 0 <= i <= |lines|
        invariant Replay(old(rows), RowsIn(lines, decode)) == Replay(rows, RowsIn(lines[i..], decode))
        invariant Replayed(lines, decode) == records + Replayed(lines[i..], decode) && records + errors == i
      {
        LineNext(rows, lines, i, decode);
        var replayed := false;
        var rec := decode(lines[i]);
        if rec.Some? {
          replayed := ReplayRecord(rec.value);
        }
        if replayed {
          records := records + 1;
        } else {
          errors := errors + 1;
        }
        i := i + 1;
      }
      NoLines(rows, lines, decode);
      return true, records, errors;
    }

    /**
     Recovers the listed files in the given order.  When the files hold the logged rows, this
     replays exactly the rows of the files it opens, and over well-kept tables changes nothing.
     */
    method RecoverFromShards(listing: seq<Path>) returns (report: Report)
      modifies this`rows
      ensures rows == RecoverListed(old(rows), disk, listing, decode)
      ensures report.total == |listing| == report.rebuilt + |report.damaged| && report.damaged == Damaged(disk, listing)
      ensures report.records == Tally(disk, listing, decode).0
      ensures report.records + report.errors == Tally(disk, listing, decode).1 + |report.damaged|
      ensures old(Valid()) ==> Valid() && rows == Replay(old(rows), InOrder(logs, ReopenedAll(listing)))
      ensures old(Valid()) && Reopenable(disk, listing) ==>
                rows == Replay(old(rows), InOrder(logs, listing)) && report.damaged == []
      ensures old(Valid()) && Invariant(old(Value())) ==> rows == old(rows)
    {
      hide RecoverListed, Damaged, Tally, Replayed, NonEmpty, Pieces, Replay, FileRows, Reopened, Codec, Holds,
          Reopenable, InOrder, ReopenedAll, Invariant;
      report := Report(0, 0, [], 0, 0);
      var i := 0;
      assert listing[0..] == listing;
      while i < |listing|
        invariant 0 <= i <= |listing|
        invariant RecoverListed(old(rows), disk, listing, decode) == RecoverListed(rows, disk, listing[i..], decode)
        invariant report.total == i == report.rebuilt + |report.damaged|
        invariant Damaged(disk, listing) == report.damaged + Damaged(disk, listing[i..])
        invariant Tally(disk, listing, decode).0 == report.records + Tally(disk, listing[i..], decode).0
        invariant Tally(disk, listing, decode).1 + |report.damaged| ==
                  report.records + report.errors + Tally(disk, listing[i..], decode).1
      {
        FileNext(rows, disk, listing, i, decode);
        TallyNext(disk, listing, i, decode);
        var readable, records, errors := RecoverShard(Reopened(listing[i]));
        report := report.(total := report.total + 1, records := report.records + records,
                          errors := report.errors + errors);
        if readable {
          report := report.(rebuilt := report.rebuilt + 1);
        } else {
          report := report.(damaged := report.damaged + [listing[i]], errors := report.errors + 1);
        }
        i := i + 1;
      }
      NoFiles(rows, disk, listing, decode);
      if old(Valid()) {
        RecoverIsReplay(old(rows), disk, logs, listing, encode, decode);
        if Reopenable(disk, listing) {
          ReopenableListing(disk, listing);
        }
        if Invariant(old(Value())) {
          ReplayKeepsRows(old(Value()), ReopenedAll(listing));
        }
      }
    }
  }

  lemma KeepsIf(w: World, write: Write)
    ensures Invariant(w) && Orderly(w, write) ==> Invariant(After(w, write))
  {
    if Invariant(w) && Orderly(w, write) {
      WriteKeeps(w, write);
    }
  }

  /** The rows after one line has been dealt with. */
  function AfterLine(t: Rows, rec: Option<Record>): Rows {
    match rec
    case Some(RowRecord(row)) => ReplayOne(t, row)
    case _ => t
  }

  lemma LineNext(t: Rows, lines: seq<Bytes>, i: nat, decode: Decoder)
    requires i < |lines|
    ensures Replay(t, RowsIn(lines[i..], decode)) ==
        Replay(AfterLine(t, decode(lines[i])), RowsIn(lines[i + 1..], decode))
    ensures AfterLine(t, None) == t
    ensures Replayed(lines[i..], decode) ==
            (if decode(lines[i]).Some? && !decode(lines[i]).value.HandoverRecord? then 1 else 0) +
                Replayed(lines[i + 1..], decode)
  {
    assert lines[i..][1..] == lines[i + 1..];
    var rest := RowsIn(lines[i + 1..], decode);
    match decode(lines[i]) {
      case Some(RowRecord(row)) =>
        assert ([row] + rest)[1..] == rest;
      case _ =>
        assert [] + rest == rest;
    }
  }

  lemma NoLines(t: Rows, lines: seq<Bytes>, decode: Decoder)
    ensures Replay(t, RowsIn(lines[|lines|..], decode)) == t && Replayed(lines[|lines|..], decode) == 0
  {
  }

  lemma FileNext(t: Rows, disk: Disk, listing: seq<Path>, i: nat, decode: Decoder)
    requires i < |listing|
    ensures var p := Reopened(listing[i]);
            && RecoverListed(t, disk, listing[i..], decode) ==
                 RecoverListed(if p in disk then Replay(t, FileRows(disk[p], decode)) else t,
                               disk, listing[i + 1..], decode)
            && Damaged(disk, listing[i..]) == (if p in disk then [] else [listing[i]]) + Damaged(disk, listing[i + 1..])
  {
    assert listing[i..][1..] == listing[i + 1..];
    hide Reopened, FileRows, Replay;
  }

  lemma TallyNext(disk: Disk, listing: seq<Path>, i: nat, decode: Decoder)
    requires i < |listing|
    ensures var p, rest := Reopened(listing[i]), Tally(disk, listing[i + 1..], decode);
            Tally(disk, listing[i..], decode) ==
            if p !in disk then rest
            else (Replayed(NonEmpty(Pieces(disk[p])), decode) + rest.0, |NonEmpty(Pieces(disk[p]))| + rest.1)
  {
    assert listing[i..][1..] == listing[i + 1..];
    hide Reopened, NonEmpty, Pieces, Replayed;
  }

  lemma NoFiles(t: Rows, disk: Disk, listing: seq<Path>, decode: Decoder)
    ensures RecoverListed(t, disk, listing[|listing|..], decode) == t && Damaged(disk, listing[|listing|..]) == []
    ensures Tally(disk, listing[|listing|..], decode) == (0, 0)
  {
  }

  /** A line appended to the file of a row is a record appended to its log. */
  lemma AppendHolds(disk: Disk, logs: Logs, row: Row, encode: Encoder)
    requires Holds(disk, logs, encode)
    ensures var p := PathOf(row);
            var before := if p in disk then disk[p] else [];
            Holds(disk[p := before + encode(row) + [NEWLINE]], Logged(logs, row), encode)
  {
    hide PathOf;
    var p := PathOf(row);
    FramedSnoc(Encoded(Records(logs, p), encode), encode(row));
    EncodedSnoc(Records(logs, p), row, encode);
  }

  lemma EncodedSnoc(recs: seq<Row>, last: Row, encode: Encoder)
    ensures Encoded(recs + [last], encode) == Encoded(recs, encode) + [encode(last)]
  {
  }
}
