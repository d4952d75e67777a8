/**
 Shard files: records framed by newlines, named after the date and route in a shard identifier.
 */
module ShardLog {
  import opened Domain

  newtype byte = x: int | 0 <= x < 256

  const NEWLINE: byte := 10

  type Bytes = seq<byte>

  // ---------------------------------------------------------------- pieces between newlines

  /** The pieces between newlines, empty ones included: one more than there are newlines. */
  function Pieces(data: Bytes): (r: seq<Bytes>)
    ensures |r| > 0
    decreases data
  {
    if data == [] then [[]]
    else
      var rest := Pieces(data[1..]);
      if data[0] == NEWLINE then [[]] + rest else [[data[0]] + rest[0]] + rest[1..]
  }

  function Join(pieces: seq<Bytes>): Bytes
    decreases pieces
  {
    if pieces == [] then [] else if |pieces| == 1 then pieces[0] else pieces[0] + [NEWLINE] + Join(pieces[1..])
  }

  predicate OneLine(record: Bytes) { NEWLINE !in record }

  predicate AllOneLine(records: seq<Bytes>) { forall r :: r in records ==> OneLine(r) }

  lemma JoinNext(first: Bytes, rest: seq<Bytes>)
    requires rest != []
    ensures Join([first] + rest) == first + [NEWLINE] + Join(rest)
  {
    assert ([first] + rest)[1..] == rest;
  }

  lemma JoinLonger(b: byte, pieces: seq<Bytes>)
    requires pieces != []
    ensures Join([[b] + pieces[0]] + pieces[1..]) == [b] + Join(pieces)
  {
    assert ([[b] + pieces[0]] + pieces[1..])[1..] == pieces[1..];
  }

  lemma {:induction false} PiecesJoin(data: Bytes)
    ensures Join(Pieces(data)) == data
    decreases data
  {
    if data == [] {
    } else {
      PiecesJoin(data[1..]);
      var rest := Pieces(data[1..]);
      JoinNext([], rest);
      JoinLonger(data[0], rest);
      hide Join;
      assert data == [data[0]] + data[1..];
      assert [] + [NEWLINE] == [NEWLINE];
    }
  }

  lemma {:induction false} PiecesOneLine(data: Bytes)
    ensures AllOneLine(Pieces(data)) && (|Pieces(data)| == 1 ==> OneLine(data))
    decreases data
  {
    if data == [] {
    } else {
      PiecesOneLine(data[1..]);
      var rest := Pieces(data[1..]);
      assert OneLine(rest[0]);
      assert data == [data[0]] + data[1..];
    }
  }

  lemma {:induction false} PieceEnds(line: Bytes, rest: Bytes)
    requires OneLine(line)
    ensures Pieces(line + [NEWLINE] + rest) == [line] + Pieces(rest)
    decreases line
  {
    var data := line + [NEWLINE] + rest;
    if line == [] {
      assert data[1..] == rest;
    } else {
      assert data[1..] == line[1..] + [NEWLINE] + rest;
      PieceEnds(line[1..], rest);
      assert line == [line[0]] + line[1..];
    }
  }

  lemma {:induction false} LastPiece(line: Bytes)
    requires OneLine(line)
    ensures Pieces(line) == [line]
    decreases line
  {
    if line == [] {
    } else {
      LastPiece(line[1..]);
      assert line == [line[0]] + line[1..];
    }
  }

  /** Splitting at newlines and joining with newlines are inverse. */
  lemma {:induction false} JoinPieces(pieces: seq<Bytes>)
    requires pieces != [] && AllOneLine(pieces)
    ensures Pieces(Join(pieces)) == pieces
    decreases pieces
  {
    if |pieces| == 1 {
      LastPiece(pieces[0]);
    } else {
      JoinPieces(pieces[1..]);
      PieceEnds(pieces[0], Join(pieces[1..]));
      assert pieces == [pieces[0]] + pieces[1..];
    }
  }

  function NonEmpty(pieces: seq<Bytes>): (r: seq<Bytes>)
    ensures forall p :: p in r <==> p in pieces && p != []
    decreases pieces
  {
    if pieces == [] then [] else (if pieces[0] == [] then [] else [pieces[0]]) + NonEmpty(pieces[1..])
  }

  function Empties(pieces: seq<Bytes>): nat
    decreases pieces
  {
    if pieces == [] then 0 else (if pieces[0] == [] then 1 else 0) + Empties(pieces[1..])
  }

  lemma NonEmptyCons(first: Bytes, rest: seq<Bytes>)
    ensures NonEmpty([first] + rest) == (if first == [] then [] else [first]) + NonEmpty(rest)
    ensures Empties([first] + rest) == (if first == [] then 1 else 0) + Empties(rest)
  {
    assert ([first] + rest)[1..] == rest;
  }

  /** What is left of a file from `start`, when the line there ends at `end`. */
  lemma CutAt(data: Bytes, start: nat, end: nat)
    requires start <= end < |data| && OneLine(data[start..end]) && data[end] == NEWLINE
    ensures NonEmpty(Pieces(data[start..])) ==
            (if start < end then [data[start..end]] else []) + NonEmpty(Pieces(data[end + 1..]))
  {
    assert data[start..] == data[start..end] + [NEWLINE] + data[end + 1..];
    PieceEnds(data[start..end], data[end + 1..]);
    NonEmptyCons(data[start..end], Pieces(data[end + 1..]));
  }

  lemma CutLast(data: Bytes, start: nat)
    requires start <= |data| && OneLine(data[start..])
    ensures NonEmpty(Pieces(data[start..])) == if start < |data| then [data[start..]] else []
  {
    LastPiece(data[start..]);
    NonEmptyCons(data[start..], []);
    assert [data[start..]] + [] == [data[start..]];
  }

  /** The records of a file: its non-empty pieces. */
  method SplitLines(data: Bytes) returns (lines: seq<Bytes>)
    ensures lines == NonEmpty(Pieces(data))
  {
    hide NonEmpty, Pieces;
    lines := [];
    var start := 0;
    assert data[0..] == data && [] + NonEmpty(Pieces(data)) == NonEmpty(Pieces(data));
    for i := 0 to |data|
      invariant 0 <= start <= i && OneLine(data[start..i])
      invariant NonEmpty(Pieces(data)) == lines + NonEmpty(Pieces(data[start..]))
    {
      if data[i] == NEWLINE {
        CutAt(data, start, i);
        if start < i {
          lines := lines + [data[start..i]];
        }
        start := i + 1;
        assert data[start..i + 1] == [];
      } else {
        assert data[start..i + 1] == data[start..i] + [data[i]];
      }
    }
    assert data[start..] == data[start..|data|];
    CutLast(data, start);
    if start < |data| {
      lines := lines + [data[start..]];
    }
  }

  // ---------------------------------------------------------------- counting lines

  /** A file's last piece is no line when nothing follows the final newline. */
  function LineCount(data: Bytes): int {
    var pieces := Pieces(data);
    |pieces| - (if pieces[|pieces| - 1] == [] then 1 else 0)
  }

  lemma {:induction false} NewlinesAndPieces(data: Bytes)
    ensures |Pieces(data)| == multiset(data)[NEWLINE] + 1
    decreases data
  {
    if data == [] {
    } else {
      NewlinesAndPieces(data[1..]);
      assert data == [data[0]] + data[1..];
    }
  }

  lemma {:induction false} EndsInNewline(data: Bytes)
    ensures var pieces := Pieces(data); pieces[|pieces| - 1] == [] <==> data == [] || data[|data| - 1] == NEWLINE
    decreases data
  {
    if data == [] {
    } else {
      EndsInNewline(data[1..]);
      PiecesOneLine(data[1..]);
      assert |data| > 1 ==> data[|data| - 1] == data[1..][|data| - 2] && data[|data| - 1] in data[1..];
      hide AllOneLine;
    }
  }

  method CountLines(data: Bytes) returns (count: int)
    ensures count == LineCount(data)
  {
    count := 0;
    for i := 0 to |data|
      invariant count == multiset(data[..i])[NEWLINE]
    {
      assert data[..i + 1] == data[..i] + [data[i]];
      if data[i] == NEWLINE {
        count := count + 1;
      }
    }
    assert data[..|data|] == data;
    NewlinesAndPieces(data);
    EndsInNewline(data);
    if |data| > 0 && data[|data| - 1] != NEWLINE {
      count := count + 1;
    }
  }

  lemma {:induction false} EmptyAndNot(pieces: seq<Bytes>)
    ensures |pieces| == |NonEmpty(pieces)| + Empties(pieces)
    ensures pieces != [] ==>
              Empties(pieces) == Empties(pieces[..|pieces| - 1]) + (if pieces[|pieces| - 1] == [] then 1 else 0)
    decreases pieces
  {
    if pieces == [] {
    } else {
      EmptyAndNot(pieces[1..]);
      if |pieces| > 1 {
        assert pieces[..|pieces| - 1][1..] == pieces[1..][..|pieces| - 2];
        assert pieces[1..][|pieces| - 2] == pieces[|pieces| - 1];
      }
    }
  }

  /** Counting lines sees the empty ones, which splitting drops. */
  lemma CountSeesEmptyLines(data: Bytes)
    ensures var pieces := Pieces(data);
            LineCount(data) == |NonEmpty(pieces)| + Empties(pieces[..|pieces| - 1])
  {
    EmptyAndNot(Pieces(data));
  }

  // ---------------------------------------------------------------- framing

  /** What a sequence of appends leaves in a file. */
  function Framed(records: seq<Bytes>): Bytes
    decreases records
  {
    if records == [] then [] else records[0] + [NEWLINE] + Framed(records[1..])
  }

  lemma {:induction false} FramedSnoc(records: seq<Bytes>, last: Bytes)
    ensures Framed(records + [last]) == Framed(records) + last + [NEWLINE]
    decreases records
  {
    if records == [] {
      assert [] + [last] == [last] && [last][1..] == [];
      assert Framed([last]) == last + [NEWLINE] + Framed([]);
    } else {
      assert (records + [last])[1..] == records[1..] + [last];
      FramedSnoc(records[1..], last);
    }
  }

  /** Splitting a file whose last append was cut short: every whole record, then what was written of the last. */
  lemma {:induction false} TornAppend(records: seq<Bytes>, tail: Bytes)
    requires AllOneLine(records) && OneLine(tail)
    ensures NonEmpty(Pieces(Framed(records) + tail)) == NonEmpty(records) + (if tail == [] then [] else [tail])
    decreases records
  {
    if records == [] {
      assert [] + tail == tail;
      LastPiece(tail);
      NonEmptyCons(tail, []);
      assert [tail] + [] == [tail];
    } else {
      TornAppend(records[1..], tail);
      assert Framed(records) + tail == records[0] + [NEWLINE] + (Framed(records[1..]) + tail);
      PieceEnds(records[0], Framed(records[1..]) + tail);
      NonEmptyCons(records[0], Pieces(Framed(records[1..]) + tail));
    }
  }

  lemma {:induction false} NonEmptyAll(records: seq<Bytes>)
    ensures NonEmpty(records) == records <==> [] !in records
    ensures |NonEmpty(records)| <= |records|
    decreases records
  {
    if records == [] {
    } else {
      NonEmptyAll(records[1..]);
      assert records == [records[0]] + records[1..];
      if records[0] == [] {
        assert |NonEmpty(records)| <= |records[1..]|;
      }
    }
  }

  /** Splitting what was appended gives back exactly the records, if and only if each is one non-empty line. */
  lemma FramingRoundTrip(records: seq<Bytes>)
    ensures NonEmpty(Pieces(Framed(records))) == records <==> AllOneLine(records) && [] !in records
  {
    if AllOneLine(records) {
      TornAppend(records, []);
      assert Framed(records) + [] == Framed(records);
      NonEmptyAll(records);
      assert NonEmpty(records) + [] == NonEmpty(records);
    }
    PiecesOneLine(Framed(records));
  }

  /** After a torn append, the next record is glued to the torn one; all others survive. */
  lemma TornRecordSpoilsOne(before: seq<Bytes>, torn: Bytes, next: Bytes, after: seq<Bytes>)
    requires AllOneLine(before) && OneLine(torn) && OneLine(next) && AllOneLine(after)
    requires [] !in before && next != [] && [] !in after
    ensures NonEmpty(Pieces(Framed(before) + torn + Framed([next] + after))) == before + [torn + next] + after
  {
    var glued := before + [torn + next] + after;
    FramedConcat(before + [torn + next], after);
    FramedSnoc(before, torn + next);
    FramedConcat([next], after);
    FramedSnoc([], next);
    assert [] + [next] == [next];
    FramingRoundTrip(glued);
    hide *;
    Regroup(Framed(before), torn, next, [NEWLINE], Framed(after));
    assert Framed([]) + next + [NEWLINE] == next + [NEWLINE];
  }

  lemma Regroup(a: Bytes, b: Bytes, c: Bytes, d: Bytes, e: Bytes)
    ensures a + b + (c + d + e) == a + (b + c) + d + e
  {
  }

  lemma {:induction false} FramedConcat(a: seq<Bytes>, b: seq<Bytes>)
    ensures Framed(a + b) == Framed(a) + Framed(b)
    decreases a
  {
    if a == [] {
      assert a + b == b;
    } else {
      assert (a + b)[1..] == a[1..] + b;
      FramedConcat(a[1..], b);
    }
  }

  // ---------------------------------------------------------------- shard identifiers and paths

  function ShardIdFor(date: string, route: string): string { date + "_" + route }

  /** The parts before and after the first underscore. */
  function SplitShardId(shardId: string): (string, string)
    decreases shardId
  {
    if shardId == "" then ("", "")
    else if shardId[0] == '_' then ("", shardId[1..])
    else
      var rest := SplitShardId(shardId[1..]);
      ([shardId[0]] + rest.0, rest.1)
  }

  lemma {:induction false} FirstUnderscore(shardId: string, i: nat)
    requires i <= |shardId| && '_' !in shardId[..i] && (i < |shardId| ==> shardId[i] == '_')
    ensures SplitShardId(shardId) == (shardId[..i], if i < |shardId| then shardId[i + 1..] else "")
    decreases shardId
  {
    if i == 0 {
      assert shardId[..0] == "";
    } else {
      assert shardId[..i] == [shardId[0]] + shardId[1..][..i - 1];
      assert shardId[0] in shardId[..i];
      FirstUnderscore(shardId[1..], i - 1);
    }
  }

  method Split(shardId: string) returns (date: string, route: string)
    ensures (date, route) == SplitShardId(shardId)
  {
    for i := 0 to |shardId|
      invariant '_' !in shardId[..i]
    {
      if shardId[i] == '_' {
        FirstUnderscore(shardId, i);
        return shardId[..i], shardId[i + 1..];
      }
      assert shardId[..i + 1] == shardId[..i] + [shardId[i]];
    }
    assert shardId[..|shardId|] == shardId;
    FirstUnderscore(shardId, |shardId|);
    return shardId, "";
  }

  /** Where the first underscore is, if there is one. */
  lemma {:induction false} SplitMeaning(shardId: string)
    ensures var (date, route) := SplitShardId(shardId);
            && '_' !in date
            && (if '_' in shardId then shardId == date + "_" + route else date == shardId && route == "")
    decreases shardId
  {
    if shardId != "" {
      SplitMeaning(shardId[1..]);
      assert shardId == [shardId[0]] + shardId[1..];
    }
  }

  /** Splitting undoes composing exactly when the date has no underscore. */
  lemma SplitUndoesCompose(date: string, route: string)
    ensures SplitShardId(ShardIdFor(date, route)) == (date, route) <==> '_' !in date
  {
    var id := ShardIdFor(date, route);
    SplitMeaning(id);
    if '_' !in date {
      assert id[..|date|] == date && id[|date|] == '_' && id[|date| + 1..] == route;
      FirstUnderscore(id, |date|);
    }
  }

  /** Composing undoes splitting exactly when there is an underscore to split at. */
  lemma ComposeUndoesSplit(shardId: string)
    ensures var (date, route) := SplitShardId(shardId); ShardIdFor(date, route) == shardId <==> '_' in shardId
  {
    SplitMeaning(shardId);
    var (date, route) := SplitShardId(shardId);
    assert ShardIdFor(date, route)[|date|] == '_';
  }

  const SUFFIX := ".jsonl"

  /** A shard file, by its date directory and its name in it. */
  datatype Path = Path(date: string, file: string)

  function ShardPath(shardId: string): Path {
    var (date, route) := SplitShardId(shardId);
    Path(date, route + SUFFIX)
  }

  /** How recovery reads the route off a file name. */
  function RouteOf(file: string): string {
    if |file| > 6 && file[|file| - 6..] == SUFFIX then file[..|file| - 6] else file
  }

  /** The file that recovery opens for a file it has listed. */
  function Reopened(listed: Path): Path {
    ShardPath(ShardIdFor(listed.date, RouteOf(listed.file)))
  }

  /**
   Recovery opens the very file it listed for a shard exactly when the shard's route is not
   empty; a shard without a route is looked for under another name.
   */
  lemma RecoveryOpensWhatItLists(shardId: string)
    ensures Reopened(ShardPath(shardId)) == ShardPath(shardId) <==> SplitShardId(shardId).1 != ""
  {
    var (date, route) := SplitShardId(shardId);
    SplitMeaning(shardId);
    var file := route + SUFFIX;
    assert file[|file| - 6..] == SUFFIX && file[..|file| - 6] == route;
    SplitUndoesCompose(date, RouteOf(file));
    assert |RouteOf(file) + SUFFIX| == |file| <==> route != "";
  }

  /** For a shard without a route, recovery opens the file of the shard whose route is the suffix itself. */
  lemma RoutelessIsMisread(shardId: string)
    requires SplitShardId(shardId).1 == ""
    ensures Reopened(ShardPath(shardId)) == ShardPath(ShardIdFor(SplitShardId(shardId).0, SUFFIX)) != ShardPath(shardId)
  {
    SplitMeaning(shardId);
    assert "" + SUFFIX == SUFFIX;
    assert RouteOf(SUFFIX) == SUFFIX;
    SplitUndoesCompose(SplitShardId(shardId).0, SUFFIX);
    assert |SUFFIX + SUFFIX| != |SUFFIX|;
  }
}
