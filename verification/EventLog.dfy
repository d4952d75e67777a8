/**
 The durable event table.  Ids are handed out by AUTOINCREMENT, so the event in row `k`
 carries id `k + 1`, and nothing is pruned in this model.
 */
module EventLog {
  import opened Domain

  datatype Event = Event(id: int, body: string)

  /** The logged events whose id lies in `(lo, hi]`, in id order; any bounds are accepted. */
  function Slice(log: seq<string>, lo: int, hi: int): (r: seq<Event>)
    ensures |r| == Max(0, Min(hi, |log|) - Max(lo, 0))
  {
    var l := Max(lo, 0);
    var h := Min(hi, |log|);
    if l < h then seq(h - l, i requires 0 <= i < h - l => Event(l + i + 1, log[l + i])) else []
  }

  /** The page size that the query really uses. */
  function ClampLimit(limit: int): int {
    if limit <= 0 then 100 else if limit > 1000 then 1000 else limit
  }

  function EventsAfter(log: seq<string>, after: int, limit: int): seq<Event> {
    Slice(log, after, Max(after, 0) + ClampLimit(limit))
  }

  ghost predicate HasId(events: seq<Event>, id: int) {
    exists i :: 0 <= i < |events| && events[i].id == id
  }

  ghost predicate Ascending(events: seq<Event>) {
    forall i, j :: 0 <= i < j < |events| ==> events[i].id < events[j].id
  }

  lemma SliceIds(log: seq<string>, lo: int, hi: int, id: int)
    ensures HasId(Slice(log, lo, hi), id) <==> Max(lo, 0) < id <= Min(hi, |log|)
  {
    var s := Slice(log, lo, hi);
    if Max(lo, 0) < id <= Min(hi, |log|) {
      assert s[id - Max(lo, 0) - 1].id == id;
    }
  }

  lemma HasIdConcat(a: seq<Event>, b: seq<Event>, id: int)
    ensures HasId(a + b, id) <==> HasId(a, id) || HasId(b, id)
  {
    if HasId(a, id) {
      var i :| 0 <= i < |a| && a[i].id == id;
      assert (a + b)[i].id == id;
    }
    if HasId(b, id) {
      var i :| 0 <= i < |b| && b[i].id == id;
      assert (a + b)[|a| + i].id == id;
    }
    if HasId(a + b, id) {
      var i :| 0 <= i < |a + b| && (a + b)[i].id == id;
      assert if i < |a| then a[i].id == id else b[i - |a|].id == id;
    }
  }

  lemma SliceAppend(log: seq<string>, body: string, lo: int, hi: int)
    requires hi <= |log|
    ensures Slice(log + [body], lo, hi) == Slice(log, lo, hi)
  {
  }

  lemma EmptySlice(log: seq<string>, lo: int, hi: int)
    requires hi <= Max(lo, 0)
    ensures Slice(log, lo, hi) == []
  {
  }

  lemma SliceExtend(log: seq<string>, lo: int, hi: int)
    requires lo <= hi && 0 <= hi < |log|
    ensures Slice(log, lo, hi + 1) == Slice(log, lo, hi) + [Event(hi + 1, log[hi])]
  {
  }

  /**
   The query returns the logged events past `after`, oldest first and as they were logged, and
   drops one only when the page is full: 100 events unless a positive limit says otherwise, and
   never more than 1000.
   */
  lemma EventsAfterMeaning(log: seq<string>, after: int, limit: int, id: int)
    ensures var r := EventsAfter(log, after, limit);
            var page := if limit <= 0 then 100 else Min(limit, 1000);
            && Ascending(r)
            && |r| <= page
            && (forall e :: e in r ==> 1 <= e.id <= |log| && e.body == log[e.id - 1])
            && (HasId(r, id) ==> after < id && 1 <= id <= |log|)
            && (after < id && 1 <= id <= |log| && !HasId(r, id) ==>
                  |r| == page && forall e :: e in r ==> e.id < id)
  {
    SliceIds(log, after, Max(after, 0) + ClampLimit(limit), id);
  }

  class EventRepo {
    var rows: seq<string>

    constructor ()
      ensures rows == []
    {
      rows := [];
    }

    method Append(body: string) returns (id: int)
      modifies this
      ensures rows == old(rows) + [body] && id == |rows|
    {
      rows := rows + [body];
      id := |rows|;
    }

    /** Scans the table in id order and stops once the page is full. */
    method ListAfter(after: int, limit: int) returns (events: seq<Event>)
      ensures events == EventsAfter(rows, after, limit)
    {
      var page := ClampLimit(limit);
      events := [];
      var k := 0;
      while k < |rows| && |events| < page
        invariant 0 <= k <= |rows| && |events| <= page
        invariant events == Slice(rows, after, k)
      {
        if k + 1 > after {
          SliceExtend(rows, after, k);
          events := events + [Event(k + 1, rows[k])];
        }
        k := k + 1;
      }
    }
  }
}
