/**
 The batch service as it runs: records fetched into memory, updated there and saved back one
 write at a time.  `log` records every write, so that the writes of a call can be compared
 with `Attempt`, and a crash is a call that stopped part-way through them.
 */
module BatchService {
  import opened Domain
  import opened BatchModel
  import opened BatchSaga
  import opened BatchOutcome

  datatype ServiceError =
    | RequiredFieldMissing
    | BatchNotFound
    | MailNotFound(id: Id)
    | InvalidTransition(current: BatchState, target: BatchState)

  // ---------------------------------------------------------------- the loops, one item at a time

  lemma ForwardSnoc(s: Store, order: seq<Id>, i: nat)
    requires i < |order| && (forall id :: id in order ==> id in s.items)
    ensures ApplyAll(s, Forward(s, order[..i])).items.Keys == s.items.Keys
    ensures var t := ApplyAll(s, Forward(s, order[..i]));
            && Forward(s, order[..i + 1]) == Forward(s, order[..i]) + ForwardOne(t, order[i])
            && ApplyAll(s, Forward(s, order[..i + 1])) == ApplyAll(t, ForwardOne(t, order[i]))
  {
    ForwardKeepsItems(s, order[..i]);
    assert order[..i + 1] == order[..i] + [order[i]];
    ForwardConcat(s, order[..i], order[i]);
    var t := ApplyAll(s, Forward(s, order[..i]));
    ApplyConcat(s, Forward(s, order[..i]), ForwardOne(t, order[i]));
  }

  lemma {:induction false} ForwardConcat(s: Store, order: seq<Id>, last: Id)
    requires (forall id :: id in order ==> id in s.items) && last in s.items
    ensures ApplyAll(s, Forward(s, order)).items.Keys == s.items.Keys
    ensures Forward(s, order + [last]) == Forward(s, order) + ForwardOne(ApplyAll(s, Forward(s, order)), last)
    decreases order
  {
    hide ForwardOne, ApplyAll;
    ForwardKeepsItems(s, order);
    if order == [] {
      ApplyShort(s, []);
      ForwardSplits(s, [last]);
      assert [last][1..] == [] && [] + [last] == [last];
    } else {
      var ws := ForwardOne(s, order[0]);
      ForwardSplits(s, order);
      ForwardSplits(s, order + [last]);
      hide Forward;
      var t := ApplyAll(s, ws);
      assert (order + [last])[1..] == order[1..] + [last];
      ForwardConcat(t, order[1..], last);
      ApplyConcat(s, ws, Forward(t, order[1..]));
    }
  }

  lemma {:induction false} CompensateKeepsItems(s: Store, order: seq<Id>, processed: set<Id>)
    requires forall id :: id in order ==> id in s.items
    ensures var t := ApplyAll(s, Compensate(s, order, processed));
            t.items.Keys == s.items.Keys && forall id :: id in s.items ==> t.items[id].mailId == s.items[id].mailId
    decreases order
  {
    if order == [] {
    } else {
      if order[0] in processed {
        var ws := CompensateOne(s, order[0]);
        CompensateOneEffect(s, order[0]);
        ApplyConcat(s, ws, Compensate(ApplyAll(s, ws), order[1..], processed));
        CompensateKeepsItems(ApplyAll(s, ws), order[1..], processed);
      } else {
        CompensateKeepsItems(s, order[1..], processed);
      }
    }
  }

  lemma {:induction false} CompensateConcat(s: Store, order: seq<Id>, last: Id, processed: set<Id>)
    requires (forall id :: id in order ==> id in s.items) && last in s.items
    ensures ApplyAll(s, Compensate(s, order, processed)).items.Keys == s.items.Keys
    ensures Compensate(s, order + [last], processed) ==
            Compensate(s, order, processed) +
            (if last in processed then CompensateOne(ApplyAll(s, Compensate(s, order, processed)), last) else [])
    decreases order
  {
    CompensateKeepsItems(s, order, processed);
    if order == [] {
      assert [last][1..] == [];
      assert [] + [last] == [last];
    } else {
      assert (order + [last])[1..] == order[1..] + [last];
      if order[0] in processed {
        var ws := CompensateOne(s, order[0]);
        CompensateOneEffect(s, order[0]);
        CompensateConcat(ApplyAll(s, ws), order[1..], last, processed);
        ApplyConcat(s, ws, Compensate(ApplyAll(s, ws), order[1..], processed));
      } else {
        CompensateConcat(s, order[1..], last, processed);
      }
    }
  }

  lemma CompensateSnoc(s: Store, order: seq<Id>, i: nat, processed: set<Id>)
    requires i < |order| && (forall id :: id in order ==> id in s.items)
    ensures ApplyAll(s, Compensate(s, order[..i], processed)).items.Keys == s.items.Keys
    ensures var t := ApplyAll(s, Compensate(s, order[..i], processed));
            var ws := if order[i] in processed then CompensateOne(t, order[i]) else [];
            && Compensate(s, order[..i + 1], processed) == Compensate(s, order[..i], processed) + ws
            && ApplyAll(s, Compensate(s, order[..i + 1], processed)) == ApplyAll(t, ws)
  {
    assert order[..i + 1] == order[..i] + [order[i]];
    CompensateConcat(s, order[..i], order[i], processed);
    var t := ApplyAll(s, Compensate(s, order[..i], processed));
    var ws := if order[i] in processed then CompensateOne(t, order[i]) else [];
    ApplyConcat(s, Compensate(s, order[..i], processed), ws);
  }

  /** Whether an item is hit does not depend on how many other items were visited before it. */
  lemma HitStays(s: Store, order: seq<Id>, i: nat)
    requires NoDup(order) && i < |order| && (forall id :: id in order ==> id in s.items)
    ensures var t := ApplyAll(s, Forward(s, order[..i]));
            && order[i] in t.items && t.items[order[i]] == s.items[order[i]]
            && (Hit(t, order[i]) <==> Hit(s, order[i]))
  {
    ForwardIs(s, order[..i]);
    assert order[i] !in Range(order[..i]);
    var t := ForwardOutcome(s, Range(order[..i]));
    HitUnmoved(s, Range(order[..i]), order[i]);
  }

  lemma HitUnmoved(s: Store, ids: set<Id>, id: Id)
    requires id in s.items && id !in ids
    ensures var t := ForwardOutcome(s, ids);
            id in t.items && t.items[id] == s.items[id] && (Hit(t, id) <==> Hit(s, id))
  {
    var m := s.items[id].mailId;
    if m in s.mails && HitsOn(s, ids, m) != {} {
      var j :| j in HitsOn(s, ids, m);
      assert Processable(s, m);
    }
    assert |HitsOn(s, ids, m)| == 0 <==> HitsOn(s, ids, m) == {};
    hide HitsOn;
  }

  lemma RangeSnoc(order: seq<Id>, i: nat)
    requires i < |order|
    ensures Range(order[..i + 1]) == Range(order[..i]) + {order[i]}
    ensures NoDup(order) ==> order[i] !in Range(order[..i])
  {
    assert order[..i + 1] == order[..i] + [order[i]];
  }

  /** How many of the listed records are succeeded. */
  function SucceededIn(listed: seq<Item>): nat
    decreases listed
  {
    if listed == [] then 0
    else SucceededIn(listed[..|listed| - 1]) + (if listed[|listed| - 1].state == ItemSucceeded then 1 else 0)
  }

  /** The records in memory are those stored under `order`. */
  ghost predicate Mirrors(s: Store, order: seq<Id>, listed: seq<Item>) {
    |listed| == |order| && forall j :: 0 <= j < |order| ==> order[j] in s.items && listed[j] == s.items[order[j]]
  }

  lemma {:induction false} CountIs(s: Store, order: seq<Id>, listed: seq<Item>)
    requires NoDup(order) && Mirrors(s, order, listed)
    ensures SucceededIn(listed) == |Succeeded(s, Range(order))|
    decreases order
  {
    if order == [] {
    } else {
      var n := |order| - 1;
      assert order[n] in order && forall j :: 0 <= j < n ==> order[..n][j] == order[j];
      CountIs(s, order[..n], listed[..n]);
      RangeSnoc(order, n);
      assert order[..n + 1] == order;
      hide Range, NoDup, Mirrors;
      OneMore(s, Range(order[..n]), order[n]);
    }
  }

  lemma OneMore(s: Store, ids: set<Id>, id: Id)
    requires id in s.items && id !in ids
    ensures |Succeeded(s, ids + {id})| == |Succeeded(s, ids)| + (if s.items[id].state == ItemSucceeded then 1 else 0)
  {
    if s.items[id].state == ItemSucceeded {
      assert Succeeded(s, ids + {id}) == Succeeded(s, ids) + {id};
    } else {
      assert Succeeded(s, ids + {id}) == Succeeded(s, ids);
    }
  }

  class BatchService {
    var mails: map<Id, Mail>
    var items: map<Id, Item>
    var batches: map<Id, Batch>
    ghost var log: seq<Write>

    ghost function Value(): Store
      reads this
    {
      Store(mails, items, batches)
    }

    constructor ()
      ensures Value() == Store(map[], map[], map[]) && log == []
    {
      mails, items, batches, log := map[], map[], map[], [];
    }

    method SaveMail(id: Id, mail: Mail)
      modifies this
      ensures Value() == Apply(old(Value()), PutMail(id, mail)) && log == old(log) + [PutMail(id, mail)]
    {
      mails := mails[id := mail];
      log := log + [PutMail(id, mail)];
    }

    method SaveItem(id: Id, item: Item)
      modifies this
      ensures Value() == Apply(old(Value()), PutItem(id, item)) && log == old(log) + [PutItem(id, item)]
    {
      items := items[id := item];
      log := log + [PutItem(id, item)];
    }

    method SaveBatch(id: Id, batch: Batch)
      modifies this
      ensures Value() == Apply(old(Value()), PutBatch(id, batch)) && log == old(log) + [PutBatch(id, batch)]
    {
      batches := batches[id := batch];
      log := log + [PutBatch(id, batch)];
    }

    /** The items of a batch in some order, each item once, with a copy of each record. */
    method ListItems(bid: Id) returns (order: seq<Id>, listed: seq<Item>)
      ensures IsListing(Value(), bid, order) && Mirrors(Value(), order, listed)
    {
      order, listed := [], [];
      var left := items.Keys;
      while left != {}
        invariant left <= items.Keys
        invariant NoDup(order) && Mirrors(Value(), order, listed)
        invariant forall id :: id in order <==> id in items && id !in left && items[id].batch == bid
        decreases |left|
      {
        var id :| id in left;
        left := left - {id};
        if items[id].batch == bid {
          order, listed := order + [id], listed + [items[id]];
        }
      }
    }

    method ProcessItem(item: Item) returns (error: Option<ItemError>)
      modifies this
      ensures error == (if item.mailId !in old(mails) then Some(MailMissing)
                        else
                          var mail := old(mails)[item.mailId];
                          if mail.state == InTransit || mail.state == Arrived then None
                          else Some(Unprocessable(mail.mailNo, mail.state)))
      ensures error.Some? ==> Value() == old(Value()) && log == old(log)
      ensures error.None? ==>
                var mail := old(mails)[item.mailId];
                var w := PutMail(item.mailId, mail.(state := Arrived, version := mail.version + 1));
                Value() == Apply(old(Value()), w) && log == old(log) + [w]
    {
      if item.mailId !in mails {
        return Some(MailMissing);
      }
      var mail := mails[item.mailId];
      if mail.state != InTransit && mail.state != Arrived {
        return Some(Unprocessable(mail.mailNo, mail.state));
      }
      mail := mail.(state := Arrived, version := mail.version + 1);
      SaveMail(item.mailId, mail);
      return None;
    }

    /** One turn of the forward loop: process the item, record the result in memory, save it. */
    method Visit(id: Id, item: Item) returns (visited: Item, hit: bool)
      requires id in items && items[id] == item && item.state != ItemSucceeded
      modifies this
      ensures log == old(log) + ForwardOne(old(Value()), id)
      ensures Value() == ApplyAll(old(Value()), ForwardOne(old(Value()), id))
      ensures hit == Hit(old(Value()), id)
      ensures items == old(items)[id := visited] && (visited.state == ItemSucceeded <==> hit)
    {
      ForwardOneEffect(Value(), id);
      hide ApplyAll;
      var error := ProcessItem(item);
      hit := error == None;
      visited := if hit then item.(state := ItemSucceeded) else item.(state := ItemFailed, error := error.value);
      SaveItem(id, visited);
    }

    method ForwardAll(order: seq<Id>, fetched: seq<Item>)
      returns (listed: seq<Item>, processed: set<Id>, allSucceeded: bool)
      requires NoDup(order) && Mirrors(Value(), order, fetched)
      modifies this
      ensures forall id :: id in order ==> id in old(items)
      ensures log == old(log) + Forward(old(Value()), order)
      ensures Value() == ApplyAll(old(Value()), Forward(old(Value()), order))
      ensures Mirrors(Value(), order, listed) && processed == Processed(old(Value()), Range(order))
      ensures allSucceeded <==> Succeeded(Value(), Range(order)) == Range(order)
    {
      hide Forward, ForwardOne, ApplyAll, Hit, Apply, Succeeded, Range, Processed;
      ghost var s := Value();
      listed, processed, allSucceeded := fetched, {}, true;
      var i := 0;
      ForwardStart(s, order);
      while i < |order|
        invariant 0 <= i <= |order| && |listed| == |order|
        invariant forall id :: id in order ==> id in s.items
        invariant Value() == ApplyAll(s, Forward(s, order[..i])) && log == old(log) + Forward(s, order[..i])
        invariant Mirrors(Value(), order, listed)
        invariant processed == Processed(s, Range(order[..i]))
        invariant allSucceeded <==> forall j :: 0 <= j < i ==> listed[j].state == ItemSucceeded
      {
        ForwardSnoc(s, order, i);
        HitStays(s, order, i);
        RangeSnoc(order, i);
        ProcessedSnoc(s, order, i);
        ghost var t := Value();
        SkipsSucceeded(t, order[i]);
        if listed[i].state != ItemSucceeded {
          var visited, hit := Visit(order[i], listed[i]);
          listed := listed[i := visited];
          if hit {
            processed := processed + {order[i]};
          } else {
            allSucceeded := false;
          }
        }
        i := i + 1;
      }
      assert order[..|order|] == order;
      AllSucceeded(Value(), order, listed);
    }

    method CompensateItem(item: Item)
      modifies this
      ensures var s := old(Value());
              var sent := if item.mailId in s.mails && s.mails[item.mailId].state == Arrived
                          then [PutMail(item.mailId,
                              s.mails[item.mailId].(state := InTransit, version := s.mails[item.mailId].version + 1))]
                          else [];
              log == old(log) + sent && Value() == ApplyAll(s, sent)
    {
      if item.mailId in mails {
        var mail := mails[item.mailId];
        if mail.state == Arrived {
          mail := mail.(state := InTransit, version := mail.version + 1);
          ApplyShort(Value(), [PutMail(item.mailId, mail)]);
          SaveMail(item.mailId, mail);
        }
      }
    }

    /** One turn of the compensation loop: the stored item is fetched again and saved as rolled back. */
    method Undo(id: Id, item: Item)
      requires id in items && items[id].mailId == item.mailId
      modifies this
      ensures log == old(log) + CompensateOne(old(Value()), id)
      ensures Value() == ApplyAll(old(Value()), CompensateOne(old(Value()), id))
    {
      ghost var s := Value();
      CompensateItem(item);
      ghost var sent := log[|old(log)|..];
      var stored := items[id].(state := ItemRolledBack);
      SaveItem(id, stored);
      ApplyConcat(s, sent, [PutItem(id, stored)]);
      ApplyShort(ApplyAll(s, sent), [PutItem(id, stored)]);
    }

    method CompensateAll(order: seq<Id>, listed: seq<Item>, processed: set<Id>)
      requires |listed| == |order| && NoDup(order)
      requires forall j :: 0 <= j < |order| ==> order[j] in items && listed[j].mailId == items[order[j]].mailId
      modifies this
      ensures forall id :: id in order ==> id in old(items)
      ensures log == old(log) + Compensate(old(Value()), order, processed)
      ensures Value() == ApplyAll(old(Value()), Compensate(old(Value()), order, processed))
    {
      hide Compensate, CompensateOne, ApplyAll;
      ghost var s := Value();
      var i := 0;
      CompensateStart(s, order, processed);
      while i < |order|
        invariant 0 <= i <= |order|
        invariant forall id :: id in order ==> id in s.items
        invariant Value() == ApplyAll(s, Compensate(s, order[..i], processed))
        invariant log == old(log) + Compensate(s, order[..i], processed)
      {
        CompensateKeepsItems(s, order[..i], processed);
        CompensateSnoc(s, order, i, processed);
        if order[i] in processed {
          Undo(order[i], listed[i]);
        } else {
          ApplyShort(Value(), []);
        }
        i := i + 1;
      }
      assert order[..|order|] == order;
    }

    method Count(listed: seq<Item>) returns (succeeded: int, failed: int)
      ensures succeeded == SucceededIn(listed) && failed == |listed| - succeeded
    {
      succeeded, failed := 0, 0;
      for i := 0 to |listed|
        invariant succeeded == SucceededIn(listed[..i]) && failed == i - succeeded
      {
        assert listed[..i + 1][..i] == listed[..i];
        if listed[i].state == ItemSucceeded {
          succeeded := succeeded + 1;
        } else {
          failed := failed + 1;
        }
      }
      assert listed[..|listed|] == listed;
    }

    method Complete(bid: Id, begun: Batch, count: int) returns (batch: Batch)
      modifies this
      ensures log == old(log) + Closing(bid, begun, count)
      ensures Value() == ApplyAll(old(Value()), Closing(bid, begun, count))
      ensures bid in batches && batches[bid] == batch
    {
      batch := begun.(state := BatchSucceeded, succeeded := count, version := begun.version + 1);
      SaveBatch(bid, batch);
      batch := batch.(state := BatchCompleted, version := batch.version + 1);
      SaveBatch(bid, batch);
      ApplyShort(old(Value()), Closing(bid, begun, count));
    }

    method RollBack(bid: Id, begun: Batch, order: seq<Id>, listed: seq<Item>, processed: set<Id>) returns (batch: Batch)
      requires NoDup(order) && Mirrors(Value(), order, listed)
      modifies this
      ensures forall id :: id in order ==> id in old(items)
      ensures log == old(log) + Undoing(old(Value()), bid, begun, order, processed)
      ensures Value() == ApplyAll(old(Value()), Undoing(old(Value()), bid, begun, order, processed))
      ensures bid in batches && batches[bid] == batch
    {
      hide ApplyAll, Compensate, Succeeded, Range, NoDup;
      ghost var middle := Value();
      CountIs(middle, order, listed);
      CompensateAll(order, listed, processed);
      ghost var undone := Value();
      var succeeded, failed := Count(listed);
      batch := begun.(state := BatchRolledBack, succeeded := succeeded, failed := failed, version := begun.version + 1);
      SaveBatch(bid, batch);
      ApplyConcat(middle, Compensate(middle, order, processed), [PutBatch(bid, batch)]);
      ApplyShort(undone, [PutBatch(bid, batch)]);
    }

    /** Everything a call does once the batch is saved as processing. */
    method AttemptItems(bid: Id, begun: Batch) returns (batch: Batch, ghost order: seq<Id>)
      modifies this
      ensures IsListing(old(Value()), bid, order)
      ensures log == old(log) + Rest(old(Value()), bid, begun, order)
      ensures Value() == ApplyAll(old(Value()), Rest(old(Value()), bid, begun, order))
      ensures bid in batches && batches[bid] == batch
    {
      hide ApplyAll, Forward, Compensate, Succeeded, Processed, Range, Closing, Undoing, NoDup;
      var ids, fetched := ListItems(bid);
      order := ids;
      ghost var s := Value();
      var listed, processed, allSucceeded := ForwardAll(ids, fetched);
      ghost var middle := Value();
      ghost var tail;
      if allSucceeded {
        tail := Closing(bid, begun, |order|);
        batch := Complete(bid, begun, |ids|);
      } else {
        tail := Undoing(middle, bid, begun, order, processed);
        batch := RollBack(bid, begun, ids, listed, processed);
      }
      RestIs(s, bid, begun, order, tail);
    }

    /** A call that has passed the state check. */
    method Process(bid: Id) returns (batch: Batch, ghost order: seq<Id>)
      requires MayProcess(Value(), bid)
      modifies this
      ensures IsListing(old(Value()), bid, order)
      ensures log == old(log) + Attempt(old(Value()), bid, order)
      ensures Value() == ApplyAll(old(Value()), Attempt(old(Value()), bid, order))
      ensures Leaves(old(Value()), bid, order, batch)
    {
      hide ApplyAll, Rest, Attempt, Leaves, NoDup;
      ghost var s := Value();
      batch := batches[bid];
      batch := batch.(state := Processing, version := batch.version + 1);
      SaveBatch(bid, batch);
      batch, order := AttemptItems(bid, batch);
      AttemptIsRest(s, bid, order);
      LeavesLast(s, bid, order, batch);
    }

    /**
     A call refused by the state check writes nothing; any other call makes exactly the writes
     of `Attempt` over some listing of the batch's items, and returns the record it saved last.
     */
    method ProcessBatch(bid: Id) returns (result: Result<Batch, ServiceError>, ghost order: seq<Id>)
      modifies this
      ensures !MayProcess(old(Value()), bid) ==>
                && Value() == old(Value()) && log == old(log)
                && result == Err(if bid in old(batches)
                     then InvalidTransition(old(batches)[bid].state, Processing) else BatchNotFound)
      ensures MayProcess(old(Value()), bid) ==>
                && IsListing(old(Value()), bid, order)
                && log == old(log) + Attempt(old(Value()), bid, order)
                && Value() == ApplyAll(old(Value()), Attempt(old(Value()), bid, order))
                && result.Ok? && Leaves(old(Value()), bid, order, result.value)
      ensures result == Err(BatchNotFound) <==> bid !in old(batches)
      ensures result.Err? && result != Err(BatchNotFound) <==>
                bid in old(batches) && old(batches)[bid].state in {BatchSucceeded, BatchCompleted}
      ensures result.Err? ==> Value() == old(Value())
      ensures result.Ok? ==>
                && bid in old(batches) && CallLeaves(old(Value()), bid, Value())
                && bid in batches && result.value == batches[bid]
    {
      if bid !in batches {
        return Err(BatchNotFound), [];
      }
      MayProcessMeans(Value(), bid);
      if !Validate(BATCH_EDGES, batches[bid].state, Processing) {
        return Err(InvalidTransition(batches[bid].state, Processing)), [];
      }
      hide ApplyAll, Attempt, NoDup, CallLeaves;
      var batch;
      batch, order := Process(bid);
      AttemptInFull(old(Value()), bid, order);
      return Ok(batch), order;
    }

    /** The scheduled task: every rolled-back batch in the snapshot becomes pending again. */
    method RequeueRolledBack()
      modifies this
      ensures Value() == RequeueAll(old(Value()))
      ensures mails == old(mails) && items == old(items) && batches.Keys == old(batches).Keys
      ensures forall b :: b in batches ==>
                var was := old(batches)[b];
                batches[b] ==
                if was.state == BatchRolledBack then was.(state := BatchPending, version := was.version + 1) else was
    {
      var snapshot := batches;
      RequeuedMeans(snapshot);
      hide Requeued;
      var left := snapshot.Keys;
      while left != {}
        invariant left <= snapshot.Keys && mails == old(mails) && items == old(items)
        invariant batches == map b | b in snapshot :: if b in left then snapshot[b] else Requeued(snapshot[b])
        decreases |left|
      {
        var b :| b in left;
        left := left - {b};
        var batch := snapshot[b];
        RequeuedMeans(snapshot);
        if batch.state == BatchRolledBack {
          batch := batch.(state := BatchPending, version := batch.version + 1);
          SaveBatch(b, batch);
        }
      }
    }

    /** Creation stops at the first missing mail, leaving the batch and the items before it stored. */
    method CreateBatch(vehicleNo: string, date: string, routeId: string, mailIds: seq<Id>, dispositionMailIds: seq<Id>,
                       bid: Id, itemIds: seq<Id>) returns (result: Result<Batch, ServiceError>)
      requires |itemIds| == if dispositionMailIds == [] then |mailIds| else |dispositionMailIds|
      modifies this
      ensures result == Err(RequiredFieldMissing) <==> vehicleNo == "" || date == "" || routeId == ""
      ensures result == Err(RequiredFieldMissing) ==> Value() == old(Value())
      ensures result != Err(RequiredFieldMissing) ==>
                var chosen := if dispositionMailIds == [] then mailIds else dispositionMailIds;
                var batch := Batch(Trip(vehicleNo, date, routeId), BatchPending, |chosen|, 0, 0, 1);
                var n := Present(old(Value()), chosen);
                && result == (if n == |chosen| then Ok(batch) else Err(MailNotFound(chosen[n])))
                && batches == old(batches)[bid := batch]
                && CreatedUpTo(old(Value()), bid, chosen, itemIds, n, Value())
                && Value() == BatchSaga.CreateBatch(old(Value()), bid, Trip(vehicleNo, date, routeId), chosen, itemIds)
    {
      if vehicleNo == "" || date == "" || routeId == "" {
        return Err(RequiredFieldMissing);
      }
      var itemCount := |dispositionMailIds|;
      if itemCount == 0 {
        itemCount := |mailIds|;
      }
      var batch := Batch(Trip(vehicleNo, date, routeId), BatchPending, itemCount, 0, 0, 1);
      SaveBatch(bid, batch);
      var chosen := if |dispositionMailIds| > 0 then dispositionMailIds else mailIds;
      ghost var start := Value();
      CreatesItems(start, bid, chosen, itemIds);
      SamePresent(old(Value()), start, chosen);
      CreatedBefore(old(Value()), start, bid, chosen, itemIds);
      hide CreatedUpTo, Present;
      var i := 0;
      while i < |chosen|
        invariant 0 <= i <= |chosen| && mails == old(mails)
        invariant CreateItems(start, bid, chosen, itemIds) == CreateItems(Value(), bid, chosen[i..], itemIds[i..])
        invariant i <= Present(start, chosen)
      {
        if chosen[i] !in mails {
          return Err(MailNotFound(chosen[i]));
        }
        SaveItem(itemIds[i], Item(bid, chosen[i], ItemPending, NoError));
        assert chosen[i..][1..] == chosen[i + 1..] && itemIds[i..][1..] == itemIds[i + 1..];
        i := i + 1;
      }
      return Ok(batch);
    }
  }

  lemma ForwardStart(s: Store, order: seq<Id>)
    ensures Forward(s, order[..0]) == [] && ApplyAll(s, []) == s && Processed(s, Range(order[..0])) == {}
  {
  }

  lemma CompensateStart(s: Store, order: seq<Id>, processed: set<Id>)
    ensures Compensate(s, order[..0], processed) == [] && ApplyAll(s, []) == s
  {
  }

  lemma ProcessedSnoc(s: Store, order: seq<Id>, i: nat)
    requires i < |order| && order[i] in s.items
    ensures Processed(s, Range(order[..i + 1])) ==
        Processed(s, Range(order[..i])) + (if Hit(s, order[i]) then {order[i]} else {})
  {
    RangeSnoc(order, i);
    hide Range, Hit;
  }

  lemma SkipsSucceeded(s: Store, id: Id)
    requires id in s.items
    ensures s.items[id].state == ItemSucceeded ==> ForwardOne(s, id) == [] && ApplyAll(s, []) == s && !Hit(s, id)
  {
  }

  lemma AllSucceeded(s: Store, order: seq<Id>, listed: seq<Item>)
    requires Mirrors(s, order, listed)
    ensures Succeeded(s, Range(order)) == Range(order) <==>
        forall j :: 0 <= j < |listed| ==> listed[j].state == ItemSucceeded
  {
    var done := Succeeded(s, Range(order));
    if done == Range(order) {
      forall j | 0 <= j < |listed| ensures listed[j].state == ItemSucceeded {
        assert order[j] in done;
      }
    }
    if forall j :: 0 <= j < |listed| ==> listed[j].state == ItemSucceeded {
      forall id | id in Range(order) ensures id in done {
        var j :| 0 <= j < |order| && order[j] == id;
        assert listed[j].state == ItemSucceeded;
      }
    }
  }

  /** A call is refused for a batch that has succeeded or completed, and for no other. */
  lemma MayProcessMeans(s: Store, bid: Id)
    ensures MayProcess(s, bid) <==> bid in s.batches && s.batches[bid].state !in {BatchSucceeded, BatchCompleted}
  {
    if bid in s.batches {
      match s.batches[bid].state
      case BatchPending => assert MayProcess(s, bid);
      case Processing => assert MayProcess(s, bid);
      case BatchSucceeded => assert !MayProcess(s, bid);
      case BatchRolledBack => assert MayProcess(s, bid);
      case BatchCompleted => assert !MayProcess(s, bid);
    }
  }

  lemma RequeuedMeans(batches: map<Id, Batch>)
    ensures forall b {:trigger Requeued(batches[b])} :: b in batches ==>
              Requeued(batches[b]) ==
              if batches[b].state == BatchRolledBack
              then batches[b].(state := BatchPending, version := batches[b].version + 1) else batches[b]
  {
  }

  /** Storing the batch record first changes nothing about its items. */
  lemma CreatedBefore(s: Store, u: Store, bid: Id, mailIds: seq<Id>, itemIds: seq<Id>)
    requires u.mails == s.mails && u.items == s.items && |mailIds| == |itemIds|
    ensures forall n: nat, t :: n <= |mailIds| && CreatedUpTo(u, bid, mailIds, itemIds, n, t) ==>
              CreatedUpTo(s, bid, mailIds, itemIds, n, t)
  {
  }

  lemma LeavesLast(s: Store, bid: Id, order: seq<Id>, b: Batch)
    requires bid in s.batches && (forall id :: id in order ==> id in s.items)
    requires var t := ApplyAll(s, Attempt(s, bid, order)); bid in t.batches && t.batches[bid] == b
    ensures Leaves(s, bid, order, b)
  {
  }

  /** The writes of a call after the first, which saves the batch as processing. */
  function Rest(s: Store, bid: Id, begun: Batch, order: seq<Id>): seq<Write>
    requires forall id :: id in order ==> id in s.items
  {
    var forward := Forward(s, order);
    var middle := ApplyAll(s, forward);
    ForwardKeepsItems(s, order);
    forward + if Succeeded(middle, Range(order)) == Range(order) then Closing(bid, begun, |order|)
              else Undoing(middle, bid, begun, order, Processed(s, Range(order)))
  }

  lemma RestIs(s: Store, bid: Id, begun: Batch, order: seq<Id>, tail: seq<Write>)
    requires forall id :: id in order ==> id in s.items
    requires forall id :: id in order ==> id in ApplyAll(s, Forward(s, order)).items
    requires var middle := ApplyAll(s, Forward(s, order));
             tail == if Succeeded(middle, Range(order)) == Range(order) then Closing(bid, begun, |order|)
                     else Undoing(middle, bid, begun, order, Processed(s, Range(order)))
    ensures Rest(s, bid, begun, order) == Forward(s, order) + tail
    ensures ApplyAll(s, Rest(s, bid, begun, order)) == ApplyAll(ApplyAll(s, Forward(s, order)), tail)
  {
    hide ApplyAll, Forward, Succeeded, Processed, Range, Closing, Undoing;
    ApplyConcat(s, Forward(s, order), tail);
  }

  lemma AttemptIsRest(s: Store, bid: Id, order: seq<Id>)
    requires bid in s.batches && forall id :: id in order ==> id in s.items
    ensures var begun := Begun(s.batches[bid]);
            && Attempt(s, bid, order) == [PutBatch(bid, begun)] + Rest(Begin(s, bid), bid, begun, order)
            && ApplyAll(s, Attempt(s, bid, order)) == ApplyAll(Begin(s, bid), Rest(Begin(s, bid), bid, begun, order))
  {
    AttemptSplit(s, bid, order);
    hide *;
    var first := PutBatch(bid, Begun(s.batches[bid]));
    ApplyShort(s, [first]);
    ApplyConcat(s, [first], Rest(Begin(s, bid), bid, Begun(s.batches[bid]), order));
  }

  lemma AttemptSplit(s: Store, bid: Id, order: seq<Id>)
    requires bid in s.batches && forall id :: id in order ==> id in s.items
    ensures (forall id :: id in order ==> id in Begin(s, bid).items) &&
        Begin(s, bid) == Apply(s, PutBatch(bid, Begun(s.batches[bid])))
    ensures var begun := Begun(s.batches[bid]);
            Attempt(s, bid, order) == [PutBatch(bid, begun)] + Rest(Begin(s, bid), bid, begun, order)
  {
    BatchesApart(s, Begin(s, bid), Range(order));
    hide ApplyAll, Forward, Succeeded, Processed, Range, Closing, Undoing, Begun;
  }
}
