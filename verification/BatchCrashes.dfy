/**
 What a kill leaves behind when it falls anywhere in a call, the compensation loop included, and
 what a later completion makes of it.
 */
module BatchCrashes {
  import opened Domain
  import opened BatchModel
  import opened BatchSaga

  // ---------------------------------------------------------------- a batch left succeeded

  lemma SucceededStays(s: Store, step: RunStep, bid: Id)
    requires Enabled(s, step) && bid in s.batches && s.batches[bid].state == BatchSucceeded
    ensures bid in After(s, step).batches && After(s, step).batches[bid] == s.batches[bid]
  {
    match step
    case Create(other, trip, mailIds, itemIds) =>
      var b := Batch(trip, BatchPending, |mailIds|, 0, 0, 1);
      CreateItemsKeepsBatches(Apply(s, PutBatch(other, b)), other, mailIds, itemIds);
    case Process(other, order) =>
      if MayProcess(s, other) {
        AttemptIs(s, other, order);
        ListingIs(s, other, order);
        BatchesAfter(s, other, bid);
        hide Outcome, Attempt, ApplyAll;
      }
    case Requeue =>
    case ChangeMail(id, mail) =>
  }

  lemma {:induction false} CreateItemsKeepsBatches(s: Store, bid: Id, mailIds: seq<Id>, itemIds: seq<Id>)
    requires |itemIds| == |mailIds|
    ensures CreateItems(s, bid, mailIds, itemIds).batches == s.batches
    decreases mailIds
  {
    if mailIds != [] && mailIds[0] in s.mails {
      var item := Item(bid, mailIds[0], ItemPending, NoError);
      CreateItemsKeepsBatches(Apply(s, PutItem(itemIds[0], item)), bid, mailIds[1..], itemIds[1..]);
    }
  }

  /** A batch left succeeded by a kill stays as it is over every run of calls, requeues and outside changes. */
  lemma {:induction false} SucceededIsForever(s: Store, steps: seq<RunStep>, bid: Id)
    requires Feasible(s, steps) && bid in s.batches && s.batches[bid].state == BatchSucceeded
    ensures bid in Final(s, steps).batches && Final(s, steps).batches[bid] == s.batches[bid]
    decreases steps
  {
    if steps == [] {
    } else {
      SucceededStays(s, steps[0], bid);
      hide Enabled, After;
      SucceededIsForever(After(s, steps[0]), steps[1..], bid);
    }
  }

  // ---------------------------------------------------------------- what a completion leaves unarrived

  predicate HasArrived(s: Store, m: Id) { m in s.mails && s.mails[m].state == Arrived }

  /** Stored as succeeded, with a mail that has not arrived and that no item still to be processed names. */
  predicate Stranded(s: Store, bid: Id, id: Id) {
    && id in s.items && s.items[id].batch == bid && s.items[id].state == ItemSucceeded
    && !HasArrived(s, s.items[id].mailId)
    && forall j :: j in ItemsOf(s, bid) && s.items[j].mailId == s.items[id].mailId ==> s.items[j].state == ItemSucceeded
  }

  /**
   A completing call leaves the mail of an item unarrived exactly if the item was stranded when
   the call began.
   */
  lemma CompletionLeavesExactlyTheStranded(s: Store, bid: Id, order: seq<Id>, b: Batch, id: Id)
    requires bid in s.batches && IsListing(s, bid, order) && Leaves(s, bid, order, b) && b.state == BatchCompleted
    requires id in s.items && s.items[id].batch == bid
    ensures var t := ApplyAll(s, Attempt(s, bid, order));
            && id in t.items && t.items[id].state == ItemSucceeded && t.items[id].mailId == s.items[id].mailId
            && (!HasArrived(t, s.items[id].mailId) <==> Stranded(s, bid, id))
  {
    AttemptIs(s, bid, order);
    ListingIs(s, bid, order);
    BatchesAfter(s, bid, bid);
    ItemsAfter(s, bid, id);
    assert Clean(s, ItemsOf(s, bid));
    CompletedMailIs(s, bid, s.items[id].mailId);
    hide Attempt, ApplyAll, Outcome, Clean;
    var m, ids := s.items[id].mailId, ItemsOf(s, bid);
    if HitsOn(s, ids, m) != {} {
      var j :| j in HitsOn(s, ids, m);
      assert j in ids && s.items[j].mailId == m && s.items[j].state != ItemSucceeded;
    } else if !HasArrived(s, m) {
      forall j | j in ids && s.items[j].mailId == m ensures s.items[j].state == ItemSucceeded {
        PendingIsHit(s, ids, j);
        assert j !in HitsOn(s, ids, m);
      }
    }
  }

  lemma PendingIsHit(s: Store, ids: set<Id>, j: Id)
    requires Clean(s, ids) && j in ids && j in s.items
    ensures s.items[j].state == ItemSucceeded || Hit(s, j)
  {
  }

  /** After a completing call a mail has arrived exactly if it had before, or some item on it was processed. */
  lemma CompletedMailIs(s: Store, bid: Id, m: Id)
    requires bid in s.batches && Clean(s, ItemsOf(s, bid))
    ensures HasArrived(Outcome(s, bid, ItemsOf(s, bid)), m) <==>
            HasArrived(s, m) || HitsOn(s, ItemsOf(s, bid), m) != {}
  {
    var hits := HitsOn(s, ItemsOf(s, bid), m);
    if hits != {} {
      var j :| j in hits;
      assert m in s.mails;
    }
    assert |hits| == 0 <==> hits == {};
    hide HitsOn, Clean;
  }

  // ---------------------------------------------------------------- which kills strand an item

  /** The write just made sent a mail back: its item is saved only by the next one. */
  predicate SendsBack(w: Write) { w.PutMail? && w.mail.state == InTransit }

  ghost predicate NoneStranded(s: Store, bid: Id) {
    forall id :: id in s.items ==> !Stranded(s, bid, id)
  }

  predicate AllSucceededOn(s: Store, bid: Id, m: Id) {
    forall j :: j in ItemsOf(s, bid) && s.items[j].mailId == m ==> s.items[j].state == ItemSucceeded
  }

  /** If the item is succeeded, its mail has arrived exactly if every item of the batch on it is succeeded. */
  predicate PoisedAt(s: Store, bid: Id, id: Id) {
    id in ItemsOf(s, bid) && s.items[id].state == ItemSucceeded ==>
      (HasArrived(s, s.items[id].mailId) <==> AllSucceededOn(s, bid, s.items[id].mailId))
  }

  ghost predicate Poised(s: Store, bid: Id) { forall id :: PoisedAt(s, bid, id) }

  function WithMail(s: Store, m: Id, mail: Mail): Store { s.(mails := s.mails[m := mail]) }

  function WithItem(s: Store, id: Id, item: Item): Store { s.(items := s.items[id := item]) }

  lemma ArrivalStrandsNothing(s: Store, bid: Id, m: Id, mail: Mail)
    requires NoneStranded(s, bid) && mail.state == Arrived
    ensures NoneStranded(WithMail(s, m, mail), bid)
  {
    var t := WithMail(s, m, mail);
    forall x | x in t.items ensures !Stranded(t, bid, x) {
      assert !Stranded(s, bid, x);
      assert ItemsOf(t, bid) == ItemsOf(s, bid);
    }
  }

  lemma VisitStrandsNothing(s: Store, bid: Id, id: Id, item: Item)
    requires NoneStranded(s, bid) && id in s.items && s.items[id].state != ItemSucceeded
    requires item.batch == s.items[id].batch && item.mailId == s.items[id].mailId
    requires item.state == ItemSucceeded ==> HasArrived(s, item.mailId)
    ensures NoneStranded(WithItem(s, id, item), bid)
  {
    var t := WithItem(s, id, item);
    forall x | x in t.items ensures !Stranded(t, bid, x) {
      assert !Stranded(s, bid, x);
      assert forall j :: j in ItemsOf(s, bid) <==> j in ItemsOf(t, bid);
    }
  }

  lemma ForwardOnePrefix(s: Store, bid: Id, id: Id, k: nat)
    requires NoneStranded(s, bid) && id in s.items && k <= |ForwardOne(s, id)|
    ensures var t := ApplyAll(s, ForwardOne(s, id)[..k]); NoneStranded(t, bid) && SameItems(s, t)
  {
    hide NoneStranded, ApplyAll, SameItems, WhyNot;
    var ws := ForwardOne(s, id);
    ApplyShort(s, ws[..k]);
    SameItself(s);
    ApplyShort(s, []);
    var item := s.items[id];
    if k == 0 {
    } else if Processable(s, item.mailId) {
      ArrivingPrefix(s, bid, id);
    } else {
      FailingPrefix(s, bid, id, WhyNot(s, item.mailId));
    }
  }

  lemma FailingPrefix(s: Store, bid: Id, id: Id, error: ItemError)
    requires NoneStranded(s, bid) && id in s.items && s.items[id].state != ItemSucceeded
    ensures var t := WithItem(s, id, s.items[id].(state := ItemFailed, error := error));
            NoneStranded(t, bid) && SameItems(s, t)
  {
    hide NoneStranded;
    VisitStrandsNothing(s, bid, id, s.items[id].(state := ItemFailed, error := error));
  }

  lemma ArrivingPrefix(s: Store, bid: Id, id: Id)
    requires NoneStranded(s, bid) && id in s.items && s.items[id].state != ItemSucceeded
    requires s.items[id].mailId in s.mails
    ensures var m, item := s.items[id].mailId, s.items[id].(state := ItemSucceeded);
            var arrived := WithMail(s, m, s.mails[m].(state := Arrived, version := s.mails[m].version + 1));
            && NoneStranded(arrived, bid) && SameItems(s, arrived)
            && NoneStranded(WithItem(arrived, id, item), bid) && SameItems(s, WithItem(arrived, id, item))
  {
    hide NoneStranded;
    var m := s.items[id].mailId;
    var mail := s.mails[m].(state := Arrived, version := s.mails[m].version + 1);
    ArrivalStrandsNothing(s, bid, m, mail);
    VisitStrandsNothing(WithMail(s, m, mail), bid, id, s.items[id].(state := ItemSucceeded));
  }

  lemma {:induction false} ForwardStrandsNothing(s: Store, bid: Id, order: seq<Id>, k: nat)
    requires NoneStranded(s, bid) && (forall id :: id in order ==> id in s.items) && k <= |Forward(s, order)|
    ensures var t := ApplyAll(s, Forward(s, order)[..k]); NoneStranded(t, bid) && SameItems(s, t)
    decreases order
  {
    hide NoneStranded, ForwardOne, ApplyAll, SameItems;
    if order == [] {
      SameItself(s);
      ApplyShort(s, []);
    } else {
      ForwardSplits(s, order);
      hide Forward;
      var ws := ForwardOne(s, order[0]);
      CutOf(s, ws, Forward(ApplyAll(s, ws), order[1..]), k);
      if k <= |ws| {
        ForwardOnePrefix(s, bid, order[0], k);
      } else {
        ForwardOnePrefix(s, bid, order[0], |ws|);
        var t := ApplyAll(s, ws);
        SameListed(s, t, order);
        ForwardStrandsNothing(t, bid, order[1..], k - |ws|);
        SameThrough(s, t, ApplyAll(s, Forward(s, order)[..k]));
      }
    }
  }

  lemma {:induction false} ForwardSendsNothingBack(s: Store, order: seq<Id>)
    requires forall id :: id in order ==> id in s.items
    ensures forall w :: w in Forward(s, order) ==> !SendsBack(w)
    decreases order
  {
    if order == [] {
    } else {
      ForwardSplits(s, order);
      hide Forward, ApplyAll;
      ForwardSendsNothingBack(ApplyAll(s, ForwardOne(s, order[0])), order[1..]);
    }
  }

  /** After the forward loop, items and mails are poised for compensation. */
  lemma MiddleIsPoised(s: Store, bid: Id, ids: set<Id>)
    requires ids == ItemsOf(s, bid) && NoneStranded(ForwardOutcome(s, ids), bid)
    ensures Poised(ForwardOutcome(s, ids), bid)
  {
    var t := ForwardOutcome(s, ids);
    assert ItemsOf(t, bid) == ids;
    forall x ensures PoisedAt(t, bid, x) {
      if x in ids && t.items[x].state == ItemSucceeded {
        assert !Stranded(t, bid, x);
        var m := t.items[x].mailId;
        if HasArrived(t, m) {
          MailWasProcessable(s, ids, m);
          forall j | j in ids && t.items[j].mailId == m ensures t.items[j].state == ItemSucceeded {
          }
        }
      }
    }
  }

  lemma MailWasProcessable(s: Store, ids: set<Id>, m: Id)
    requires HasArrived(ForwardOutcome(s, ids), m)
    ensures Processable(s, m)
  {
    var hits := HitsOn(s, ids, m);
    if hits != {} {
      var j :| j in hits;
    }
    assert |hits| == 0 <==> hits == {};
    hide HitsOn;
  }

  /** Sending a mail back strands exactly the items on it, all of which were succeeded. */
  lemma SendingBackStrands(s: Store, bid: Id, m: Id, mail: Mail, x: Id)
    requires Poised(s, bid) && AllSucceededOn(s, bid, m) && mail.state == InTransit && x in ItemsOf(s, bid)
    ensures Stranded(WithMail(s, m, mail), bid, x) <==> s.items[x].mailId == m
  {
    var t := WithMail(s, m, mail);
    assert PoisedAt(s, bid, x);
    assert ItemsOf(t, bid) == ItemsOf(s, bid);
    hide Poised, ItemsOf;
  }

  /** Once the item is rolled back, with its mail not arrived, everything is poised again. */
  lemma RollingBackPoises(s: Store, bid: Id, id: Id, mails: map<Id, Mail>)
    requires Poised(s, bid) && id in ItemsOf(s, bid)
    requires var m := s.items[id].mailId;
             !(m in mails && mails[m].state == Arrived)
             && forall other :: other != m ==>
                  (other in mails <==> other in s.mails) && (other in mails ==> mails[other] == s.mails[other])
    ensures Poised(s.(mails := mails, items := s.items[id := s.items[id].(state := ItemRolledBack)]), bid)
  {
    var t := s.(mails := mails, items := s.items[id := s.items[id].(state := ItemRolledBack)]);
    assert forall j :: j in ItemsOf(t, bid) <==> j in ItemsOf(s, bid);
    forall x ensures PoisedAt(t, bid, x) {
      assert PoisedAt(s, bid, x);
      if x in ItemsOf(t, bid) && t.items[x].state == ItemSucceeded {
        var m := t.items[x].mailId;
        if m == s.items[id].mailId {
          assert !AllSucceededOn(t, bid, m);
        } else {
          OtherMailUntouched(s, t, bid, id, m);
        }
      }
    }
  }

  lemma OtherMailUntouched(s: Store, t: Store, bid: Id, id: Id, m: Id)
    requires id in s.items && s.items[id].mailId != m
    requires t.items == s.items[id := s.items[id].(state := ItemRolledBack)]
    ensures AllSucceededOn(t, bid, m) <==> AllSucceededOn(s, bid, m)
  {
    assert forall j :: j in ItemsOf(t, bid) <==> j in ItemsOf(s, bid);
    if AllSucceededOn(t, bid, m) {
      forall j | j in ItemsOf(s, bid) && s.items[j].mailId == m ensures s.items[j].state == ItemSucceeded {
        assert j in ItemsOf(t, bid) && t.items[j] == s.items[j];
      }
    }
  }

  lemma CompensateOnePoised(s: Store, bid: Id, id: Id)
    requires Poised(s, bid) && id in ItemsOf(s, bid)
    ensures var t := ApplyAll(s, CompensateOne(s, id));
            && Poised(t, bid) && SameItems(s, t)
            && forall x :: x in s.items && x != id ==> x in t.items && t.items[x] == s.items[x]
  {
    hide Poised, ApplyAll, CompensateOne;
    CompensateOneEffect(s, id);
    var t := ApplyAll(s, CompensateOne(s, id));
    RollingBackPoises(s, bid, id, t.mails);
  }

  /** Killed inside one compensation: between its two writes exactly the items on the mail sent back are stranded. */
  lemma CompensateOnePrefix(s: Store, bid: Id, id: Id, k: nat, x: Id)
    requires Poised(s, bid) && id in ItemsOf(s, bid) && s.items[id].state == ItemSucceeded
    requires k <= |CompensateOne(s, id)| && x in ItemsOf(s, bid)
    ensures var ws := CompensateOne(s, id);
            var t := ApplyAll(s, ws[..k]);
            && SameItems(s, t)
            && (Stranded(t, bid, x) <==> k > 0 && SendsBack(ws[k - 1]) && s.items[x].mailId == ws[k - 1].id)
  {
    hide Poised, Stranded, ApplyAll;
    var ws := CompensateOne(s, id);
    if k == 0 {
      ApplyShort(s, ws[..0]);
      PoisedStrandsNothing(s, bid, x);
    } else if k == |ws| {
      assert ws[..k] == ws;
      CompensateOnePoised(s, bid, id);
      PoisedStrandsNothing(ApplyAll(s, ws), bid, x);
    } else {
      ApplyShort(s, ws[..1]);
      ArrivedMeansAll(s, bid, id);
      SendingBackStrands(s, bid, s.items[id].mailId, ws[0].mail, x);
    }
  }

  lemma ArrivedMeansAll(s: Store, bid: Id, id: Id)
    requires Poised(s, bid) && id in ItemsOf(s, bid) && s.items[id].state == ItemSucceeded
    ensures HasArrived(s, s.items[id].mailId) ==> AllSucceededOn(s, bid, s.items[id].mailId)
  {
    assert PoisedAt(s, bid, id);
  }

  lemma {:induction false} CompensationStrandsExactly(s: Store, bid: Id, order: seq<Id>, processed: set<Id>, k: nat,
                                                      x: Id)
    requires Poised(s, bid) && NoDup(order) && x in ItemsOf(s, bid)
    requires forall id :: id in order ==> id in ItemsOf(s, bid)
    requires forall id :: id in order && id in processed ==> s.items[id].state == ItemSucceeded
    requires k <= |Compensate(s, order, processed)|
    ensures var ws := Compensate(s, order, processed);
            var t := ApplyAll(s, ws[..k]);
            && SameItems(s, t)
            && (Stranded(t, bid, x) <==> k > 0 && SendsBack(ws[k - 1]) && s.items[x].mailId == ws[k - 1].id)
    decreases order
  {
    hide Poised, Stranded, SendsBack, CompensateOne, SameItems, ApplyAll;
    if order == [] {
      ApplyShort(s, []);
      PoisedStrandsNothing(s, bid, x);
      SameItself(s);
    } else if order[0] !in processed {
      CompensationStrandsExactly(s, bid, order[1..], processed, k, x);
    } else {
      CompensateSplits(s, order, processed);
      hide Compensate;
      var ws := CompensateOne(s, order[0]);
      CutOf(s, ws, Compensate(ApplyAll(s, ws), order[1..], processed), k);
      if k <= |ws| {
        CompensateOnePrefix(s, bid, order[0], k, x);
      } else {
        var t := ApplyAll(s, ws);
        CompensateOnePoised(s, bid, order[0]);
        StillToCompensate(s, t, bid, order, processed);
        SameMembers(s, t, bid);
        CompensationStrandsExactly(t, bid, order[1..], processed, k - |ws|, x);
        SameThrough(s, t, ApplyAll(s, Compensate(s, order, processed)[..k]));
      }
    }
  }

  lemma StillToCompensate(s: Store, t: Store, bid: Id, order: seq<Id>, processed: set<Id>)
    requires order != [] && NoDup(order) && SameItems(s, t)
    requires forall id :: id in order ==> id in ItemsOf(s, bid)
    requires forall id :: id in order && id in processed ==> id in s.items && s.items[id].state == ItemSucceeded
    requires forall id :: id in s.items && id != order[0] ==> id in t.items && t.items[id] == s.items[id]
    ensures forall id :: id in order[1..] ==> id in ItemsOf(t, bid)
    ensures forall id :: id in order[1..] && id in processed ==> id in t.items && t.items[id].state == ItemSucceeded
    ensures NoDup(order[1..])
  {
    RangeHead(order);
    assert order[0] !in order[1..];
    forall id | id in order[1..] ensures id in order && id != order[0] {
    }
  }

  lemma PoisedStrandsNothing(s: Store, bid: Id, x: Id)
    requires Poised(s, bid)
    ensures !Stranded(s, bid, x)
  {
    assert PoisedAt(s, bid, x);
  }

  // ---------------------------------------------------------------- kills anywhere in a call

  /** The last write before the kill, if there was one. */
  function LastWrite(s: Store, bid: Id, crash: Crash): Option<Write>
    requires bid in s.batches && forall id :: id in crash.order ==> id in s.items
  {
    var ws := Attempt(s, bid, crash.order);
    var n := if crash.writes <= |ws| then crash.writes else |ws|;
    if n == 0 then None else Some(ws[n - 1])
  }

  /** Parts of the store that batch records take no part in. */
  lemma BatchesDoNotMatter(s: Store, t: Store, bid: Id)
    requires t.mails == s.mails && t.items == s.items
    ensures NoneStranded(s, bid) <==> NoneStranded(t, bid)
    ensures Poised(s, bid) <==> Poised(t, bid)
    ensures SameItems(s, t) && ItemsOf(s, bid) == ItemsOf(t, bid)
    ensures forall x :: Stranded(s, bid, x) <==> Stranded(t, bid, x)
  {
    assert ItemsOf(s, bid) == ItemsOf(t, bid);
    forall x ensures Stranded(s, bid, x) <==> Stranded(t, bid, x) {
    }
    assert forall x :: PoisedAt(s, bid, x) <==> PoisedAt(t, bid, x);
    hide Stranded, PoisedAt;
    assert forall x :: x in s.items ==> (Stranded(s, bid, x) <==> Stranded(t, bid, x));
  }

  /** The writes of a call cut after `k` writes of its last part. */
  lemma KilledInTail(s: Store, bid: Id, order: seq<Id>, tail: seq<Write>, k: nat)
    requires bid in s.batches && (forall id :: id in order ==> id in s.items) && k <= |tail|
    requires Attempt(s, bid, order) == [PutBatch(bid, Begun(s.batches[bid]))] + Forward(Begin(s, bid), order) + tail
    ensures var ws := Attempt(s, bid, order);
            var f := 1 + |Forward(Begin(s, bid), order)|;
            && f + k <= |ws|
            && ApplyAll(s, ws[..f + k]) ==
                 ApplyAll(ApplyAll(Begin(s, bid), Forward(Begin(s, bid), order)), tail[..k])
            && (k > 0 ==> ws[f + k - 1] == tail[k - 1])
  {
    hide Attempt, Forward, ApplyAll, Begun;
    var first := PutBatch(bid, Begun(s.batches[bid]));
    ApplyShort(s, [first]);
    var forward := Forward(Begin(s, bid), order);
    var ws := Attempt(s, bid, order);
    assert ws[..1 + |forward| + k] == [first] + forward + tail[..k];
    ApplyConcat(s, [first], forward);
    ApplyConcat(s, [first] + forward, tail[..k]);
  }

  lemma KilledInForward(s: Store, bid: Id, order: seq<Id>, k: nat, x: Id)
    requires bid in s.batches && NoneStranded(s, bid) && (forall id :: id in order ==> id in s.items)
    requires k <= 1 + |Forward(Begin(s, bid), order)|
    ensures var ws := Attempt(s, bid, order);
            && k <= |ws|
            && NoneStranded(ApplyAll(s, ws[..k]), bid) && SameItems(s, ApplyAll(s, ws[..k]))
            && (k > 0 ==> !SendsBack(ws[k - 1]))
  {
    hide NoneStranded, SameItems, Forward, ApplyAll, SendsBack, Begin;
    var first := PutBatch(bid, Begun(s.batches[bid]));
    BeginIs(s, bid);
    var forward := Forward(Begin(s, bid), order);
    var tail := Tail(s, bid, order);
    AttemptHasTail(s, bid, order);
    hide Attempt, Tail;
    BatchesDoNotMatter(s, Begin(s, bid), bid);
    ForwardSendsNothingBack(Begin(s, bid), order);
    NotABatch(first);
    if k == 0 {
      ApplyShort(s, []);
      SameItself(s);
    } else {
      ForwardStrandsNothing(Begin(s, bid), bid, order, k - 1);
      assert Attempt(s, bid, order)[..k] == [first] + forward[..k - 1];
      ApplyConcat(s, [first], forward[..k - 1]);
      SameThrough(s, Begin(s, bid), ApplyAll(Begin(s, bid), forward[..k - 1]));
      assert Attempt(s, bid, order)[k - 1] == if k == 1 then first else forward[k - 2];
    }
  }

  lemma BeginIs(s: Store, bid: Id)
    requires bid in s.batches
    ensures Begin(s, bid) == ApplyAll(s, [PutBatch(bid, Begun(s.batches[bid]))])
    ensures Begin(s, bid).items == s.items && Begin(s, bid).mails == s.mails
  {
    ApplyShort(s, [PutBatch(bid, Begun(s.batches[bid]))]);
    hide ApplyAll;
  }

  lemma NotABatch(w: Write)
    ensures !w.PutMail? ==> !SendsBack(w)
  {
  }

  lemma {:induction false} CompensationEndsWithAnItem(s: Store, order: seq<Id>, processed: set<Id>)
    requires forall id :: id in order ==> id in s.items
    ensures var ws := Compensate(s, order, processed); ws != [] ==> !SendsBack(ws[|ws| - 1])
    decreases order
  {
    if order == [] {
    } else if order[0] !in processed {
      CompensationEndsWithAnItem(s, order[1..], processed);
    } else {
      CompensateOneEffect(s, order[0]);
      CompensationEndsWithAnItem(ApplyAll(s, CompensateOne(s, order[0])), order[1..], processed);
    }
  }

  lemma KilledWhileClosing(middle: Store, bid: Id, begun: Batch, count: int, k: nat)
    requires k <= 2
    ensures var t := ApplyAll(middle, Closing(bid, begun, count)[..k]);
            && t.mails == middle.mails && t.items == middle.items
            && (k > 0 ==> !SendsBack(Closing(bid, begun, count)[k - 1]))
  {
    ApplyShort(middle, Closing(bid, begun, count)[..k]);
  }

  lemma KilledWhileUndoing(middle: Store, bid: Id, begun: Batch, order: seq<Id>, processed: set<Id>, k: nat, x: Id)
    requires Poised(middle, bid) && NoDup(order) && x in ItemsOf(middle, bid)
    requires forall id :: id in order ==> id in ItemsOf(middle, bid)
    requires forall id :: id in order && id in processed ==> middle.items[id].state == ItemSucceeded
    requires k <= |Undoing(middle, bid, begun, order, processed)|
    ensures var ws := Undoing(middle, bid, begun, order, processed);
            var t := ApplyAll(middle, ws[..k]);
            && SameItems(middle, t)
            && (Stranded(t, bid, x) <==> k > 0 && SendsBack(ws[k - 1]) && middle.items[x].mailId == ws[k - 1].id)
  {
    hide Poised, Stranded, SameItems, Compensate, SendsBack, GiveUp, Succeeded, ApplyAll;
    var undo := Compensate(middle, order, processed);
    hide ItemsOf;
    var last := PutBatch(bid, GiveUp(begun, |Succeeded(middle, Range(order))|, |order|));
    CompensationEndsWithAnItem(middle, order, processed);
    NotABatch(last);
    CutOf(middle, undo, [last], k);
    if k <= |undo| {
      CompensationStrandsExactly(middle, bid, order, processed, k, x);
    } else {
      CompensationStrandsExactly(middle, bid, order, processed, |undo|, x);
      var t := ApplyAll(middle, undo);
      assert [last][..1] == [last];
      ApplyShort(t, [last]);
      BatchesDoNotMatter(t, Apply(t, last), bid);
      SameThrough(middle, t, Apply(t, last));
    }
  }

  /** The forward loop leaves the items it processed succeeded, and everything poised. */
  lemma AfterForward(s: Store, bid: Id, order: seq<Id>)
    requires bid in s.batches && NoneStranded(s, bid) && IsListing(s, bid, order)
    ensures var middle := ApplyAll(Begin(s, bid), Forward(Begin(s, bid), order));
            && SameItems(s, middle) && NoneStranded(middle, bid) && Poised(middle, bid)
            && forall id :: id in Processed(s, Range(order)) ==> middle.items[id].state == ItemSucceeded
  {
    var s0 := Begin(s, bid);
    var forward := Forward(s0, order);
    var middle := ApplyAll(s0, forward);
    var ids := Range(order);
    ListingIs(s, bid, order);
    MiddleIs(s, bid, order);
    ProcessedSucceed(s, ids);
    BatchesDoNotMatter(s, s0, bid);
    assert forward[..|forward|] == forward;
    ForwardStrandsNothing(s0, bid, order, |forward|);
    hide Forward, ForwardOutcome, ApplyAll, NoneStranded, Poised, Begin, Clean, Succeeded, Processed, SameItems;
    SameThrough(s, s0, middle);
    BatchesDoNotMatter(middle, ForwardOutcome(s, ids), bid);
    MiddleIsPoised(s, bid, ids);
  }

  lemma ProcessedSucceed(s: Store, ids: set<Id>)
    ensures forall id :: id in Processed(s, ids) ==>
      id in ForwardOutcome(s, ids).items && ForwardOutcome(s, ids).items[id].state == ItemSucceeded
  {
    hide HitsOn, ArrivedBy;
  }

  /** The store after the forward loop, and the writes that are still to come. */
  function Middle(s: Store, bid: Id, order: seq<Id>): Store
    requires bid in s.batches && forall id :: id in order ==> id in s.items
  {
    ApplyAll(Begin(s, bid), Forward(Begin(s, bid), order))
  }

  function Tail(s: Store, bid: Id, order: seq<Id>): seq<Write>
    requires bid in s.batches && forall id :: id in order ==> id in s.items
  {
    ForwardKeepsItems(Begin(s, bid), order);
    var middle, begun := Middle(s, bid, order), Begun(s.batches[bid]);
    if Succeeded(middle, Range(order)) == Range(order) then Closing(bid, begun, |order|)
    else Undoing(middle, bid, begun, order, Processed(s, Range(order)))
  }

  lemma AttemptHasTail(s: Store, bid: Id, order: seq<Id>)
    requires bid in s.batches && forall id :: id in order ==> id in s.items
    ensures Attempt(s, bid, order) ==
            [PutBatch(bid, Begun(s.batches[bid]))] + Forward(Begin(s, bid), order) + Tail(s, bid, order)
  {
    hide Forward, ApplyAll, Begin, Begun, Closing, Undoing, Processed, Succeeded, Range;
  }

  lemma TailStrandsExactly(s: Store, bid: Id, order: seq<Id>, k: nat, x: Id)
    requires bid in s.batches && NoneStranded(s, bid) && IsListing(s, bid, order) && x in ItemsOf(s, bid)
    requires k <= |Tail(s, bid, order)|
    ensures var tail := Tail(s, bid, order);
            var t := ApplyAll(Middle(s, bid, order), tail[..k]);
            && SameItems(s, t)
            && (Stranded(t, bid, x) <==> k > 0 && SendsBack(tail[k - 1]) && s.items[x].mailId == tail[k - 1].id)
  {
    var middle, begun, processed := Middle(s, bid, order), Begun(s.batches[bid]), Processed(s, Range(order));
    AfterForward(s, bid, order);
    SameMembers(s, middle, bid);
    assert forall id :: id in order ==> id in ItemsOf(s, bid) && id in Range(order);
    hide ApplyAll, NoneStranded, Poised, Stranded, SendsBack, SameItems, Begun, Closing, Undoing, Middle,
      Processed, Succeeded, Range, ItemsOf;
    if Succeeded(middle, Range(order)) == Range(order) {
      ClosingLength(bid, begun, |order|);
      KilledWhileClosing(middle, bid, begun, |order|, k);
      var t := ApplyAll(middle, Closing(bid, begun, |order|)[..k]);
      BatchesDoNotMatter(middle, t, bid);
      NotStranded(t, bid, x);
      SameThrough(s, middle, t);
    } else {
      KilledWhileUndoing(middle, bid, begun, order, processed, k, x);
      SameThrough(s, middle, ApplyAll(middle, Undoing(middle, bid, begun, order, processed)[..k]));
    }
  }

  lemma CutStrandsExactly(s: Store, bid: Id, order: seq<Id>, n: nat, x: Id)
    requires bid in s.batches && NoneStranded(s, bid) && IsListing(s, bid, order) && x in ItemsOf(s, bid)
    requires n <= |Attempt(s, bid, order)|
    ensures var ws := Attempt(s, bid, order);
            var t := ApplyAll(s, ws[..n]);
            && SameItems(s, t)
            && (Stranded(t, bid, x) <==> n > 0 && SendsBack(ws[n - 1]) && s.items[x].mailId == ws[n - 1].id)
  {
    hide Forward, ApplyAll, NoneStranded, Stranded, SendsBack, SameItems, Begun, Tail, Attempt;
    AttemptHasTail(s, bid, order);
    var f := 1 + |Forward(Begin(s, bid), order)|;
    if n <= f {
      KilledInForward(s, bid, order, n, x);
      NotStranded(ApplyAll(s, Attempt(s, bid, order)[..n]), bid, x);
    } else {
      KilledInTail(s, bid, order, Tail(s, bid, order), n - f);
      TailStrandsExactly(s, bid, order, n - f, x);
    }
  }

  /**
   Kill a call anywhere, in a store where nothing is stranded: stranded are then exactly the items
   on the mail that the last write before the kill sent back, if it sent one back.
   */
  lemma KillStrandsExactly(s: Store, bid: Id, crash: Crash, x: Id)
    requires bid in s.batches && NoneStranded(s, bid) && IsListing(s, bid, crash.order) && x in ItemsOf(s, bid)
    ensures var t := Killed(s, bid, crash);
            var last := LastWrite(s, bid, crash);
            && SameItems(s, t)
            && (Stranded(t, bid, x) <==>
                last.Some? && SendsBack(last.value) && s.items[x].mailId == last.value.id)
  {
    var ws := Attempt(s, bid, crash.order);
    var n := if crash.writes <= |ws| then crash.writes else |ws|;
    assert ws[..|ws|] == ws;
    CutStrandsExactly(s, bid, crash.order, n, x);
    hide ApplyAll, NoneStranded, Stranded, SendsBack, SameItems, IsListing, Attempt, ItemsOf;
  }

  lemma ClosingLength(bid: Id, begun: Batch, count: int)
    ensures |Closing(bid, begun, count)| == 2
  {
  }

  lemma NotStranded(s: Store, bid: Id, x: Id)
    requires NoneStranded(s, bid)
    ensures !Stranded(s, bid, x)
  {
  }

  /**
   So from the empty store, after any run of whole calls, one killed call on a batch that may be
   processed strands exactly those items: nothing was stranded before it.
   */
  lemma FirstKillStrandsExactly(steps: seq<RunStep>, bid: Id, crash: Crash, x: Id)
    requires Feasible(NOTHING, steps) && MayProcess(Final(NOTHING, steps), bid)
    requires IsListing(Final(NOTHING, steps), bid, crash.order) && x in ItemsOf(Final(NOTHING, steps), bid)
    ensures var s := Final(NOTHING, steps);
            && NoneStranded(s, bid)
            && var last := LastWrite(s, bid, crash);
               Stranded(Killed(s, bid, crash), bid, x) <==>
                 last.Some? && SendsBack(last.value) && s.items[x].mailId == last.value.id
  {
    StatesAgreeForever(NOTHING, steps);
    AgreeingStrandsNothing(Final(NOTHING, steps), bid);
    hide Final, Feasible, NoneStranded, Killed, LastWrite, Stranded, MayProcess, IsListing, Agrees;
    KillStrandsExactly(Final(NOTHING, steps), bid, crash, x);
  }

  lemma AgreeingStrandsNothing(s: Store, bid: Id)
    requires Agrees(s) && MayProcess(s, bid)
    ensures bid in s.batches && NoneStranded(s, bid)
  {
  }

  // ---------------------------------------------------------------- a run that leaves a mail behind

  const B: Id := Id("batch")
  const X: Id := Id("x")
  const Y: Id := Id("y")
  const M: Id := Id("m")
  const N: Id := Id("n")
  const ORDER: seq<Id> := [X, Y]
  const NOTHING: Store := Store(map[], map[], map[])

  function InState(no: string, state: MailState, version: int): Mail { Mail(no, state, "", "", version) }

  function OfBatch(m: Id, state: ItemState, error: ItemError): Item { Item(B, m, state, error) }

  function Saved(state: BatchState, version: int): Batch { Batch(Trip("v", "d", "r"), state, 2, 0, 0, version) }

  /** Two mails, one of them not yet in transit, and a batch for both. */
  function Preparation(): seq<RunStep> {
    [ChangeMail(M, Some(InState("1", InTransit, 1))), ChangeMail(N, Some(InState("2", Registered, 1))),
     Create(B, Trip("v", "d", "r"), [M, N], [X, Y])]
  }

  function Prepared(): Store {
    Store(map[M := InState("1", InTransit, 1), N := InState("2", Registered, 1)],
          map[X := OfBatch(M, ItemPending, NoError), Y := OfBatch(N, ItemPending, NoError)],
          map[B := Saved(BatchPending, 1)])
  }

  /** After the forward loop: one item processed, the other not. */
  function HalfWay(): Store {
    Store(map[M := InState("1", Arrived, 2), N := InState("2", Registered, 1)],
          map[X := OfBatch(M, ItemSucceeded, NoError), Y := OfBatch(N, ItemFailed, Unprocessable("2", Registered))],
          map[B := Saved(Processing, 2)])
  }

  lemma PreparationIs()
    ensures Feasible(NOTHING, Preparation()) && Final(NOTHING, Preparation()) == Prepared()
  {
    var s1 := After(NOTHING, Preparation()[0]);
    var s2 := After(s1, Preparation()[1]);
    assert s2 == Store(map[M := InState("1", InTransit, 1), N := InState("2", Registered, 1)], map[], map[]);
    var s3 := Apply(s2, PutBatch(B, Saved(BatchPending, 1)));
    var s4 := Apply(s3, PutItem(X, OfBatch(M, ItemPending, NoError)));
    var s5 := Apply(s4, PutItem(Y, OfBatch(N, ItemPending, NoError)));
    assert s5 == Prepared();
    assert CreateItems(s5, B, [], []) == s5;
    assert CreateItems(s4, B, [N], [Y]) == CreateItems(s5, B, [], []);
    assert [M, N][1..] == [N] && [X, Y][1..] == [Y] && [N][1..] == [] && [Y][1..] == [];
    assert CreateItems(s3, B, [M, N], [X, Y]) == CreateItems(s4, B, [N], [Y]);
    assert After(s2, Preparation()[2]) == s5;
    assert Preparation()[1..][1..] == [Preparation()[2]] && [Preparation()[2]][1..] == [];
    hide After, CreateItems;
    assert Feasible(s5, []);
    assert Feasible(s2, [Preparation()[2]]) && Final(s2, [Preparation()[2]]) == s5;
    assert Preparation()[1..] == [Preparation()[1], Preparation()[2]];
    assert Feasible(s1, Preparation()[1..]) && Final(s1, Preparation()[1..]) == s5;
  }

  lemma PreparedFacts()
    ensures IsListing(Prepared(), B, ORDER) && NoneStranded(Prepared(), B) && X in ItemsOf(Prepared(), B)
    ensures B in Prepared().batches
  {
  }

  lemma ForwardIsHalfWay()
    ensures forall id :: id in ORDER ==> id in Prepared().items
    ensures |Forward(Begin(Prepared(), B), ORDER)| == 3
    ensures Middle(Prepared(), B, ORDER) == HalfWay()
  {
    var s0 := Begin(Prepared(), B);
    assert s0.batches == map[B := Saved(Processing, 2)];
    ForwardOneEffect(s0, X);
    var s1 := ApplyAll(s0, ForwardOne(s0, X));
    assert s1.mails == HalfWay().mails;
    assert |ForwardOne(s0, X)| == 2;
    ForwardOneEffect(s1, Y);
    var s2 := ApplyAll(s1, ForwardOne(s1, Y));
    assert |ForwardOne(s1, Y)| == 1;
    assert s2 == HalfWay();
    hide ApplyAll, ForwardOne;
    assert ORDER[1..] == [Y] && [Y][1..] == [];
    assert Forward(s1, [Y]) == ForwardOne(s1, Y) + Forward(s2, []);
    assert Forward(s0, ORDER) == ForwardOne(s0, X) + Forward(s1, [Y]);
    hide Forward;
    assert Forward(s1, [Y]) == ForwardOne(s1, Y);
    ApplyConcat(s0, ForwardOne(s0, X), ForwardOne(s1, Y));
  }

  /** The mail is back in transit, its item still stored as succeeded; then the other mail comes into transit. */
  function LeftBehind(other: MailState): Store {
    HalfWay().(mails := map[M := InState("1", InTransit, 3), N := InState("2", other, 1)])
  }

  lemma FirstUndoingWrite()
    ensures forall id :: id in ORDER ==> id in HalfWay().items
    ensures var tail := Undoing(HalfWay(), B, Saved(Processing, 2), ORDER, {X});
            |tail| > 0 && tail[0] == PutMail(M, InState("1", InTransit, 3))
  {
    var s := HalfWay();
    assert CompensateOne(s, X)[0] == PutMail(M, InState("1", InTransit, 3));
    assert ORDER[0] == X && X in {X};
    CompensateOneEffect(s, X);
    hide CompensateOne, ApplyAll;
    assert Compensate(s, ORDER, {X}) ==
        CompensateOne(s, X) + Compensate(ApplyAll(s, CompensateOne(s, X)), ORDER[1..], {X});
  }

  lemma HalfWayTail()
    ensures forall id :: id in ORDER ==> id in Prepared().items
    ensures Tail(Prepared(), B, ORDER) == Undoing(HalfWay(), B, Saved(Processing, 2), ORDER, {X})
  {
    ForwardIsHalfWay();
    assert Y in Range(ORDER) && Y !in Succeeded(HalfWay(), Range(ORDER));
    assert Processed(Prepared(), Range(ORDER)) == {X} by {
      assert X in Range(ORDER) && X == ORDER[0];
      assert Range(ORDER) == {X, Y};
    }
    assert Begun(Prepared().batches[B]) == Saved(Processing, 2);
    hide Undoing, Middle, Succeeded, Processed, Range, Prepared, HalfWay, Saved, Begun, Closing;
  }

  lemma SendBackFirst()
    ensures ApplyAll(HalfWay(), [PutMail(M, InState("1", InTransit, 3))]) == LeftBehind(Registered)
  {
    ApplyShort(HalfWay(), [PutMail(M, InState("1", InTransit, 3))]);
    hide ApplyAll;
  }

  /** Killed after five writes, the call has sent the mail back and not yet saved its item. */
  lemma KilledBetween()
    ensures IsListing(Prepared(), B, ORDER) && B in Prepared().batches
    ensures Killed(Prepared(), B, Crash(ORDER, 5)) == LeftBehind(Registered)
  {
    hide Forward, ApplyAll, Attempt, Tail, Undoing, Prepared, HalfWay, LeftBehind, IsListing;
    PreparedFacts();
    ForwardIsHalfWay();
    HalfWayTail();
    FirstUndoingWrite();
    AttemptHasTail(Prepared(), B, ORDER);
    var tail := Tail(Prepared(), B, ORDER);
    assert tail[..1] == [PutMail(M, InState("1", InTransit, 3))];
    SendBackFirst();
    KilledInTail(Prepared(), B, ORDER, tail, 1);
  }

  lemma LeftBehindFacts()
    ensures var s := LeftBehind(InTransit);
            && MayProcess(s, B) && IsListing(s, B, ORDER) && Clean(s, ItemsOf(s, B)) && Stranded(s, B, X)
            && X in s.items && s.items[X].batch == B && s.items[X].mailId == M && B in s.batches
    ensures After(LeftBehind(Registered), ChangeMail(N, Some(InState("2", InTransit, 1)))) == LeftBehind(InTransit)
  {
    var s := LeftBehind(InTransit);
    assert ItemsOf(s, B) == {X, Y};
  }

  /**
   A mail left behind.  From the empty store, a batch is prepared and a call on it killed between
   sending a mail back and saving its item; when the other mail comes into transit, the next call
   completes the batch with that first mail still in transit.
   */
  lemma KilledCompensationLeavesAMailBehind()
    ensures Feasible(NOTHING, Preparation()) && B in Final(NOTHING, Preparation()).batches
    ensures IsListing(Final(NOTHING, Preparation()), B, ORDER)
    ensures var s := After(Killed(Final(NOTHING, Preparation()), B, Crash(ORDER, 5)),
                           ChangeMail(N, Some(InState("2", InTransit, 1))));
            && MayProcess(s, B) && IsListing(s, B, ORDER)
            && var t := ApplyAll(s, Attempt(s, B, ORDER));
               B in t.batches && t.batches[B].state == BatchCompleted &&
               X in t.items && t.items[X].state == ItemSucceeded && t.items[X].mailId == M && !HasArrived(t, M)
  {
    hide Final, Feasible, Killed, After, Attempt, ApplyAll, LeftBehind, Prepared, Preparation;
    hide Clean, Stranded, IsListing, ItemsOf, MayProcess;
    PreparationIs();
    KilledBetween();
    LeftBehindFacts();
    CleanCompletes(LeftBehind(InTransit), B, ORDER);
    var t := ApplyAll(LeftBehind(InTransit), Attempt(LeftBehind(InTransit), B, ORDER));
    CompletionLeavesExactlyTheStranded(LeftBehind(InTransit), B, ORDER, t.batches[B], X);
  }
}
