/**
 What one call on a batch leaves, told entirely by what it found: every item, every mail and every
 batch record, with the states and versions as numbers and names.
 */
module BatchOutcome {
  import opened Domain
  import opened BatchModel
  import opened BatchSaga

  /** The items that a call on the batch has to process. */
  function Pending(s: Store, bid: Id): set<Id> {
    set id | id in s.items && s.items[id].batch == bid && s.items[id].state != ItemSucceeded
  }

  /** Those among them whose mail is missing, or neither in transit nor arrived. */
  function Blocked(s: Store, bid: Id): set<Id> {
    set id | id in Pending(s, bid) &&
             (s.items[id].mailId !in s.mails || s.mails[s.items[id].mailId].state !in {InTransit, Arrived})
  }

  /** The items processed that name this mail. */
  function ProcessedOn(s: Store, bid: Id, m: Id): set<Id> {
    set id | id in Pending(s, bid) && id !in Blocked(s, bid) && s.items[id].mailId == m
  }

  /** An item to process ends succeeded with all others, or rolled back, or failed with the reason. */
  function ItemLeft(s: Store, bid: Id, id: Id): Item
    requires id in s.items
  {
    var item := s.items[id];
    if id !in Pending(s, bid) then item
    else if Blocked(s, bid) == {} then item.(state := ItemSucceeded)
    else if id !in Blocked(s, bid) then item.(state := ItemRolledBack)
    else item.(state := ItemFailed,
               error := if item.mailId in s.mails
                        then Unprocessable(s.mails[item.mailId].mailNo, s.mails[item.mailId].state)
                        else MailMissing)
  }

  /** A mail named by a processed item is left arrived or sent back; any other is left alone. */
  function MailLeft(s: Store, bid: Id, m: Id): Mail
    requires m in s.mails
  {
    var mail, n := s.mails[m], |ProcessedOn(s, bid, m)|;
    if n == 0 then mail
    else if Blocked(s, bid) == {} then mail.(state := Arrived, version := mail.version + n)
    else mail.(state := InTransit, version := mail.version + n + 1)
  }

  ghost predicate ItemsAreLeft(s: Store, bid: Id, t: Store) {
    && t.items.Keys == s.items.Keys
    && forall id :: id in s.items ==> t.items[id] == ItemLeft(s, bid, id)
  }

  ghost predicate MailsAreLeft(s: Store, bid: Id, t: Store) {
    && t.mails.Keys == s.mails.Keys
    && forall m :: m in s.mails ==> t.mails[m] == MailLeft(s, bid, m)
  }

  ghost predicate BatchIsLeft(s: Store, bid: Id, t: Store)
    requires bid in s.batches
  {
    var b, count, blocked := s.batches[bid], |ItemsOf(s, bid)|, |Blocked(s, bid)|;
    t.batches ==
    s.batches[bid := if Blocked(s, bid) == {}
                     then b.(state := BatchCompleted, succeeded := count, version := b.version + 3)
                     else b.(state := BatchRolledBack, succeeded := count - blocked, failed := blocked,
                             version := b.version + 2)]
  }

  ghost predicate CallLeaves(s: Store, bid: Id, t: Store)
    requires bid in s.batches
  {
    ItemsAreLeft(s, bid, t) && MailsAreLeft(s, bid, t) && BatchIsLeft(s, bid, t)
  }

  lemma CleanIsUnblocked(s: Store, bid: Id)
    ensures Clean(s, ItemsOf(s, bid)) <==> Blocked(s, bid) == {}
    ensures Stuck(s, ItemsOf(s, bid)) == Blocked(s, bid)
    ensures forall m :: HitsOn(s, ItemsOf(s, bid), m) == ProcessedOn(s, bid, m)
  {
    var ids := ItemsOf(s, bid);
    forall id ensures id in Stuck(s, ids) <==> id in Blocked(s, bid) {
    }
    StuckCount(s, ids);
    hide Clean;
  }

  lemma LeavesItem(s: Store, bid: Id, id: Id)
    requires bid in s.batches && id in s.items
    ensures var t := Outcome(s, bid, ItemsOf(s, bid)); id in t.items && t.items[id] == ItemLeft(s, bid, id)
  {
    var ids := ItemsOf(s, bid);
    CleanIsUnblocked(s, bid);
    assert id in Pending(s, bid) <==> id in ids && s.items[id].state != ItemSucceeded;
    assert id in Pending(s, bid) ==> (id in Blocked(s, bid) <==> !Hit(s, id));
    assert id in Processed(s, ids) <==> id in ids && Hit(s, id);
    assert id in Blocked(s, bid) ==> Blocked(s, bid) != {};
    hide HitsOn, ArrivedBy, MailsNamed, MailsSentBack, Clean, ProcessedOn, Stuck, Finish, GiveUp, Blocked, Pending,
        Processed, ItemsOf, Succeeded;
  }

  lemma LeavesItems(s: Store, bid: Id)
    requires bid in s.batches
    ensures ItemsAreLeft(s, bid, Outcome(s, bid, ItemsOf(s, bid)))
  {
    OutcomeKeys(s, bid);
    hide Outcome, ItemLeft;
    forall id | id in s.items
      ensures id in Outcome(s, bid, ItemsOf(s, bid)).items
      ensures Outcome(s, bid, ItemsOf(s, bid)).items[id] == ItemLeft(s, bid, id)
    {
      LeavesItem(s, bid, id);
    }
  }

  lemma LeavesMail(s: Store, bid: Id, m: Id)
    requires bid in s.batches && m in s.mails
    ensures var t := Outcome(s, bid, ItemsOf(s, bid)); m in t.mails && t.mails[m] == MailLeft(s, bid, m)
  {
    CleanIsUnblocked(s, bid);
    hide Clean, Stuck, Blocked, ProcessedOn, HitsOn, ItemsAttempted, MailsNamed, Finish, GiveUp;
    if Clean(s, ItemsOf(s, bid)) {
      hide CompensateOutcome;
    } else {
      RolledBackMail(s, bid, m);
      hide Outcome;
    }
  }

  lemma LeavesMails(s: Store, bid: Id)
    requires bid in s.batches
    ensures MailsAreLeft(s, bid, Outcome(s, bid, ItemsOf(s, bid)))
  {
    OutcomeMails(s, bid);
    hide Outcome, MailLeft;
    forall m | m in s.mails
      ensures m in Outcome(s, bid, ItemsOf(s, bid)).mails
      ensures Outcome(s, bid, ItemsOf(s, bid)).mails[m] == MailLeft(s, bid, m)
    {
      LeavesMail(s, bid, m);
    }
  }

  lemma OutcomeMails(s: Store, bid: Id)
    requires bid in s.batches
    ensures Outcome(s, bid, ItemsOf(s, bid)).mails.Keys == s.mails.Keys
  {
    hide HitsOn, ArrivedBy, MailsNamed, SentBack, Clean, ItemsAttempted, Finish, GiveUp, Succeeded;
  }

  lemma LeavesBatch(s: Store, bid: Id)
    requires bid in s.batches
    ensures BatchIsLeft(s, bid, Outcome(s, bid, ItemsOf(s, bid)))
  {
    CleanIsUnblocked(s, bid);
    StuckCount(s, ItemsOf(s, bid));
    hide HitsOn, ArrivedBy, MailsNamed, MailsSentBack, ItemsAttempted, Clean, Stuck, Succeeded, ItemsOf, Blocked,
        ProcessedOn, CompensateOutcome, ForwardOutcome;
  }

  /** A whole call over any listing of the items, with all its loops, compensations and counts, leaves just this. */
  lemma AttemptInFull(s: Store, bid: Id, order: seq<Id>)
    requires bid in s.batches && IsListing(s, bid, order)
    ensures CallLeaves(s, bid, ApplyAll(s, Attempt(s, bid, order)))
  {
    AttemptIs(s, bid, order);
    ListingIs(s, bid, order);
    LeavesItems(s, bid);
    LeavesMails(s, bid);
    LeavesBatch(s, bid);
    hide Attempt, ApplyAll, Outcome, ItemsAreLeft, MailsAreLeft, BatchIsLeft;
  }

  /**
   The batch record as a call saves it: processing before anything else, and in the end either
   succeeded and at once completed, or rolled back.
   */
  lemma BatchRecordSaves(s: Store, bid: Id, order: seq<Id>)
    requires bid in s.batches && IsListing(s, bid, order)
    ensures var ws, b, count := Attempt(s, bid, order), s.batches[bid], |order|;
            var begun := b.(state := Processing, version := b.version + 1);
            && |ws| >= 2 && ws[0] == PutBatch(bid, begun)
            && if Blocked(s, bid) == {} then
                 var saved := begun.(state := BatchSucceeded, succeeded := count, version := b.version + 2);
                 && |ws| >= 3 && ws[|ws| - 2] == PutBatch(bid, saved)
                 && ws[|ws| - 1] == PutBatch(bid, saved.(state := BatchCompleted, version := b.version + 3))
               else
                 ws[|ws| - 1] ==
                 PutBatch(bid, begun.(state := BatchRolledBack, succeeded := count - |Blocked(s, bid)|,
                                      failed := |Blocked(s, bid)|, version := b.version + 2))
  {
    hide Forward, ApplyAll, Compensate, Clean, Stuck, Succeeded, Blocked, HitsOn, ProcessedOn, Range,
        ForwardOutcome, Processed;
    ListingIs(s, bid, order);
    MiddleIs(s, bid, order);
    RangeSize(order);
    CleanIsUnblocked(s, bid);
    StuckCount(s, ItemsOf(s, bid));
  }

  // ---------------------------------------------------------------- creation

  /** The first `n` of these mails are there, and each has its pending item, under its own identifier. */
  ghost predicate CreatedUpTo(s: Store, bid: Id, mailIds: seq<Id>, itemIds: seq<Id>, n: nat, t: Store)
    requires n <= |mailIds| == |itemIds|
  {
    && t.mails == s.mails
    && (forall i :: 0 <= i < n ==> mailIds[i] in s.mails)
    && (forall id :: id !in itemIds[..n] ==> SameItem(s, t, id))
    && (NoDup(itemIds) ==>
          forall i :: 0 <= i < n ==>
            itemIds[i] in t.items && t.items[itemIds[i]] == Item(bid, mailIds[i], ItemPending, NoError))
  }

  predicate SameItem(s: Store, t: Store, id: Id) {
    if id in s.items then id in t.items && t.items[id] == s.items[id] else id !in t.items
  }

  /** How many mails come before the first missing one. */
  function Present(s: Store, mailIds: seq<Id>): (n: nat)
    ensures n <= |mailIds| && (forall i :: 0 <= i < n ==> mailIds[i] in s.mails)
    ensures n < |mailIds| ==> mailIds[n] !in s.mails
    decreases mailIds
  {
    if mailIds == [] || mailIds[0] !in s.mails then 0 else 1 + Present(s, mailIds[1..])
  }

  lemma {:induction false} CreatesItems(s: Store, bid: Id, mailIds: seq<Id>, itemIds: seq<Id>)
    requires |itemIds| == |mailIds|
    ensures var t := CreateItems(s, bid, mailIds, itemIds);
            CreatedUpTo(s, bid, mailIds, itemIds, Present(s, mailIds), t) && t.batches == s.batches
    decreases mailIds
  {
    if mailIds == [] || mailIds[0] !in s.mails {
    } else {
      var u := Apply(s, PutItem(itemIds[0], Item(bid, mailIds[0], ItemPending, NoError)));
      var t := CreateItems(u, bid, mailIds[1..], itemIds[1..]);
      SamePresent(s, u, mailIds[1..]);
      var n := Present(s, mailIds);
      assert n == 1 + Present(u, mailIds[1..]) && t == CreateItems(s, bid, mailIds, itemIds);
      hide CreateItems, Present, CreatedUpTo;
      CreatesItems(u, bid, mailIds[1..], itemIds[1..]);
      OneItemEarlier(s, bid, mailIds, itemIds, n, u, t);
    }
  }

  lemma OneItemEarlier(s: Store, bid: Id, mailIds: seq<Id>, itemIds: seq<Id>, n: nat, u: Store, t: Store)
    requires 0 < n <= |mailIds| == |itemIds| && mailIds[0] in s.mails
    requires u == s.(items := s.items[itemIds[0] := Item(bid, mailIds[0], ItemPending, NoError)])
    requires CreatedUpTo(u, bid, mailIds[1..], itemIds[1..], n - 1, t)
    ensures CreatedUpTo(s, bid, mailIds, itemIds, n, t)
  {
    assert itemIds[..n] == [itemIds[0]] + itemIds[1..][..n - 1];
    forall id | id !in itemIds[..n] ensures SameItem(s, t, id) {
      assert id !in itemIds[1..][..n - 1] && id != itemIds[0];
      assert SameItem(u, t, id);
    }
    forall i | 0 <= i < n ensures mailIds[i] in s.mails {
      assert i > 0 ==> mailIds[i] == mailIds[1..][i - 1];
    }
    if NoDup(itemIds) {
      assert NoDup(itemIds[1..]);
      assert itemIds[0] !in itemIds[1..][..n - 1];
      assert SameItem(u, t, itemIds[0]);
      forall i | 0 <= i < n
        ensures itemIds[i] in t.items && t.items[itemIds[i]] == Item(bid, mailIds[i], ItemPending, NoError)
      {
        assert i > 0 ==> itemIds[i] == itemIds[1..][i - 1] && mailIds[i] == mailIds[1..][i - 1];
      }
    }
  }

  lemma {:induction false} SamePresent(s: Store, u: Store, mailIds: seq<Id>)
    requires u.mails == s.mails
    ensures Present(u, mailIds) == Present(s, mailIds)
    decreases mailIds
  {
    if mailIds == [] {
    } else {
      SamePresent(s, u, mailIds[1..]);
    }
  }
}
