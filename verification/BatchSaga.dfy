/**
 What processing a batch guarantees: its outcome does not depend on the order of the items, a
 rolled-back attempt undoes itself, a crash can be repaired by running again, and the stored
 item states agree with the stored batch state.
 */
module BatchSaga {
  import opened Domain
  import opened BatchModel

  function Begun(b: Batch): Batch { b.(state := Processing, version := b.version + 1) }

  function Begin(s: Store, bid: Id): Store
    requires bid in s.batches
  {
    Apply(s, PutBatch(bid, Begun(s.batches[bid])))
  }

  /** The items that an attempt starting in `s` processes. */
  function Processed(s: Store, ids: set<Id>): set<Id> {
    set id | id in ids && id in s.items && Hit(s, id)
  }

  function Finish(b: Batch, count: int): seq<Batch> {
    var saved := b.(state := BatchSucceeded, succeeded := count, version := b.version + 1);
    [saved, saved.(state := BatchCompleted, version := saved.version + 1)]
  }

  function GiveUp(b: Batch, succeeded: int, count: int): Batch {
    b.(state := BatchRolledBack, succeeded := succeeded, failed := count - succeeded, version := b.version + 1)
  }

  /** Every store write of one complete call, in order. */
  function Attempt(s: Store, bid: Id, order: seq<Id>): seq<Write>
    requires bid in s.batches && forall id :: id in order ==> id in s.items
  {
    var begun := Begun(s.batches[bid]);
    var forward := Forward(Begin(s, bid), order);
    var middle := ApplyAll(Begin(s, bid), forward);
    ForwardKeepsItems(Begin(s, bid), order);
    var done := Succeeded(middle, Range(order));
    [PutBatch(bid, begun)] + forward +
    (if done == Range(order) then Closing(bid, begun, |order|)
     else Undoing(middle, bid, begun, order, Processed(s, Range(order))))
  }

  function Closing(bid: Id, begun: Batch, count: int): seq<Write> {
    [PutBatch(bid, Finish(begun, count)[0]), PutBatch(bid, Finish(begun, count)[1])]
  }

  function Undoing(middle: Store, bid: Id, begun: Batch, order: seq<Id>, processed: set<Id>): seq<Write>
    requires forall id :: id in order ==> id in middle.items
  {
    Compensate(middle, order, processed) + [PutBatch(bid, GiveUp(begun, |Succeeded(middle, Range(order))|, |order|))]
  }

  lemma {:induction false} ForwardKeepsItems(s: Store, order: seq<Id>)
    requires forall id :: id in order ==> id in s.items
    ensures var t := ApplyAll(s, Forward(s, order)); t.items.Keys == s.items.Keys && t.batches == s.batches
    decreases order
  {
    if order == [] {
    } else {
      var ws := ForwardOne(s, order[0]);
      ForwardOneEffect(s, order[0]);
      ApplyConcat(s, ws, Forward(ApplyAll(s, ws), order[1..]));
      ForwardKeepsItems(ApplyAll(s, ws), order[1..]);
    }
  }

  // ---------------------------------------------------------------- the order does not matter

  /** All items that needed processing can be processed. */
  predicate Clean(s: Store, ids: set<Id>) {
    forall id :: id in ids && id in s.items ==> s.items[id].state == ItemSucceeded || Hit(s, id)
  }

  /** What one call does to the store, in terms of the set of items alone. */
  function Outcome(s: Store, bid: Id, ids: set<Id>): Store
    requires bid in s.batches
  {
    var begun := Begun(s.batches[bid]);
    var middle := ForwardOutcome(s, ids);
    if Clean(s, ids) then
      middle.(batches := s.batches[bid := Finish(begun, |ids|)[1]])
    else
      var undone := CompensateOutcome(middle, Processed(s, ids));
      undone.(batches := s.batches[bid := GiveUp(begun, |Succeeded(middle, ids)|, |ids|)])
  }

  lemma {:induction false} RangeSize(order: seq<Id>)
    requires NoDup(order)
    ensures |Range(order)| == |order|
    decreases order
  {
    if order == [] {
    } else {
      RangeHead(order);
      RangeSize(order[1..]);
    }
  }

  lemma DoneIffClean(s: Store, ids: set<Id>)
    requires forall id :: id in ids ==> id in s.items
    ensures Succeeded(ForwardOutcome(s, ids), ids) == ids <==> Clean(s, ids)
  {
    var done := Succeeded(ForwardOutcome(s, ids), ids);
    hide HitsOn, ArrivedBy, Processable, WhyNot;
    forall id | id in ids ensures id in done <==> s.items[id].state == ItemSucceeded || Hit(s, id) {
    }
  }

  lemma BatchesApart(s: Store, t: Store, ids: set<Id>)
    requires t.mails == s.mails && t.items == s.items
    ensures ForwardOutcome(t, ids) == ForwardOutcome(s, ids).(batches := t.batches)
    ensures Processed(t, ids) == Processed(s, ids)
    ensures CompensateOutcome(t, ids) == CompensateOutcome(s, ids).(batches := t.batches)
  {
    assert forall m :: HitsOn(t, ids, m) == HitsOn(s, ids, m);
    assert MailsNamed(t, ids) == MailsNamed(s, ids);
  }

  /** The store between the forward loop and the final writes. */
  lemma MiddleIs(s: Store, bid: Id, order: seq<Id>)
    requires bid in s.batches && NoDup(order) && forall id :: id in order ==> id in s.items
    ensures var ids := Range(order);
            var middle := ApplyAll(Begin(s, bid), Forward(Begin(s, bid), order));
            && middle == ForwardOutcome(s, ids).(batches := Begin(s, bid).batches)
            && middle.items.Keys == s.items.Keys
            && (Succeeded(middle, ids) == ids <==> Clean(s, ids))
            && Succeeded(middle, ids) == Succeeded(ForwardOutcome(s, ids), ids)
  {
    var ids := Range(order);
    var s0 := Begin(s, bid);
    ForwardKeepsItems(s0, order);
    ForwardIs(s0, order);
    BatchesApart(s, s0, ids);
    DoneIffClean(s0, ids);
    hide Forward, ForwardOutcome, Clean, ApplyAll, Succeeded, Range;
    CleanApart(s, s0, ids);
    SucceededApart(ApplyAll(s0, Forward(s0, order)), ForwardOutcome(s, ids), ids);
  }

  lemma ClosingIs(middle: Store, bid: Id, begun: Batch, count: int)
    ensures ApplyAll(middle, Closing(bid, begun, count)) ==
        middle.(batches := middle.batches[bid := Finish(begun, count)[1]])
  {
    ApplyShort(middle, Closing(bid, begun, count));
  }

  lemma UndoingIs(middle: Store, bid: Id, begun: Batch, order: seq<Id>, processed: set<Id>)
    requires NoDup(order) && (forall id :: id in order ==> id in middle.items) && processed <= Range(order)
    ensures var undone := CompensateOutcome(middle, processed);
            ApplyAll(middle, Undoing(middle, bid, begun, order, processed)) ==
            undone.(batches := middle.batches[bid := GiveUp(begun, |Succeeded(middle, Range(order))|, |order|)])
  {
    hide Compensate, CompensateOutcome, ApplyAll, Succeeded, GiveUp;
    var undo := Compensate(middle, order, processed);
    var last := PutBatch(bid, GiveUp(begun, |Succeeded(middle, Range(order))|, |order|));
    CompensateIs(middle, order, processed);
    assert Range(order) * processed == processed;
    ApplyConcat(middle, undo, [last]);
    ApplyShort(ApplyAll(middle, undo), [last]);
    CompensateKeepsBatches(middle, processed);
  }

  lemma Overwritten(batches: map<Id, Batch>, bid: Id, a: Batch, b: Batch)
    ensures batches[bid := a][bid := b] == batches[bid := b]
  {
  }

  lemma AttemptIs(s: Store, bid: Id, order: seq<Id>)
    requires bid in s.batches && NoDup(order) && forall id :: id in order ==> id in s.items
    ensures ApplyAll(s, Attempt(s, bid, order)) == Outcome(s, bid, Range(order))
  {
    hide Forward, ForwardOutcome, CompensateOutcome, Clean, ApplyAll, Compensate;
    var ids := Range(order);
    var begun := Begun(s.batches[bid]);
    var s0 := Begin(s, bid);
    var forward := Forward(s0, order);
    var middle := ApplyAll(s0, forward);
    MiddleIs(s, bid, order);
    RangeSize(order);
    ApplyShort(s, [PutBatch(bid, begun)]);
    ApplyConcat(s, [PutBatch(bid, begun)], forward);
    var clean := Clean(s, ids);
    assert Processed(s, ids) <= ids;
    BatchesApart(ForwardOutcome(s, ids), middle, Processed(s, ids));
    Overwritten(s.batches, bid, begun, Finish(begun, |ids|)[1]);
    Overwritten(s.batches, bid, begun, GiveUp(begun, |Succeeded(middle, ids)|, |ids|));
    hide Forward, ForwardOutcome, CompensateOutcome, Clean, ApplyAll, Succeeded, Range, Finish, GiveUp, Processed,
        Begun, Begin, Apply, Closing, Undoing;
    var tail := if clean then Closing(bid, begun, |order|) else Undoing(middle, bid, begun, order, Processed(s, ids));
    assert Attempt(s, bid, order) == [PutBatch(bid, begun)] + forward + tail;
    ApplyConcat(s, [PutBatch(bid, begun)] + forward, tail);
    if clean {
      ClosingIs(middle, bid, begun, |order|);
    } else {
      UndoingIs(middle, bid, begun, order, Processed(s, ids));
    }
  }

  lemma CleanApart(s: Store, t: Store, ids: set<Id>)
    requires t.mails == s.mails && t.items == s.items
    ensures Clean(s, ids) <==> Clean(t, ids)
  {
  }

  lemma SucceededApart(s: Store, t: Store, ids: set<Id>)
    requires t.items == s.items
    ensures Succeeded(s, ids) == Succeeded(t, ids)
  {
  }

  lemma CompensateKeepsBatches(s: Store, ids: set<Id>)
    ensures CompensateOutcome(s, ids).batches == s.batches
  {
  }

  lemma ListingIs(s: Store, bid: Id, order: seq<Id>)
    requires IsListing(s, bid, order)
    ensures Range(order) == ItemsOf(s, bid)
  {
  }

  /**
   Order independence.  However the items of the batch happen to be listed, one call leaves
   the same mails (states and versions), items and batch record.
   */
  lemma OrderDoesNotMatter(s: Store, bid: Id, order: seq<Id>, other: seq<Id>)
    requires bid in s.batches && IsListing(s, bid, order) && IsListing(s, bid, other)
    ensures ApplyAll(s, Attempt(s, bid, order)) == ApplyAll(s, Attempt(s, bid, other))
  {
    AttemptIs(s, bid, order);
    AttemptIs(s, bid, other);
    ListingIs(s, bid, order);
    ListingIs(s, bid, other);
  }

  // ---------------------------------------------------------------- rolling back

  /** The final mails of a rolled-back attempt: each mail it touched is back in transit, one version later per visit. */
  lemma RolledBackMail(s: Store, bid: Id, m: Id)
    requires bid in s.batches && m in s.mails && !Clean(s, ItemsOf(s, bid))
    ensures var t := Outcome(s, bid, ItemsOf(s, bid));
            var n := |HitsOn(s, ItemsOf(s, bid), m)|;
            && m in t.mails
            && t.mails[m] == if n == 0 then s.mails[m]
                             else s.mails[m].(state := InTransit, version := s.mails[m].version + n + 1)
  {
    var ids := ItemsOf(s, bid);
    var hits := HitsOn(s, ids, m);
    var middle := ForwardOutcome(s, ids);
    assert m in MailsNamed(middle, Processed(s, ids)) <==> hits != {} by {
      NamedIffHit(s, ids, m);
    }
    assert |hits| == 0 <==> hits == {};
    hide HitsOn, MailsNamed, Clean, ItemsAttempted, Succeeded, Processed;
  }

  lemma NamedIffHit(s: Store, ids: set<Id>, m: Id)
    ensures m in MailsNamed(ForwardOutcome(s, ids), Processed(s, ids)) <==> HitsOn(s, ids, m) != {}
  {
    var middle, done := ForwardOutcome(s, ids), Processed(s, ids);
    if m in MailsNamed(middle, done) {
      var id :| id in done && id in middle.items && middle.items[id].mailId == m;
      assert id in HitsOn(s, ids, m);
    }
    if HitsOn(s, ids, m) != {} {
      var id :| id in HitsOn(s, ids, m);
      assert id in done && id in middle.items && middle.items[id].mailId == m;
    }
  }

  /** The batch record a complete call leaves behind. */
  ghost predicate Leaves(s: Store, bid: Id, order: seq<Id>, b: Batch)
    requires bid in s.batches && forall id :: id in order ==> id in s.items
  {
    var t := ApplyAll(s, Attempt(s, bid, order));
    bid in t.batches && t.batches[bid] == b
  }

  /** Some item still to be processed names a mail that has already arrived. */
  predicate TouchesArrived(s: Store, bid: Id) {
    exists id :: id in ItemsOf(s, bid) && s.items[id].state != ItemSucceeded && s.items[id].mailId in s.mails
                 && s.mails[s.items[id].mailId].state == Arrived
  }

  /**
   All or nothing, exactly.  An attempt that ends rolled back leaves every mail in the state
   it was found in if and only if no item still to be processed names an arrived mail, however
   many items name the same mail.
   */
  lemma RollbackRestoresExactly(s: Store, bid: Id, order: seq<Id>, b: Batch)
    requires bid in s.batches && IsListing(s, bid, order) && Leaves(s, bid, order, b) && b.state == BatchRolledBack
    ensures var t := ApplyAll(s, Attempt(s, bid, order));
            && t.mails.Keys == s.mails.Keys
            && ((forall m :: m in s.mails ==> t.mails[m].state == s.mails[m].state) <==> !TouchesArrived(s, bid))
  {
    hide ApplyAll, Attempt, Clean, HitsOn;
    AttemptIs(s, bid, order);
    ListingIs(s, bid, order);
    BatchesAfter(s, bid, bid);
    OutcomeKeys(s, bid);
    hide Outcome;
    var t := Outcome(s, bid, ItemsOf(s, bid));
    forall m | m in s.mails
      ensures m in t.mails &&
          (t.mails[m].state != s.mails[m].state <==> s.mails[m].state == Arrived && HitsOn(s, ItemsOf(s, bid), m) != {})
    {
      MailMoves(s, bid, m);
    }
    TouchedMail(s, bid);
  }

  lemma MailMoves(s: Store, bid: Id, m: Id)
    requires bid in s.batches && m in s.mails && !Clean(s, ItemsOf(s, bid))
    ensures var t := Outcome(s, bid, ItemsOf(s, bid));
            m in t.mails && (t.mails[m].state != s.mails[m].state <==>
                s.mails[m].state == Arrived && HitsOn(s, ItemsOf(s, bid), m) != {})
  {
    RolledBackMail(s, bid, m);
    var hits := HitsOn(s, ItemsOf(s, bid), m);
    if hits != {} {
      var id :| id in hits;
      assert s.mails[m].state == InTransit || s.mails[m].state == Arrived;
    }
    assert |hits| == 0 <==> hits == {};
    hide Outcome, Clean;
  }

  lemma TouchedMail(s: Store, bid: Id)
    ensures TouchesArrived(s, bid) <==>
        exists m :: m in s.mails && s.mails[m].state == Arrived && HitsOn(s, ItemsOf(s, bid), m) != {}
  {
    if TouchesArrived(s, bid) {
      var id :| id in ItemsOf(s, bid) && s.items[id].state != ItemSucceeded && s.items[id].mailId in s.mails &&
          s.mails[s.items[id].mailId].state == Arrived;
      assert id in HitsOn(s, ItemsOf(s, bid), s.items[id].mailId);
    }
    if m :| m in s.mails && s.mails[m].state == Arrived && HitsOn(s, ItemsOf(s, bid), m) != {} {
      var id :| id in HitsOn(s, ItemsOf(s, bid), m);
    }
  }

  /** What an attempt does to the items of its batch and to everything else. */
  lemma ItemsAfter(s: Store, bid: Id, id: Id)
    requires bid in s.batches && id in s.items
    ensures var ids := ItemsOf(s, bid);
            var t := Outcome(s, bid, ids);
            && id in t.items && t.items[id].batch == s.items[id].batch && t.items[id].mailId == s.items[id].mailId
            && (id !in ids || s.items[id].state == ItemSucceeded ==> t.items[id] == s.items[id])
            && (id in ids && s.items[id].state != ItemSucceeded ==>
                  t.items[id].state ==
                  if Clean(s, ids) then ItemSucceeded else if Hit(s, id) then ItemRolledBack else ItemFailed)
  {
    hide HitsOn, ArrivedBy, MailsNamed, MailsSentBack;
  }

  lemma BatchesAfter(s: Store, bid: Id, other: Id)
    requires bid in s.batches && other in s.batches
    ensures var ids := ItemsOf(s, bid);
            var t := Outcome(s, bid, ids);
            && t.batches.Keys == s.batches.Keys
            && (other != bid ==> t.batches[other] == s.batches[other])
            && t.batches[bid].state == if Clean(s, ids) then BatchCompleted else BatchRolledBack
  {
    hide HitsOn, ArrivedBy, MailsNamed, MailsSentBack, Clean, Succeeded;
  }

  /**
   A rolled-back attempt counts the items it could not process as failed and all others,
   including those it has just rolled back, as succeeded; a completed one counts all items as
   succeeded and keeps the failures of an earlier attempt.
   */
  lemma AttemptCounts(s: Store, bid: Id, order: seq<Id>, b: Batch)
    requires bid in s.batches && IsListing(s, bid, order) && Leaves(s, bid, order, b)
    ensures var ids := ItemsOf(s, bid);
            var stuck := Stuck(s, ids);
            && (b.state == if stuck == {} then BatchCompleted else BatchRolledBack)
            && (stuck != {} ==> b.succeeded + b.failed == |ids| && b.failed == |stuck|)
            && (stuck == {} ==> b.succeeded == |ids| && b.failed == s.batches[bid].failed)
            && b.version == s.batches[bid].version + (if stuck == {} then 3 else 2) && b.total == s.batches[bid].total
  {
    hide ApplyAll, Attempt;
    AttemptIs(s, bid, order);
    ListingIs(s, bid, order);
    StuckCount(s, ItemsOf(s, bid));
    hide HitsOn, ArrivedBy, MailsNamed, MailsSentBack, ItemsAttempted, Clean, Stuck, Succeeded, ItemsOf;
  }

  /** The items whose mail is missing or in a state that cannot be processed. */
  function Stuck(s: Store, ids: set<Id>): set<Id> {
    set id | id in ids && id in s.items && s.items[id].state != ItemSucceeded && !Processable(s, s.items[id].mailId)
  }

  lemma StuckCount(s: Store, ids: set<Id>)
    requires forall id :: id in ids ==> id in s.items
    ensures |Succeeded(ForwardOutcome(s, ids), ids)| + |Stuck(s, ids)| == |ids|
    ensures Clean(s, ids) <==> Stuck(s, ids) == {}
  {
    hide HitsOn, ArrivedBy;
    var done, stuck := Succeeded(ForwardOutcome(s, ids), ids), Stuck(s, ids);
    forall id | id in ids ensures id in done <==> id !in stuck {
    }
    assert done + stuck == ids && done !! stuck;
    assert |done + stuck| == |done| + |stuck|;
    forall id | id in ids ensures id !in stuck <==> s.items[id].state == ItemSucceeded || Hit(s, id) {
    }
  }

  // ---------------------------------------------------------------- whole runs of complete calls

  datatype RunStep =
    | Create(bid: Id, trip: Trip, mailIds: seq<Id>, itemIds: seq<Id>)
    | Process(bid: Id, order: seq<Id>)
    | Requeue
    | ChangeMail(id: Id, mail: Option<Mail>)

  /** Creating a batch stops, with what it has already written, at the first missing mail. */
  function CreateItems(s: Store, bid: Id, mailIds: seq<Id>, itemIds: seq<Id>): Store
    requires |itemIds| == |mailIds|
    decreases mailIds
  {
    if mailIds == [] || mailIds[0] !in s.mails then s
    else
      var item := Item(bid, mailIds[0], ItemPending, NoError);
      CreateItems(Apply(s, PutItem(itemIds[0], item)), bid, mailIds[1..], itemIds[1..])
  }

  function CreateBatch(s: Store, bid: Id, trip: Trip, mailIds: seq<Id>, itemIds: seq<Id>): Store
    requires |itemIds| == |mailIds|
  {
    CreateItems(Apply(s, PutBatch(bid, Batch(trip, BatchPending, |mailIds|, 0, 0, 1))), bid, mailIds, itemIds)
  }

  /** The scheduler puts rolled-back batches back in the queue, which no edge of the machine allows. */
  function Requeued(b: Batch): Batch {
    if b.state == BatchRolledBack then b.(state := BatchPending, version := b.version + 1) else b
  }

  /** Requeuing changes a batch exactly when it leaves the machine. */
  lemma RequeueLeavesTheMachine(b: Batch)
    ensures Requeued(b) != b <==> !Validate(BATCH_EDGES, b.state, Requeued(b).state)
    ensures Validate(BATCH_EDGES, Requeued(b).state, Processing) <==> Validate(BATCH_EDGES, b.state, Processing)
  {
  }

  function RequeueAll(s: Store): Store {
    s.(batches := map b | b in s.batches :: Requeued(s.batches[b]))
  }

  /** Which processing calls get past the state check. */
  predicate MayProcess(s: Store, bid: Id) {
    bid in s.batches && Validate(BATCH_EDGES, s.batches[bid].state, Processing)
  }

  ghost predicate Enabled(s: Store, step: RunStep) {
    match step
    case Create(bid, trip, mailIds, itemIds) =>
      |itemIds| == |mailIds| && bid !in s.batches && (forall id :: id in itemIds ==> id !in s.items)
    case Process(bid, order) => IsListing(s, bid, order)
    case Requeue => true
    case ChangeMail(id, mail) => true
  }

  function After(s: Store, step: RunStep): Store
    requires Enabled(s, step)
  {
    match step
    case Create(bid, trip, mailIds, itemIds) => CreateBatch(s, bid, trip, mailIds, itemIds)
    case Process(bid, order) => if MayProcess(s, bid) then ApplyAll(s, Attempt(s, bid, order)) else s
    case Requeue => RequeueAll(s)
    case ChangeMail(id, mail) => s.(mails := if mail.Some? then s.mails[id := mail.value] else s.mails - {id})
  }

  ghost predicate Feasible(s: Store, steps: seq<RunStep>)
    decreases steps
  {
    steps == [] || (Enabled(s, steps[0]) && Feasible(After(s, steps[0]), steps[1..]))
  }

  ghost function Final(s: Store, steps: seq<RunStep>): Store
    requires Feasible(s, steps)
    decreases steps
  {
    if steps == [] then s else Final(After(s, steps[0]), steps[1..])
  }

  predicate Settled(state: BatchState) {
    state == BatchPending || state == BatchRolledBack || state == BatchCompleted
  }

  /** Stored items agree with the stored batch state, and every item belongs to a known batch. */
  ghost predicate Agrees(s: Store) {
    forall id :: id in s.items ==>
      && s.items[id].batch in s.batches
      && (s.items[id].state == ItemSucceeded <==> s.batches[s.items[id].batch].state == BatchCompleted)
      && Settled(s.batches[s.items[id].batch].state)
  }

  lemma {:induction false} CreateItemsAgrees(s: Store, bid: Id, mailIds: seq<Id>, itemIds: seq<Id>)
    requires |itemIds| == |mailIds| && Agrees(s) && bid in s.batches && s.batches[bid].state == BatchPending
    ensures Agrees(CreateItems(s, bid, mailIds, itemIds))
    decreases mailIds
  {
    if mailIds != [] && mailIds[0] in s.mails {
      var item := Item(bid, mailIds[0], ItemPending, NoError);
      CreateItemsAgrees(Apply(s, PutItem(itemIds[0], item)), bid, mailIds[1..], itemIds[1..]);
    }
  }

  lemma ProcessAgrees(s: Store, bid: Id, order: seq<Id>)
    requires Agrees(s) && MayProcess(s, bid) && IsListing(s, bid, order)
    ensures Agrees(ApplyAll(s, Attempt(s, bid, order)))
  {
    hide Outcome, Attempt, ApplyAll, Clean;
    AttemptIs(s, bid, order);
    ListingIs(s, bid, order);
    var t := Outcome(s, bid, ItemsOf(s, bid));
    forall id | id in s.items ensures id in t.items && t.items[id].batch in t.batches {
      ItemsAfter(s, bid, id);
      BatchesAfter(s, bid, s.items[id].batch);
    }
    OutcomeKeys(s, bid);
    forall id | id in t.items
      ensures t.items[id].state == ItemSucceeded <==> t.batches[t.items[id].batch].state == BatchCompleted
      ensures Settled(t.batches[t.items[id].batch].state)
    {
      assert id in s.items.Keys;
      ItemsAfter(s, bid, id);
      BatchesAfter(s, bid, s.items[id].batch);
    }
  }

  lemma AgreesNext(s: Store, step: RunStep)
    requires Agrees(s) && Enabled(s, step)
    ensures Agrees(After(s, step))
  {
    match step
    case Create(bid, trip, mailIds, itemIds) =>
      var b := Batch(trip, BatchPending, |mailIds|, 0, 0, 1);
      CreateItemsAgrees(Apply(s, PutBatch(bid, b)), bid, mailIds, itemIds);
    case Process(bid, order) =>
      if MayProcess(s, bid) {
        ProcessAgrees(s, bid, order);
      }
    case Requeue =>
    case ChangeMail(id, mail) =>
  }

  lemma OutcomeKeys(s: Store, bid: Id)
    requires bid in s.batches
    ensures Outcome(s, bid, ItemsOf(s, bid)).items.Keys == s.items.Keys
  {
  }

  /**
   Over any run of batch creations, complete processing calls, requeues and outside changes of
   mails: an item is stored as succeeded exactly when its batch is completed.
   */
  lemma {:induction false} StatesAgreeForever(s: Store, steps: seq<RunStep>)
    requires Agrees(s) && Feasible(s, steps)
    ensures Agrees(Final(s, steps))
    decreases steps
  {
    if steps == [] {
    } else {
      AgreesNext(s, steps[0]);
      StatesAgreeForever(After(s, steps[0]), steps[1..]);
    }
  }

  /**
   A rolled-back attempt leaves no item of its batch succeeded exactly when none was before:
   what an earlier, crashed attempt had processed is not undone.
   */
  lemma RollbackUndoesOnlyItsOwn(s: Store, bid: Id, order: seq<Id>, b: Batch)
    requires bid in s.batches && IsListing(s, bid, order) && Leaves(s, bid, order, b) && b.state == BatchRolledBack
    ensures Succeeded(ApplyAll(s, Attempt(s, bid, order)), ItemsOf(s, bid)) == Succeeded(s, ItemsOf(s, bid))
  {
    hide ApplyAll, Attempt, Clean;
    AttemptIs(s, bid, order);
    ListingIs(s, bid, order);
    BatchesAfter(s, bid, bid);
    hide Outcome;
    var ids := ItemsOf(s, bid);
    forall id | id in ids ensures id in Succeeded(Outcome(s, bid, ids), ids) <==> id in Succeeded(s, ids) {
      ItemsAfter(s, bid, id);
    }
  }

  // ---------------------------------------------------------------- crashes

  /** A batch that a call may pick up, whose mails can all be processed and whose succeeded items have arrived. */
  ghost predicate Restartable(s: Store, bid: Id) {
    && bid in s.batches
    && (s.batches[bid].state == BatchPending || s.batches[bid].state == BatchRolledBack ||
         s.batches[bid].state == Processing)
    && forall id :: id in s.items && s.items[id].batch == bid ==>
         && Processable(s, s.items[id].mailId)
         && (s.items[id].state == ItemSucceeded ==> s.mails[s.items[id].mailId].state == Arrived)
  }

  /** Items keep their identity, and mails persist. */
  ghost predicate SameItems(s: Store, t: Store) {
    t.items.Keys == s.items.Keys && forall id :: id in s.items ==>
        t.items[id].batch == s.items[id].batch && t.items[id].mailId == s.items[id].mailId
  }

  lemma SameItself(s: Store)
    ensures SameItems(s, ApplyAll(s, []))
  {
  }

  lemma SameMembers(s: Store, t: Store, bid: Id)
    requires SameItems(s, t)
    ensures ItemsOf(t, bid) == ItemsOf(s, bid)
    ensures forall x :: x in s.items ==> x in t.items && t.items[x].mailId == s.items[x].mailId
  {
    assert forall x :: x in s.items <==> x in t.items by {
      assert s.items.Keys == t.items.Keys;
    }
  }

  lemma SameThrough(s: Store, t: Store, u: Store)
    requires SameItems(s, t) && SameItems(t, u)
    ensures SameItems(s, u)
  {
  }

  lemma SameListed(s: Store, t: Store, order: seq<Id>)
    requires order != [] && SameItems(s, t) && forall id :: id in order ==> id in s.items
    ensures forall id :: id in order[1..] ==> id in t.items && t.items[id].batch == s.items[id].batch
  {
    assert forall id :: id in order[1..] ==> id in order && id in s.items.Keys;
  }

  lemma OneItemPrefix(s: Store, bid: Id, id: Id, k: nat)
    requires Restartable(s, bid) && id in s.items && s.items[id].batch == bid && k <= |ForwardOne(s, id)|
    ensures var t := ApplyAll(s, ForwardOne(s, id)[..k]); Restartable(t, bid) && SameItems(s, t)
  {
    ApplyShort(s, ForwardOne(s, id)[..k]);
    hide ApplyAll;
  }

  lemma {:induction false} ForwardPrefix(s: Store, bid: Id, order: seq<Id>, k: nat)
    requires Restartable(s, bid) && (forall id :: id in order ==> id in s.items && s.items[id].batch == bid)
    requires k <= |Forward(s, order)|
    ensures var t := ApplyAll(s, Forward(s, order)[..k]); Restartable(t, bid) && SameItems(s, t)
    decreases order
  {
    hide Restartable, ForwardOne, ApplyAll, SameItems;
    if order == [] {
      SameItself(s);
      ApplyShort(s, []);
    } else {
      ForwardSplits(s, order);
      hide Forward;
      var ws := ForwardOne(s, order[0]);
      CutOf(s, ws, Forward(ApplyAll(s, ws), order[1..]), k);
      if k <= |ws| {
        OneItemPrefix(s, bid, order[0], k);
      } else {
        OneItemPrefix(s, bid, order[0], |ws|);
        var t := ApplyAll(s, ws);
        SameListed(s, t, order);
        ForwardPrefix(t, bid, order[1..], k - |ws|);
        SameThrough(s, t, ApplyAll(s, Forward(s, order)[..k]));
      }
    }
  }

  /** A call over this listing of the items, killed after `writes` store writes. */
  datatype Crash = Crash(order: seq<Id>, writes: nat)

  function Killed(s: Store, bid: Id, crash: Crash): Store
    requires bid in s.batches && forall id :: id in crash.order ==> id in s.items
  {
    var ws := Attempt(s, bid, crash.order);
    if crash.writes <= |ws| then ApplyAll(s, ws[..crash.writes]) else ApplyAll(s, ws)
  }

  /** The kill comes no later than the last write of the forward loop: before the batch is saved as succeeded. */
  ghost predicate BeforeSaving(s: Store, bid: Id, crash: Crash) {
    bid in s.batches && IsListing(s, bid, crash.order) && crash.writes <= 1 + |Forward(Begin(s, bid), crash.order)|
  }

  lemma KilledIsRestartable(s: Store, bid: Id, crash: Crash)
    requires Restartable(s, bid) && BeforeSaving(s, bid, crash)
    ensures Restartable(Killed(s, bid, crash), bid) && SameItems(s, Killed(s, bid, crash))
  {
    var ws := Attempt(s, bid, crash.order);
    var first := PutBatch(bid, Begun(s.batches[bid]));
    var forward := Forward(Begin(s, bid), crash.order);
    var k := crash.writes;
    if k == 0 {
      assert ws[..0] == [];
    } else {
      assert ws[..k] == [first] + forward[..k - 1];
      ApplyConcat(s, [first], forward[..k - 1]);
      ApplyShort(s, [first]);
      assert Restartable(Begin(s, bid), bid) && SameItems(s, Begin(s, bid));
      ForwardPrefix(Begin(s, bid), bid, crash.order, k - 1);
    }
  }

  ghost predicate CrashHistory(s: Store, bid: Id, crashes: seq<Crash>)
    decreases crashes
  {
    crashes == [] || (BeforeSaving(s, bid, crashes[0]) && CrashHistory(Killed(s, bid, crashes[0]), bid, crashes[1..]))
  }

  ghost function AfterCrashes(s: Store, bid: Id, crashes: seq<Crash>): Store
    requires CrashHistory(s, bid, crashes)
    decreases crashes
  {
    if crashes == [] then s else AfterCrashes(Killed(s, bid, crashes[0]), bid, crashes[1..])
  }

  lemma {:induction false} CrashesRestartable(s: Store, bid: Id, crashes: seq<Crash>)
    requires Restartable(s, bid) && CrashHistory(s, bid, crashes)
    ensures Restartable(AfterCrashes(s, bid, crashes), bid) && SameItems(s, AfterCrashes(s, bid, crashes))
    decreases crashes
  {
    if crashes == [] {
    } else {
      KilledIsRestartable(s, bid, crashes[0]);
      hide Restartable;
      CrashesRestartable(Killed(s, bid, crashes[0]), bid, crashes[1..]);
    }
  }

  /**
   Crash recovery.  Kill processing any number of times, after any store writes before the
   batch is saved as succeeded, each time over any listing of the items; one call run to the
   end then completes the batch, with all its items succeeded and all their mails arrived.
   */
  lemma RecoversFromCrashes(s: Store, bid: Id, crashes: seq<Crash>, order: seq<Id>, b: Batch)
    requires Restartable(s, bid) && CrashHistory(s, bid, crashes)
    requires var c := AfterCrashes(s, bid, crashes);
             bid in c.batches && IsListing(c, bid, order) && Leaves(c, bid, order, b)
    ensures MayProcess(AfterCrashes(s, bid, crashes), bid) && b.state == BatchCompleted
    ensures var t := ApplyAll(AfterCrashes(s, bid, crashes), Attempt(AfterCrashes(s, bid, crashes), bid, order));
            forall id :: id in s.items && s.items[id].batch == bid ==>
              && id in t.items && t.items[id].state == ItemSucceeded
              && s.items[id].mailId in t.mails && t.mails[s.items[id].mailId].state == Arrived
  {
    CrashesRestartable(s, bid, crashes);
    var c := AfterCrashes(s, bid, crashes);
    hide ApplyAll, Attempt, Killed, CrashHistory, AfterCrashes;
    AttemptIs(c, bid, order);
    ListingIs(c, bid, order);
    assert Clean(c, ItemsOf(c, bid));
    BatchesAfter(c, bid, bid);
    hide Outcome, Clean;
    forall id | id in s.items && s.items[id].batch == bid
      ensures var t := Outcome(c, bid, ItemsOf(c, bid));
              && id in t.items && t.items[id].state == ItemSucceeded
              && s.items[id].mailId in t.mails && t.mails[s.items[id].mailId].state == Arrived
    {
      ItemsAfter(c, bid, id);
      CompletedMail(c, bid, id);
    }
  }

  lemma CompletedMail(s: Store, bid: Id, id: Id)
    requires Restartable(s, bid) && Clean(s, ItemsOf(s, bid)) && id in s.items && s.items[id].batch == bid
    ensures var m := s.items[id].mailId;
            var t := Outcome(s, bid, ItemsOf(s, bid));
            m in t.mails && t.mails[m].state == Arrived
  {
    var m := s.items[id].mailId;
    var hits := HitsOn(s, ItemsOf(s, bid), m);
    if s.items[id].state != ItemSucceeded {
      assert id in hits;
    }
    assert |hits| == 0 <==> hits == {};
    hide HitsOn;
  }

  /**
   Killed between the last two writes, a batch stays succeeded but never completed: no call and no
   requeue touches it again.
   */
  lemma CrashBeforeCompletionIsFinal(s: Store, bid: Id, order: seq<Id>)
    requires bid in s.batches && IsListing(s, bid, order) && Clean(s, ItemsOf(s, bid))
    ensures var ws := Attempt(s, bid, order);
            |ws| > 0 && var t := ApplyAll(s, ws[..|ws| - 1]);
            && bid in t.batches && t.batches[bid].state == BatchSucceeded
            && !MayProcess(t, bid) && RequeueAll(t).batches[bid] == t.batches[bid]
  {
    MiddleIs(s, bid, order);
    ListingIs(s, bid, order);
    hide Forward, ApplyAll, Clean, Succeeded;
    var begun := Begun(s.batches[bid]);
    var forward := Forward(Begin(s, bid), order);
    var middle := ApplyAll(Begin(s, bid), forward);
    var ws := Attempt(s, bid, order);
    var closing := Closing(bid, begun, |order|);
    assert ws == [PutBatch(bid, begun)] + forward + closing;
    assert ws[..|ws| - 1] == [PutBatch(bid, begun)] + forward + [closing[0]];
    ApplyConcat(s, [PutBatch(bid, begun)] + forward, [closing[0]]);
    ApplyConcat(s, [PutBatch(bid, begun)], forward);
    ApplyShort(s, [PutBatch(bid, begun)]);
    ApplyShort(middle, [closing[0]]);
  }

  /**
   So a killed call can be run again exactly when it was killed before the batch was saved as
   succeeded; killed later, the batch is left succeeded, or completed if both saves were made.
   */
  lemma RerunExactly(s: Store, bid: Id, crash: Crash)
    requires Restartable(s, bid) && IsListing(s, bid, crash.order)
    ensures var t := Killed(s, bid, crash);
            && bid in t.batches
            && (MayProcess(t, bid) <==> BeforeSaving(s, bid, crash))
            && (!BeforeSaving(s, bid, crash) ==>
                  t.batches[bid].state ==
                  if crash.writes + 1 == |Attempt(s, bid, crash.order)| then BatchSucceeded else BatchCompleted)
  {
    if BeforeSaving(s, bid, crash) {
      KilledIsRestartable(s, bid, crash);
      hide Killed, BeforeSaving, IsListing;
    } else {
      RestartableIsClean(s, bid);
      KilledLate(s, bid, crash);
      hide Killed, Restartable, BeforeSaving, IsListing;
    }
  }

  lemma RestartableIsClean(s: Store, bid: Id)
    requires Restartable(s, bid)
    ensures bid in s.batches && Clean(s, ItemsOf(s, bid))
  {
  }

  lemma KilledLate(s: Store, bid: Id, crash: Crash)
    requires bid in s.batches && IsListing(s, bid, crash.order) && Clean(s, ItemsOf(s, bid))
    requires !BeforeSaving(s, bid, crash)
    ensures var t := Killed(s, bid, crash);
            && bid in t.batches && !MayProcess(t, bid)
            && t.batches[bid].state ==
               if crash.writes + 1 == |Attempt(s, bid, crash.order)| then BatchSucceeded else BatchCompleted
  {
    hide Attempt, Outcome, Clean, ItemsOf, ApplyAll, Forward;
    ListingIs(s, bid, crash.order);
    AttemptLength(s, bid, crash.order);
    var ws := Attempt(s, bid, crash.order);
    if crash.writes + 1 == |ws| {
      CrashBeforeCompletionIsFinal(s, bid, crash.order);
    } else {
      assert ws[..|ws|] == ws;
      CleanCompletes(s, bid, crash.order);
    }
  }

  lemma CleanCompletes(s: Store, bid: Id, order: seq<Id>)
    requires bid in s.batches && IsListing(s, bid, order) && Clean(s, ItemsOf(s, bid))
    ensures var t := ApplyAll(s, Attempt(s, bid, order));
            bid in t.batches && t.batches[bid].state == BatchCompleted && Leaves(s, bid, order, t.batches[bid])
  {
    AttemptIs(s, bid, order);
    ListingIs(s, bid, order);
    BatchesAfter(s, bid, bid);
    hide Outcome, Attempt, ApplyAll, Clean;
  }

  lemma AttemptLength(s: Store, bid: Id, order: seq<Id>)
    requires bid in s.batches && IsListing(s, bid, order) && Clean(s, ItemsOf(s, bid))
    ensures |Attempt(s, bid, order)| == 3 + |Forward(Begin(s, bid), order)|
  {
    MiddleIs(s, bid, order);
    ListingIs(s, bid, order);
    hide Forward, ApplyAll, Clean, Succeeded;
  }
}
