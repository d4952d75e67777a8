/**
 The batch saga on values.  A call is described by the list of store writes it makes, in
 order, so a crash is a prefix of that list.
 */
module BatchModel {
  import opened Domain

  datatype ItemState = ItemPending | ItemSucceeded | ItemFailed | ItemRolledBack

  datatype ItemError = NoError | MailMissing | Unprocessable(mailNo: string, state: MailState)

  datatype Item = Item(batch: Id, mailId: Id, state: ItemState, error: ItemError)

  /** What a batch is for; its shard is the one of this date and route. */
  datatype Trip = Trip(vehicle: string, date: string, route: string)

  datatype Batch = Batch(trip: Trip, state: BatchState, total: int, succeeded: int, failed: int, version: int)

  datatype Store = Store(mails: map<Id, Mail>, items: map<Id, Item>, batches: map<Id, Batch>)

  datatype Write = PutMail(id: Id, mail: Mail) | PutItem(id: Id, item: Item) | PutBatch(id: Id, batch: Batch)

  function Apply(s: Store, w: Write): Store {
    match w
    case PutMail(id, mail) => s.(mails := s.mails[id := mail])
    case PutItem(id, item) => s.(items := s.items[id := item])
    case PutBatch(id, batch) => s.(batches := s.batches[id := batch])
  }

  function ApplyAll(s: Store, ws: seq<Write>): Store
    decreases ws
  {
    if ws == [] then s else ApplyAll(Apply(s, ws[0]), ws[1..])
  }

  lemma {:induction false} ApplyConcat(s: Store, a: seq<Write>, b: seq<Write>)
    ensures ApplyAll(s, a + b) == ApplyAll(ApplyAll(s, a), b)
    decreases a
  {
    if a == [] {
      assert a + b == b;
    } else {
      assert (a + b)[1..] == a[1..] + b;
      ApplyConcat(Apply(s, a[0]), a[1..], b);
    }
  }

  lemma ApplyShort(s: Store, ws: seq<Write>)
    ensures |ws| == 0 ==> ApplyAll(s, ws) == s
    ensures |ws| == 1 ==> ApplyAll(s, ws) == Apply(s, ws[0])
    ensures |ws| == 2 ==> ApplyAll(s, ws) == Apply(Apply(s, ws[0]), ws[1])
  {
    if |ws| == 1 {
      assert ws[1..] == [];
    } else if |ws| == 2 {
      assert ws[1..] == [ws[1]] && [ws[1]][1..] == [];
      assert ApplyAll(Apply(s, ws[0]), [ws[1]]) == ApplyAll(Apply(Apply(s, ws[0]), ws[1]), []);
    }
  }

  // ---------------------------------------------------------------- one item

  predicate Processable(s: Store, mailId: Id) {
    mailId in s.mails && (s.mails[mailId].state == InTransit || s.mails[mailId].state == Arrived)
  }

  function WhyNot(s: Store, mailId: Id): ItemError {
    if mailId in s.mails then Unprocessable(s.mails[mailId].mailNo, s.mails[mailId].state) else MailMissing
  }

  /** The writes of the forward loop for one item; a succeeded item is skipped. */
  function ForwardOne(s: Store, id: Id): seq<Write>
    requires id in s.items
  {
    var item := s.items[id];
    if item.state == ItemSucceeded then []
    else if Processable(s, item.mailId) then
      var mail := s.mails[item.mailId];
      [PutMail(item.mailId, mail.(state := Arrived, version := mail.version + 1)),
       PutItem(id, item.(state := ItemSucceeded))]
    else [PutItem(id, item.(state := ItemFailed, error := WhyNot(s, item.mailId)))]
  }

  /** The writes of the compensation loop for one item. */
  function CompensateOne(s: Store, id: Id): seq<Write>
    requires id in s.items
  {
    var item := s.items[id];
    (if item.mailId in s.mails && s.mails[item.mailId].state == Arrived then
       var mail := s.mails[item.mailId];
       [PutMail(item.mailId, mail.(state := InTransit, version := mail.version + 1))]
     else []) + [PutItem(id, item.(state := ItemRolledBack))]
  }

  lemma ForwardOneEffect(s: Store, id: Id)
    requires id in s.items
    ensures var t := ApplyAll(s, ForwardOne(s, id));
            var item := s.items[id];
            && t.batches == s.batches
            && t.mails == (if item.state != ItemSucceeded && Processable(s, item.mailId)
                           then s.mails[item.mailId :=
                               s.mails[item.mailId].(state := Arrived, version := s.mails[item.mailId].version + 1)]
                           else s.mails)
            && t.items == (if item.state == ItemSucceeded then s.items
                           else if Processable(s, item.mailId) then s.items[id := item.(state := ItemSucceeded)]
                           else s.items[id := item.(state := ItemFailed, error := WhyNot(s, item.mailId))])
  {
    ApplyShort(s, ForwardOne(s, id));
  }

  lemma CompensateOneEffect(s: Store, id: Id)
    requires id in s.items
    ensures var t := ApplyAll(s, CompensateOne(s, id));
            var item := s.items[id];
            && t.batches == s.batches
            && t.mails == (if item.mailId in s.mails && s.mails[item.mailId].state == Arrived
                           then s.mails[item.mailId :=
                               s.mails[item.mailId].(state := InTransit, version := s.mails[item.mailId].version + 1)]
                           else s.mails)
            && t.items == s.items[id := item.(state := ItemRolledBack)]
  {
    ApplyShort(s, CompensateOne(s, id));
  }

  // ---------------------------------------------------------------- the loops

  function Forward(s: Store, order: seq<Id>): seq<Write>
    requires forall id :: id in order ==> id in s.items
    decreases order
  {
    if order == [] then []
    else
      ForwardOneEffect(s, order[0]);
      ForwardOne(s, order[0]) + Forward(ApplyAll(s, ForwardOne(s, order[0])), order[1..])
  }

  function Compensate(s: Store, order: seq<Id>, processed: set<Id>): seq<Write>
    requires forall id :: id in order ==> id in s.items
    decreases order
  {
    if order == [] then []
    else if order[0] !in processed then Compensate(s, order[1..], processed)
    else
      CompensateOneEffect(s, order[0]);
      CompensateOne(s, order[0]) + Compensate(ApplyAll(s, CompensateOne(s, order[0])), order[1..], processed)
  }

  lemma ItemsStay(s: Store, id: Id)
    requires id in s.items
    ensures ApplyAll(s, ForwardOne(s, id)).items.Keys == s.items.Keys
    ensures ApplyAll(s, CompensateOne(s, id)).items.Keys == s.items.Keys
  {
    ForwardOneEffect(s, id);
    CompensateOneEffect(s, id);
    hide ApplyAll, ForwardOne, CompensateOne;
  }

  /** A list of writes cut short is cut within its first part, or after it. */
  lemma CutOf(s: Store, ws: seq<Write>, rest: seq<Write>, k: nat)
    requires k <= |ws| + |rest|
    ensures k <= |ws| ==> (ws + rest)[..k] == ws[..k] && (k > 0 ==> (ws + rest)[k - 1] == ws[k - 1])
    ensures k > |ws| ==> (ws + rest)[k - 1] == rest[k - |ws| - 1]
    ensures k > |ws| ==> ApplyAll(s, (ws + rest)[..k]) == ApplyAll(ApplyAll(s, ws), rest[..k - |ws|])
    ensures ws[..|ws|] == ws
  {
    hide ApplyAll;
    if k > |ws| {
      assert (ws + rest)[..k] == ws + rest[..k - |ws|];
      ApplyConcat(s, ws, rest[..k - |ws|]);
    }
  }

  lemma ForwardSplits(s: Store, order: seq<Id>)
    requires order != [] && forall id :: id in order ==> id in s.items
    ensures var t := ApplyAll(s, ForwardOne(s, order[0]));
            t.items.Keys == s.items.Keys && Forward(s, order) == ForwardOne(s, order[0]) + Forward(t, order[1..])
  {
    ItemsStay(s, order[0]);
    hide ApplyAll, ForwardOne;
  }

  lemma CompensateSplits(s: Store, order: seq<Id>, processed: set<Id>)
    requires order != [] && (forall id :: id in order ==> id in s.items) && order[0] in processed
    ensures var t := ApplyAll(s, CompensateOne(s, order[0]));
            && t.items.Keys == s.items.Keys
            && Compensate(s, order, processed) == CompensateOne(s, order[0]) + Compensate(t, order[1..], processed)
  {
    ItemsStay(s, order[0]);
    hide ApplyAll, CompensateOne;
  }

  /** The items the forward loop processes: not yet succeeded, with a mail that can be processed. */
  predicate Hit(s: Store, id: Id)
    requires id in s.items
  {
    s.items[id].state != ItemSucceeded && Processable(s, s.items[id].mailId)
  }

  function Range(order: seq<Id>): set<Id> { set id | id in order }

  ghost predicate NoDup(order: seq<Id>) {
    forall i, j :: 0 <= i < j < |order| ==> order[i] != order[j]
  }

  /** Some order in which the items of a batch may be listed: they all share one creation time. */
  ghost predicate IsListing(s: Store, bid: Id, order: seq<Id>) {
    NoDup(order) && forall id :: id in order <==> id in s.items && s.items[id].batch == bid
  }

  /** The items of a batch. */
  function ItemsOf(s: Store, bid: Id): set<Id> {
    set id | id in s.items && s.items[id].batch == bid
  }

  function Succeeded(s: Store, ids: set<Id>): set<Id> {
    set id | id in ids && id in s.items && s.items[id].state == ItemSucceeded
  }

  // ---------------------------------------------------------------- the order-free outcome of each loop

  function HitsOn(s: Store, ids: set<Id>, mailId: Id): set<Id> {
    set id | id in ids && id in s.items && Hit(s, id) && s.items[id].mailId == mailId
  }

  /** A mail after `n` items naming it have been processed. */
  function ArrivedBy(mail: Mail, n: nat): Mail {
    if n == 0 then mail else mail.(state := Arrived, version := mail.version + n)
  }

  /** A mail after one or more of its items have been compensated. */
  function SentBack(mail: Mail): Mail {
    if mail.state == Arrived then mail.(state := InTransit, version := mail.version + 1) else mail
  }

  /** An item after the forward loop has visited it. */
  function Attempted(s: Store, id: Id): Item
    requires id in s.items
  {
    if s.items[id].state == ItemSucceeded then s.items[id]
    else if Hit(s, id) then s.items[id].(state := ItemSucceeded)
    else s.items[id].(state := ItemFailed, error := WhyNot(s, s.items[id].mailId))
  }

  function ItemsAttempted(s: Store, ids: set<Id>): map<Id, Item> {
    map id | id in s.items :: if id in ids then Attempted(s, id) else s.items[id]
  }

  function ForwardOutcome(s: Store, ids: set<Id>): Store {
    Store(map m | m in s.mails :: ArrivedBy(s.mails[m], |HitsOn(s, ids, m)|),
          ItemsAttempted(s, ids),
          s.batches)
  }

  function MailsNamed(s: Store, ids: set<Id>): set<Id> {
    set id | id in ids && id in s.items :: s.items[id].mailId
  }

  function MailsSentBack(mails: map<Id, Mail>, named: set<Id>): map<Id, Mail> {
    map m | m in mails :: if m in named then SentBack(mails[m]) else mails[m]
  }

  function ItemsRolledBack(items: map<Id, Item>, ids: set<Id>): map<Id, Item> {
    map id | id in items :: if id in ids then items[id].(state := ItemRolledBack) else items[id]
  }

  function CompensateOutcome(s: Store, processed: set<Id>): Store {
    Store(MailsSentBack(s.mails, MailsNamed(s, processed)), ItemsRolledBack(s.items, processed), s.batches)
  }

  lemma RangeHead(order: seq<Id>)
    requires order != []
    ensures Range(order) == {order[0]} + Range(order[1..])
    ensures NoDup(order) ==> order[0] !in Range(order[1..]) && NoDup(order[1..])
  {
    assert order == [order[0]] + order[1..];
  }

  /** Processing one item changes nothing that decides how another is processed. */
  lemma OthersUnaffected(s: Store, id: Id, j: Id)
    requires id in s.items && j in s.items && j != id
    ensures var t := ApplyAll(s, ForwardOne(s, id));
            && j in t.items && t.items[j] == s.items[j] && (Hit(t, j) <==> Hit(s, j)) &&
                 Attempted(t, j) == Attempted(s, j)
  {
    ForwardOneEffect(s, id);
    hide ApplyAll, ForwardOne;
  }

  /** One more item, processed first, shifts every count by one on its mail alone. */
  lemma HitsShift(s: Store, id: Id, rest: set<Id>, m: Id)
    requires id in s.items && id !in rest && (forall j :: j in rest ==> j in s.items)
    ensures var t := ApplyAll(s, ForwardOne(s, id));
            var mine := if Hit(s, id) && s.items[id].mailId == m then {id} else {};
            HitsOn(s, {id} + rest, m) == mine + HitsOn(t, rest, m) && id !in HitsOn(t, rest, m)
  {
    var t := ApplyAll(s, ForwardOne(s, id));
    forall j | j in rest ensures j in t.items && t.items[j] == s.items[j] && (Hit(t, j) <==> Hit(s, j)) {
      OthersUnaffected(s, id, j);
    }
    hide ApplyAll, ForwardOne, Hit;
  }

  lemma ForwardStepMails(s: Store, id: Id, rest: set<Id>)
    requires id in s.items && id !in rest && (forall j :: j in rest ==> j in s.items)
    ensures ForwardOutcome(ApplyAll(s, ForwardOne(s, id)), rest).mails == ForwardOutcome(s, {id} + rest).mails
  {
    hide ApplyAll, ForwardOne, HitsOn;
    ForwardOneEffect(s, id);
    var t := ApplyAll(s, ForwardOne(s, id));
    var a, b := ForwardOutcome(t, rest).mails, ForwardOutcome(s, {id} + rest).mails;
    assert t.mails.Keys == s.mails.Keys;
    forall m | m in s.mails ensures m in t.mails && a[m] == b[m] {
      HitsShift(s, id, rest, m);
      OneMail(s, id, m, HitsOn(t, rest, m), HitsOn(s, {id} + rest, m));
    }
    hide *;
  }

  lemma OneMail(s: Store, id: Id, m: Id, later: set<Id>, all: set<Id>)
    requires id in s.items && m in s.mails && id !in later
    requires all == (if Hit(s, id) && s.items[id].mailId == m then {id} else {}) + later
    ensures var t := ApplyAll(s, ForwardOne(s, id));
            m in t.mails && ArrivedBy(t.mails[m], |later|) == ArrivedBy(s.mails[m], |all|)
  {
    ForwardOneEffect(s, id);
    hide ApplyAll, ForwardOne;
    if Hit(s, id) && s.items[id].mailId == m {
      assert |all| == 1 + |later|;
    } else {
      assert all == later;
    }
  }

  lemma AttemptedShift(s: Store, t: Store, id: Id, rest: set<Id>)
    requires id in s.items && id !in rest && t.items.Keys == s.items.Keys && t.items[id] == Attempted(s, id)
    requires forall j :: j in s.items && j != id ==>
        j in t.items && t.items[j] == s.items[j] && Attempted(t, j) == Attempted(s, j)
    ensures ItemsAttempted(t, rest) == ItemsAttempted(s, {id} + rest)
  {
    hide Attempted;
  }

  lemma ForwardStep(s: Store, id: Id, rest: set<Id>)
    requires id in s.items && id !in rest && (forall j :: j in rest ==> j in s.items)
    ensures ForwardOutcome(ApplyAll(s, ForwardOne(s, id)), rest) == ForwardOutcome(s, {id} + rest)
  {
    ForwardStepMails(s, id, rest);
    ForwardOneEffect(s, id);
    var t := ApplyAll(s, ForwardOne(s, id));
    forall j | j in s.items && j != id
      ensures j in t.items && t.items[j] == s.items[j] && Attempted(t, j) == Attempted(s, j)
    {
      OthersUnaffected(s, id, j);
    }
    assert t.items[id] == Attempted(s, id) && t.items.Keys == s.items.Keys;
    AttemptedShift(s, t, id, rest);
  }

  lemma {:induction false} ForwardIs(s: Store, order: seq<Id>)
    requires NoDup(order) && forall id :: id in order ==> id in s.items
    ensures ApplyAll(s, Forward(s, order)) == ForwardOutcome(s, Range(order))
    decreases order
  {
    if order == [] {
      assert ForwardOutcome(s, {}).mails == s.mails;
      assert ForwardOutcome(s, {}).items == s.items;
    } else {
      RangeHead(order);
      ForwardOneEffect(s, order[0]);
      var ws := ForwardOne(s, order[0]);
      var t := ApplyAll(s, ws);
      ApplyConcat(s, ws, Forward(t, order[1..]));
      ForwardIs(t, order[1..]);
      ForwardStep(s, order[0], Range(order[1..]));
    }
  }

  lemma SentBackOnce(mails: map<Id, Mail>, first: Id, rest: set<Id>)
    requires first in mails
    ensures MailsSentBack(mails[first := SentBack(mails[first])], rest) == MailsSentBack(mails, {first} + rest)
  {
  }

  lemma SentBackMissing(mails: map<Id, Mail>, first: Id, rest: set<Id>)
    requires first !in mails
    ensures MailsSentBack(mails, rest) == MailsSentBack(mails, {first} + rest)
  {
  }

  lemma RolledBackOnce(items: map<Id, Item>, first: Id, rest: set<Id>)
    requires first in items
    ensures ItemsRolledBack(items[first := items[first].(state := ItemRolledBack)], rest) ==
        ItemsRolledBack(items, {first} + rest)
  {
  }

  lemma CompensateStep(s: Store, id: Id, rest: set<Id>)
    requires id in s.items && id !in rest && (forall j :: j in rest ==> j in s.items)
    ensures CompensateOutcome(ApplyAll(s, CompensateOne(s, id)), rest) == CompensateOutcome(s, {id} + rest)
  {
    CompensateOneEffect(s, id);
    var t := ApplyAll(s, CompensateOne(s, id));
    hide ApplyAll, CompensateOne, MailsSentBack, ItemsRolledBack, MailsNamed;
    var named := s.items[id].mailId;
    NamedShift(s, t, id, rest);
    RolledBackOnce(s.items, id, rest);
    if named in s.mails {
      assert t.mails == s.mails[named := SentBack(s.mails[named])];
      SentBackOnce(s.mails, named, MailsNamed(t, rest));
    } else {
      SentBackMissing(s.mails, named, MailsNamed(t, rest));
    }
  }

  lemma NamedShift(s: Store, t: Store, id: Id, rest: set<Id>)
    requires id in s.items && id in t.items && t.items == s.items[id := t.items[id]] && id !in rest
    ensures MailsNamed(s, {id} + rest) == {s.items[id].mailId} + MailsNamed(t, rest)
  {
    forall m | m in MailsNamed(t, rest) ensures m in MailsNamed(s, {id} + rest) {
      var j :| j in rest && j in t.items && t.items[j].mailId == m;
      assert j in {id} + rest && s.items[j].mailId == m;
    }
    forall m | m in MailsNamed(s, {id} + rest) ensures m in {s.items[id].mailId} + MailsNamed(t, rest) {
      var j :| j in {id} + rest && j in s.items && s.items[j].mailId == m;
      assert j != id ==> j in rest && j in t.items && t.items[j].mailId == m;
    }
    assert id in {id} + rest;
  }

  lemma {:induction false} CompensateIs(s: Store, order: seq<Id>, processed: set<Id>)
    requires NoDup(order) && forall id :: id in order ==> id in s.items
    ensures ApplyAll(s, Compensate(s, order, processed)) == CompensateOutcome(s, Range(order) * processed)
    decreases order
  {
    if order == [] {
      assert CompensateOutcome(s, {}).mails == s.mails;
      assert CompensateOutcome(s, {}).items == s.items;
      assert Range(order) * processed == {};
    } else {
      RangeHead(order);
      if order[0] !in processed {
        CompensateIs(s, order[1..], processed);
        assert Range(order) * processed == Range(order[1..]) * processed;
      } else {
        CompensateOneEffect(s, order[0]);
        var ws := CompensateOne(s, order[0]);
        var t := ApplyAll(s, ws);
        ApplyConcat(s, ws, Compensate(t, order[1..], processed));
        CompensateIs(t, order[1..], processed);
        assert Range(order) * processed == {order[0]} + Range(order[1..]) * processed;
        CompensateStep(s, order[0], Range(order[1..]) * processed);
      }
    }
  }
}
