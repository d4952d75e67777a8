/**
 The bus object: a map from subscriber to channel, guarded by a lock, over the event table.
 Every method is one locked section and is proved to take the bus from the value `model` to
 the value that the corresponding `BusModel` function gives.  `CloseDone` demands an open
 channel, so no Done is ever closed twice.
 */
module EventBus {
  import opened Domain
  import opened EventLog
  import opened BusModel

  class SubscriberChannel {
    const id: Id
    ghost const handle: nat
    var ch: seq<Event>
    var done: bool
    ghost var taken: seq<Event>

    constructor (id: Id, ghost handle: nat)
      ensures this.id == id && this.handle == handle && ch == [] && taken == [] && !done
    {
      this.id, this.handle := id, handle;
      ch, done, taken := [], false, [];
    }

    ghost predicate Shows(c: Chan)
      reads this
    {
      c == Chan(id, taken, ch, !done)
    }

    /** The non-blocking send. */
    method TrySend(e: Event) returns (ok: bool)
      modifies this
      ensures ok == (|old(ch)| < 256) && taken == old(taken) && done == old(done)
      ensures ch == if ok then old(ch) + [e] else old(ch)
    {
      ok := |ch| < BUFFER_SIZE;
      if ok {
        ch := ch + [e];
      }
    }

    method Receive() returns (e: Event)
      requires ch != []
      modifies this
      ensures [e] + ch == old(ch) && taken == old(taken) + [e] && done == old(done)
    {
      e := ch[0];
      taken := taken + [e];
      ch := ch[1..];
    }

    /** Closing a Done that is already closed would panic. */
    method CloseDone()
      requires !done
      modifies this
      ensures done && ch == old(ch) && taken == old(taken)
    {
      done := true;
    }
  }

  class EventBus {
    const repo: EventRepo
    var subscribers: map<Id, SubscriberChannel>
    ghost var repr: set<SubscriberChannel>
    ghost var model: Bus

    /** The log and the map of subscribers are those of the model, and every channel has its own handle there. */
    ghost predicate Wired()
      reads this, repo
    {
      && model.log == repo.rows
      && (forall c {:trigger c in repr} :: c in repr ==> c.handle in model.chans)
      && (forall c, d {:trigger c.handle, d.handle} :: c in repr && d in repr && c.handle == d.handle ==> c == d)
      && (forall id {:trigger id in subscribers} {:trigger id in model.subs} :: id in model.subs <==> id in subscribers)
      && (forall id {:trigger subscribers[id]} :: id in subscribers ==>
           subscribers[id] in repr && subscribers[id].handle == model.subs[id])
    }

    ghost predicate Matches()
      reads this, repo, repr
    {
      Wired() && forall c {:trigger c in repr} :: c in repr ==> c.Shows(model.chans[c.handle])
    }

    /** In the middle of a pushing loop, the channels of the subscribers in `todo` are still to be visited. */
    ghost predicate Visiting(event: Event, todo: set<Id>)
      reads this, repo, repr
    {
      Wired() && forall c {:trigger c in repr} :: c in repr ==> c.Shows(Visited(model, event, todo, c.handle))
    }

    constructor (repo: EventRepo)
      ensures Matches() && WellFormed(model) && this.repo == repo && model == Bus(repo.rows, map[], map[])
    {
      this.repo := repo;
      subscribers := map[];
      repr := {};
      model := Bus(repo.rows, map[], map[]);
    }

    method Register(id: Id, ghost h: nat) returns (sc: SubscriberChannel)
      requires Matches() && WellFormed(model) && h !in model.chans
      modifies this, repr
      ensures Matches() && WellFormed(model) && fresh(sc) && repr == old(repr) + {sc} && sc.handle == h
      ensures model == BusModel.Register(old(model), id, h)
    {
      hide WellFormed, BusModel.Register, BusModel.Unregister;
      RegisterKeeps(model, id, h);
      RegisterAfterDrop(model, id, h);
      Drop(id);
      sc := new SubscriberChannel(id, h);
      Add(sc);
    }

    /** Put a new channel into the map. */
    method Add(sc: SubscriberChannel)
      requires Matches() && sc !in repr && sc.handle !in model.chans && sc.Shows(Chan(sc.id, [], [], true))
      modifies this`subscribers, this`repr, this`model
      ensures Matches() && repr == old(repr) + {sc}
      ensures model == Bus(old(model.log), old(model.subs)[sc.id := sc.handle],
                           old(model.chans)[sc.handle := Chan(sc.id, [], [], true)])
    {
      subscribers := subscribers[sc.id := sc];
      repr := repr + {sc};
      model := Bus(model.log, model.subs[sc.id := sc.handle], model.chans[sc.handle := Chan(sc.id, [], [], true)]);
    }

    method Unregister(id: Id)
      requires Matches() && WellFormed(model)
      modifies this, repr
      ensures Matches() && WellFormed(model) && repr == old(repr)
      ensures model == BusModel.Unregister(old(model), id)
    {
      Drop(id);
    }

    /** Close the subscriber's channel and forget it, if there is one. */
    method Drop(id: Id)
      requires Matches() && WellFormed(model)
      modifies this, repr
      ensures Matches() && WellFormed(model) && repr == old(repr)
      ensures model == BusModel.Unregister(old(model), id)
    {
      hide WellFormed;
      UnregisterKeeps(model, id);
      if id in subscribers {
        MappedIsOpen(model, id);
        var sc := subscribers[id];
        subscribers := subscribers - {id};
        sc.CloseDone();
        model := BusModel.Unregister(model, id);
      }
    }

    /** The read-locked loop of a publication; the map is visited in an arbitrary order. */
    method PushAll(event: Event) returns (toEvict: seq<Id>)
      requires Matches() && WellFormed(model)
      modifies this`model, repr
      ensures Matches() && WellFormed(model) && repr == old(repr)
      ensures model == Push(old(model), event) && SetOf(toEvict) == Full(old(model))
    {
      hide WellFormed, Push, Visited, Full;
      VisitNobody(model, event, subscribers.Keys);
      toEvict := [];
      var todo := subscribers.Keys;
      while todo != {}
        invariant todo <= subscribers.Keys && Visiting(event, todo)
        invariant forall id :: id in toEvict <==> id in Full(model) && id !in todo
        modifies repr
      {
        var id :| id in todo;
        var ok := Visit(event, todo, id);
        if !ok {
          toEvict := toEvict + [id];
        }
        todo := todo - {id};
      }
      AllVisited(event);
    }

    /** One turn of the loop: offer the event to this subscriber's channel without waiting. */
    method Visit(event: Event, ghost todo: set<Id>, id: Id) returns (ok: bool)
      requires WellFormed(model) && Visiting(event, todo) && id in todo && id in subscribers
      modifies subscribers[id]
      ensures Visiting(event, todo - {id}) && ok == (id !in Full(model))
    {
      hide WellFormed, Visited, Full;
      VisitOne(model, event, todo, id);
      ok := subscribers[id].TrySend(event);
    }

    ghost method AllVisited(event: Event)
      requires WellFormed(model) && Visiting(event, {})
      modifies this`model
      ensures Matches() && WellFormed(model) && model == Push(old(model), event)
    {
      hide WellFormed, Push, Visited;
      VisitAll(model, event);
      PushKeeps(model, event);
      model := Push(model, event);
    }

    /** The write-locked loop of a publication. */
    method EvictAll(toEvict: seq<Id>)
      requires Matches() && WellFormed(model)
      modifies this, repr
      ensures Matches() && WellFormed(model) && repr == old(repr)
      ensures model == Evict(old(model), SetOf(toEvict))
    {
      hide WellFormed, Evict, BusModel.Unregister;
      EvictNobody(model);
      var i := 0;
      assert SetOf(toEvict[..0]) == {};
      while i < |toEvict|
        invariant 0 <= i <= |toEvict|
        invariant Matches() && WellFormed(model) && repr == old(repr)
        invariant model == Evict(old(model), SetOf(toEvict[..i]))
      {
        EvictOneMore(old(model), SetOf(toEvict[..i]), toEvict[i]);
        SetOfSnoc(toEvict, i);
        Drop(toEvict[i]);
        i := i + 1;
      }
      assert toEvict[..i] == toEvict;
    }

    /** A publication that nothing interrupts. */
    method Publish(body: string) returns (event: Event)
      requires Matches() && WellFormed(model)
      modifies this, repo, repr
      ensures Matches() && WellFormed(model) && repr == old(repr) && event == Event(|repo.rows|, body)
      ensures model == BusModel.Publish(old(model), body)
    {
      hide WellFormed, Push, Evict, Full;
      AppendKeeps(model, body);
      var id := repo.Append(body);
      model := Append(model, body);
      event := Event(id, body);
      var toEvict := PushAll(event);
      if |toEvict| > 0 {
        EvictAll(toEvict);
      } else {
        assert SetOf(toEvict) == {};
        EvictNobody(model);
      }
    }

    /** A session receives the head of its own channel, whether or not it is still subscribed. */
    method Deliver(sc: SubscriberChannel) returns (event: Event)
      requires Matches() && WellFormed(model) && sc in repr && sc.ch != []
      modifies this`model, sc
      ensures Matches() && WellFormed(model)
      ensures [event] <= old(sc.ch) && model == Take(old(model), sc.handle)
    {
      hide WellFormed;
      TakeKeeps(model, sc.handle);
      assert sc.Shows(model.chans[sc.handle]);
      event := sc.Receive();
      model := Take(model, sc.handle);
    }

    method ReplayAfter(after: int, limit: int) returns (events: seq<Event>)
      ensures events == EventsAfter(repo.rows, after, limit)
    {
      events := repo.ListAfter(after, limit);
    }
  }

  ghost function SetOf(ids: seq<Id>): set<Id> { set id | id in ids }

  lemma SetOfSnoc(ids: seq<Id>, i: nat)
    requires i < |ids|
    ensures SetOf(ids[..i + 1]) == SetOf(ids[..i]) + {ids[i]}
  {
    assert ids[..i + 1] == ids[..i] + [ids[i]];
  }

  /** A channel in the middle of the publishing loop. */
  ghost function Visited(b: Bus, e: Event, todo: set<Id>, h: nat): Chan
    requires h in b.chans
  {
    if b.Current(h) && b.chans[h].sub !in todo then Offered(b.chans[h], e) else b.chans[h]
  }

  lemma VisitNobody(b: Bus, e: Event, todo: set<Id>)
    requires WellFormed(b) && todo == b.subs.Keys
    ensures forall h :: h in b.chans ==> Visited(b, e, todo, h) == b.chans[h]
    ensures forall id :: id in Full(b) ==> id in todo
  {
  }

  lemma VisitOne(b: Bus, e: Event, todo: set<Id>, id: Id)
    requires WellFormed(b) && id in todo && id in b.subs
    ensures forall h {:trigger Visited(b, e, todo - {id}, h)} :: h in b.chans ==>
      Visited(b, e, todo - {id}, h) == if h == b.subs[id] then Offered(b.chans[h], e) else Visited(b, e, todo, h)
    ensures b.subs[id] in b.chans && Visited(b, e, todo, b.subs[id]) == b.chans[b.subs[id]]
    ensures id in Full(b) <==> |b.chans[b.subs[id]].queue| >= BUFFER_SIZE
  {
    MappedIsOpen(b, id);
  }

  lemma VisitAll(b: Bus, e: Event)
    ensures Push(b, e).log == b.log && Push(b, e).subs == b.subs && Push(b, e).chans.Keys == b.chans.Keys
    ensures forall h {:trigger Visited(b, e, {}, h)} :: h in b.chans ==> Visited(b, e, {}, h) == Push(b, e).chans[h]
  {
  }

  lemma EvictOneMore(b: Bus, ids: set<Id>, id: Id)
    requires WellFormed(b)
    ensures Evict(b, ids + {id}) == BusModel.Unregister(Evict(b, ids), id)
  {
    hide WellFormed, Evict, BusModel.Unregister;
    var all, one := Evict(b, ids + {id}), BusModel.Unregister(Evict(b, ids), id);
    EvictShape(b, ids, id);
    forall h | h in b.chans ensures all.chans[h] == one.chans[h] {
      EvictOneChannel(b, ids, id, h);
    }
  }

  lemma EvictShape(b: Bus, ids: set<Id>, id: Id)
    requires WellFormed(b)
    ensures var all, one := Evict(b, ids + {id}), BusModel.Unregister(Evict(b, ids), id);
            && all.log == one.log && all.subs == one.subs
            && all.chans.Keys == b.chans.Keys && one.chans.Keys == b.chans.Keys
  {
    if id in b.subs {
      MappedIsOpen(b, id);
    }
    hide WellFormed;
  }

  lemma EvictOneChannel(b: Bus, ids: set<Id>, id: Id, h: nat)
    requires WellFormed(b) && h in b.chans
    ensures var one := BusModel.Unregister(Evict(b, ids), id);
            h in one.chans && Evict(b, ids + {id}).chans[h] == one.chans[h]
  {
    if id in b.subs {
      MappedIsOpen(b, id);
    }
    hide WellFormed;
  }

  lemma EvictNobody(b: Bus)
    ensures Evict(b, {}) == b
  {
    assert b.subs - {} == b.subs;
  }

  lemma RegisterAfterDrop(b: Bus, id: Id, h: nat)
    requires h !in b.chans
    ensures var d := BusModel.Unregister(b, id);
            h !in d.chans && BusModel.Register(b, id, h) ==
                Bus(d.log, d.subs[id := h], d.chans[h := Chan(id, [], [], true)])
  {
  }
}
