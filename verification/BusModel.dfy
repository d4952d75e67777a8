/**
 The in-memory fan-out of events to bounded subscriber queues.

 `Bus` is the state as a value: every channel ever created, keyed by a handle, the map from
 subscriber to its current channel, and the event log.  A channel keeps the events already
 taken from it, so that what was ever accepted is `taken + queue`.
 Each function is one locked section of the bus object.
 */
module BusModel {
  import opened Domain
  import opened EventLog

  const BUFFER_SIZE := 256

  datatype Chan = Chan(sub: Id, taken: seq<Event>, queue: seq<Event>, open: bool) {
    function Accepted(): seq<Event> { taken + queue }
  }

  datatype Bus = Bus(log: seq<string>, subs: map<Id, nat>, chans: map<nat, Chan>) {
    /** The channel is the one its subscriber is currently mapped to. */
    predicate Current(h: nat)
      requires h in chans
    {
      chans[h].sub in subs && subs[chans[h].sub] == h
    }
  }

  /** A channel is in the map exactly while its Done is open, and no queue outgrows its buffer. */
  ghost predicate WellFormed(b: Bus) {
    && (forall id {:trigger b.subs[id]} :: id in b.subs ==> b.subs[id] in b.chans && b.chans[b.subs[id]].sub == id)
    && (forall h {:trigger b.chans[h].open} {:trigger b.Current(h)} :: h in b.chans ==>
         (b.chans[h].open <==> b.Current(h)))
    && (forall h {:trigger b.chans[h].queue} :: h in b.chans ==> |b.chans[h].queue| <= BUFFER_SIZE)
  }

  function Shut(b: Bus, h: nat): map<nat, Chan> {
    if h in b.chans then b.chans[h := b.chans[h].(open := false)] else b.chans
  }

  function Register(b: Bus, id: Id, h: nat): Bus {
    var chans := if id in b.subs then Shut(b, b.subs[id]) else b.chans;
    Bus(b.log, b.subs[id := h], chans[h := Chan(id, [], [], true)])
  }

  function Unregister(b: Bus, id: Id): Bus {
    if id in b.subs then Bus(b.log, b.subs - {id}, Shut(b, b.subs[id])) else b
  }

  function Offered(c: Chan, e: Event): Chan {
    if |c.queue| < BUFFER_SIZE then c.(queue := c.queue + [e]) else c
  }

  /** The subscribers whose queue has no room. */
  function Full(b: Bus): set<Id> {
    set id | id in b.subs && b.subs[id] in b.chans && |b.chans[b.subs[id]].queue| >= BUFFER_SIZE
  }

  /** First locked section of a publication: offer the event to every current channel. */
  function Push(b: Bus, e: Event): Bus {
    b.(chans := map h | h in b.chans :: if b.Current(h) then Offered(b.chans[h], e) else b.chans[h])
  }

  /** Second locked section: drop whichever channels these subscribers have by then. */
  function Evict(b: Bus, ids: set<Id>): Bus {
    Bus(b.log, b.subs - ids,
        map h | h in b.chans ::
            if b.Current(h) && b.chans[h].sub in ids then b.chans[h].(open := false) else b.chans[h])
  }

  function Append(b: Bus, body: string): Bus { b.(log := b.log + [body]) }

  /** The head of a queue moves to the taken events. */
  function Take(b: Bus, h: nat): Bus {
    if h in b.chans && b.chans[h].queue != [] then
      var c := b.chans[h];
      b.(chans := b.chans[h := c.(taken := c.taken + [c.queue[0]], queue := c.queue[1..])])
    else b
  }

  /** What a new process finds: no subscribers, and no channel of the old process ever signals again. */
  function Silence(b: Bus): Bus {
    Bus(b.log, map[], map h | h in b.chans :: b.chans[h].(open := false))
  }

  lemma SilenceKeeps(b: Bus)
    requires WellFormed(b)
    ensures WellFormed(Silence(b))
  {
  }

  lemma MappedIsOpen(b: Bus, id: Id)
    requires WellFormed(b) && id in b.subs
    ensures var h := b.subs[id]; h in b.chans && b.chans[h].sub == id && b.Current(h) && b.chans[h].open
  {
    assert b.Current(b.subs[id]);
  }

  lemma RegisterKeeps(b: Bus, id: Id, h: nat)
    requires WellFormed(b) && h !in b.chans
    ensures WellFormed(Register(b, id, h))
  {
  }

  lemma UnregisterKeeps(b: Bus, id: Id)
    requires WellFormed(b)
    ensures WellFormed(Unregister(b, id))
  {
  }

  lemma AppendKeeps(b: Bus, body: string)
    requires WellFormed(b)
    ensures WellFormed(Append(b, body))
  {
  }

  lemma PushKeeps(b: Bus, e: Event)
    requires WellFormed(b)
    ensures WellFormed(Push(b, e))
  {
  }

  lemma EvictKeeps(b: Bus, ids: set<Id>)
    requires WellFormed(b)
    ensures WellFormed(Evict(b, ids))
  {
  }

  lemma TakeKeeps(b: Bus, h: nat)
    requires WellFormed(b)
    ensures WellFormed(Take(b, h))
  {
  }

  /** One uninterrupted publication. */
  function Publish(b: Bus, body: string): Bus {
    var logged := Append(b, body);
    var e := Event(|logged.log|, body);
    Evict(Push(logged, e), Full(logged))
  }

  /**
   After an uninterrupted publication the remaining subscribers are exactly those that had
   room, each has the event last in its queue, and a full one is closed without it.
   */
  lemma PublishReachesAll(b: Bus, body: string, id: Id)
    requires WellFormed(b) && id in b.subs
    ensures var r := Publish(b, body);
            var e := Event(|b.log| + 1, body);
            var h := b.subs[id];
            && WellFormed(r)
            && h in r.chans
            && (id in r.subs <==> |b.chans[h].queue| < 256)
            && (id in r.subs ==>
                  r.subs[id] == h && r.chans[h].open && r.chans[h].Accepted() == b.chans[h].Accepted() + [e])
            && (id !in r.subs ==> r.chans[h] == b.chans[h].(open := false))
  {
    var logged := Append(b, body);
    var e := Event(|logged.log|, body);
    PushKeeps(logged, e);
    EvictKeeps(Push(logged, e), Full(logged));
    var h := b.subs[id];
    assert logged.Current(h);
    assert (b.chans[h].taken + b.chans[h].queue) + [e] == b.chans[h].taken + (b.chans[h].queue + [e]);
  }
}
