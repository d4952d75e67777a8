/**
 Delivery when publications overlap but push in the order of the log: appends and evictions may
 then interleave freely, and a session whose subscriber no publication has listed for eviction
 still misses nothing beyond its replay page.
 */
module OrderedDelivery {
  import opened Domain
  import opened EventLog
  import opened Subscription
  import opened BusModel
  import opened Delivery
  import opened Frames
  import opened DeliveryGuarantees

  /** An event is pushed only when every lower logged event has been. */
  predicate OrderedStep(s: State, step: Step) {
    step.PushEvent? && step.id in s.pubs ==> forall id :: id in s.pubs && s.pubs[id].Logged? ==> step.id <= id
  }

  predicate Ordered(s: State, steps: seq<Step>)
    decreases steps
  {
    steps == [] || (OrderedStep(s, steps[0]) && Ordered(Next(s, steps[0]), steps[1..]))
  }

  /** Some publication in progress is about to evict this subscriber. */
  predicate Listed(s: State, sub: Id) {
    exists id :: id in s.pubs && s.pubs[id].Evicting? && sub in s.pubs[id].ids
  }

  /** Publications are of logged events, and those that wait to be pushed are the last ones. */
  ghost predicate Queued(s: State) {
    forall id :: id in s.pubs ==> 1 <= id <= |s.bus.log| && (s.pubs[id].Logged? ==> id > Pushed(s))
  }

  /** An open channel that is not listed has accepted everything pushed since its session registered. */
  ghost predicate Steady(s: State, k: nat)
    requires k in s.sessions && k in s.bus.chans
  {
    var x, c := s.sessions[k], s.bus.chans[k];
    && x.base <= Pushed(s)
    && (Reading(x) ==> x.base <= x.seen)
    && (c.open && !Listed(s, c.sub) ==> c.Accepted() == Slice(s.bus.log, x.base, Pushed(s)))
  }

  ghost predicate InOrder(s: State) {
    Sound(s) && Queued(s) && forall k :: k in s.bus.chans ==> Steady(s, k)
  }

  lemma OrderFacts(s: State, k: nat)
    requires InOrder(s)
    ensures Sound(s) && Queued(s)
    ensures k in s.bus.chans ==> k in s.sessions && s.bus.chans[k].sub == s.sessions[k].sub && Steady(s, k)
    ensures k in s.bus.chans ==> !s.sessions[k].phase.Opening? && (s.bus.chans[k].open <==> s.bus.Current(k))
  {
  }

  lemma InOrderIntro(s: State)
    requires Sound(s) && Queued(s) && forall k :: k in s.bus.chans ==> k in s.sessions && Steady(s, k)
    ensures InOrder(s)
  {
  }

  /** What fixes the number of events pushed. */
  lemma PushedIs(s: State, p: nat)
    requires p <= |s.bus.log| && forall id :: p < id <= |s.bus.log| ==> id in s.pubs && s.pubs[id].Logged?
    requires p > 0 ==> !(p in s.pubs && s.pubs[p].Logged?)
    ensures Pushed(s) == p
  {
    assert Pushed(s) < p ==> p in s.pubs;
    assert p < Pushed(s) ==> Pushed(s) in s.pubs;
  }

  lemma AppendCounts(s: State, body: string)
    requires Queued(s)
    ensures Pushed(DoAppend(s, body)) == Pushed(s) && Queued(DoAppend(s, body))
  {
    var t := DoAppend(s, body);
    var p := Pushed(s);
    assert forall id :: p < id <= |s.bus.log| ==> id in s.pubs && s.pubs[id].Logged?;
    assert p > 0 ==> !(p in s.pubs && s.pubs[p].Logged?);
    hide Pushed;
    PushedIs(t, p);
  }

  lemma OrderAppend(s: State, body: string)
    requires InOrder(s)
    ensures InOrder(DoAppend(s, body))
  {
    hide InOrder, Sound, Slice, Pushed, Queued;
    var t := DoAppend(s, body);
    OrderFacts(s, 0);
    AppendFollows(s, body);
    AppendCounts(s, body);
    PushedBound(s);
    forall k | k in t.bus.chans ensures k in t.sessions && Steady(t, k) {
      OrderFacts(s, k);
      SliceAppend(s.bus.log, body, s.sessions[k].base, Pushed(s));
      ListedAfterAppend(s, body, s.bus.chans[k].sub);
    }
    InOrderIntro(t);
  }

  lemma PushedBound(s: State)
    ensures Pushed(s) <= |s.bus.log|
  {
  }

  lemma ListedAfterAppend(s: State, body: string, sub: Id)
    requires InOrder(s)
    ensures Listed(DoAppend(s, body), sub) <==> Listed(s, sub)
  {
    OrderFacts(s, 0);
    hide InOrder, Sound;
    assert |s.bus.log| + 1 !in s.pubs;
    var t := DoAppend(s, body);
    if Listed(s, sub) {
      var id :| id in s.pubs && s.pubs[id].Evicting? && sub in s.pubs[id].ids;
      assert id in t.pubs && t.pubs[id] == s.pubs[id];
    }
  }

  /** The event pushed is the one right after those pushed before. */
  lemma PushCounts(s: State, id: int)
    requires Queued(s) && OrderedStep(s, PushEvent(id)) && id in s.pubs && s.pubs[id].Logged?
    ensures id == Pushed(s) + 1 && Pushed(DoPush(s, id)) == id && Queued(DoPush(s, id))
  {
    var p, n := Pushed(s), |s.bus.log|;
    assert forall j :: p < j <= n ==> j in s.pubs && s.pubs[j].Logged?;
    assert p + 1 in s.pubs;
    hide Pushed;
    var t := DoPush(s, id);
    PushedIs(t, id);
  }

  lemma OrderPush(s: State, id: int)
    requires InOrder(s) && OrderedStep(s, PushEvent(id))
    ensures InOrder(DoPush(s, id))
  {
    OrderFacts(s, 0);
    PublishStepsFollow(s, id);
    if id in s.pubs && s.pubs[id].Logged? {
      assert 1 <= id <= |s.bus.log|;
      PushCounts(s, id);
      hide InOrder, Sound, Queued, Pushed, Steady, DoPush;
      var t := DoPush(s, id);
      assert t.bus.chans.Keys == s.bus.chans.Keys && t.sessions == s.sessions by { PushShape(s, id); }
      forall k | k in t.bus.chans ensures k in t.sessions && Steady(t, k) {
        assert k in s.bus.chans.Keys;
        OrderFacts(s, k);
        SteadyPush(s, id, k);
      }
      InOrderIntro(t);
    }
  }

  lemma PushShape(s: State, id: int)
    requires id in s.pubs && s.pubs[id].Logged? && 1 <= id <= |s.bus.log|
    ensures var t := DoPush(s, id);
            && t.bus.chans.Keys == s.bus.chans.Keys && t.sessions == s.sessions && t.bus.log == s.bus.log
            && t.pubs == s.pubs[id := Evicting(Full(s.bus))]
  {
    hide Full, Offered;
  }

  /** One channel during a push: it takes the event, is listed as full, or is not current. */
  lemma ChannelPush(b: Bus, e: Event, k: nat)
    requires k in b.chans
    ensures k in Push(b, e).chans
    ensures var c, d := b.chans[k], Push(b, e).chans[k];
            && d.sub == c.sub && d.open == c.open
            && (b.Current(k) && c.sub !in Full(b) ==> d.Accepted() == c.Accepted() + [e])
  {
    var c := b.chans[k];
    assert (c.taken + c.queue) + [e] == c.taken + (c.queue + [e]);
  }

  lemma SteadyPush(s: State, id: int, k: nat)
    requires k in s.sessions && k in s.bus.chans && Steady(s, k) && (s.bus.chans[k].open <==> s.bus.Current(k))
    requires id in s.pubs && s.pubs[id].Logged? && 1 <= id <= |s.bus.log|
    requires id == Pushed(s) + 1 && Pushed(DoPush(s, id)) == id
    ensures var t := DoPush(s, id); k in t.sessions && k in t.bus.chans && Steady(t, k)
  {
    var t, e := DoPush(s, id), Event(id, s.bus.log[id - 1]);
    PushShape(s, id);
    assert t.bus == Push(s.bus, e);
    hide DoPush, Push, Pushed, Slice, Full, Listed, Bus.Current;
    ChannelPush(s.bus, e, k);
    ListedAfterPush(s, id, s.bus.chans[k].sub);
    SliceExtend(s.bus.log, s.sessions[k].base, Pushed(s));
    var d := t.bus.chans[k];
    if d.open && !Listed(t, d.sub) {
      assert d.Accepted() == Slice(s.bus.log, s.sessions[k].base, id);
    }
  }

  lemma ListedAfterPush(s: State, id: int, sub: Id)
    requires id in s.pubs && s.pubs[id].Logged? && 1 <= id <= |s.bus.log|
    ensures Listed(DoPush(s, id), sub) <==> Listed(s, sub) || sub in Full(s.bus)
  {
    PushShape(s, id);
    hide DoPush, Full;
    var t := DoPush(s, id);
    assert t.pubs[id] == Evicting(Full(s.bus));
    if Listed(s, sub) {
      var j :| j in s.pubs && s.pubs[j].Evicting? && sub in s.pubs[j].ids;
      assert t.pubs[j] == s.pubs[j];
    }
  }

  /** A step that pushes nothing keeps a channel steady unless it opens it or takes its subscriber off a list. */
  lemma SteadyCarries(s: State, t: State, k: nat)
    requires k in s.sessions && k in s.bus.chans && Steady(s, k) && k in t.sessions && k in t.bus.chans
    requires t.bus.log == s.bus.log && Pushed(t) == Pushed(s) && t.sessions[k].base == s.sessions[k].base
    requires t.bus.chans[k].Accepted() == s.bus.chans[k].Accepted() && t.bus.chans[k].sub == s.bus.chans[k].sub
    requires t.bus.chans[k].open && !Listed(t, t.bus.chans[k].sub) ==>
               s.bus.chans[k].open && !Listed(s, s.bus.chans[k].sub)
    requires Reading(t.sessions[k]) ==> t.sessions[k].base <= t.sessions[k].seen
    ensures Steady(t, k)
  {
    hide Slice, Pushed, Listed;
  }

  lemma SteadyBounds(s: State, k: nat)
    requires k in s.sessions && k in s.bus.chans && Steady(s, k)
    ensures s.sessions[k].base <= Pushed(s) <= |s.bus.log|
    ensures Reading(s.sessions[k]) ==> s.sessions[k].base <= s.sessions[k].seen
  {
    hide Slice;
  }

  lemma EvictCounts(s: State, id: int)
    requires Queued(s) && id in s.pubs && s.pubs[id].Evicting?
    ensures Pushed(DoEvict(s, id)) == Pushed(s) && Queued(DoEvict(s, id))
  {
    var p, n := Pushed(s), |s.bus.log|;
    assert forall j :: p < j <= n ==> j in s.pubs && s.pubs[j].Logged?;
    assert p > 0 ==> !(p in s.pubs && s.pubs[p].Logged?);
    hide Pushed;
    PushedIs(DoEvict(s, id), p);
  }

  lemma EvictShape(s: State, id: int, k: nat)
    requires k in s.bus.chans && id in s.pubs && s.pubs[id].Evicting?
    ensures var t := DoEvict(s, id);
            var c := s.bus.chans[k];
            && t.sessions == s.sessions && t.bus.log == s.bus.log && k in t.bus.chans
            && t.bus.chans[k].Accepted() == c.Accepted() && t.bus.chans[k].sub == c.sub
            && (t.bus.chans[k].open <==> c.open && !(s.bus.Current(k) && c.sub in s.pubs[id].ids))
            && t.pubs == s.pubs - {id}
  {
  }

  lemma OrderEvict(s: State, id: int)
    requires InOrder(s)
    ensures InOrder(DoEvict(s, id))
  {
    OrderFacts(s, 0);
    PublishStepsFollow(s, id);
    if id in s.pubs && s.pubs[id].Evicting? {
      EvictCounts(s, id);
      var t := DoEvict(s, id);
      assert t.bus.chans.Keys == s.bus.chans.Keys;
      hide InOrder, Sound, Queued, Pushed, Steady, DoEvict;
      forall k | k in t.bus.chans ensures k in t.sessions && Steady(t, k) {
        assert k in s.bus.chans.Keys;
        OrderFacts(s, k);
        EvictShape(s, id, k);
        SteadyBounds(s, k);
        if t.bus.chans[k].open && Listed(s, s.bus.chans[k].sub) {
          StillListed(s, t, id, s.bus.chans[k].sub);
        }
        SteadyCarries(s, t, k);
      }
      InOrderIntro(t);
    }
  }

  lemma StillListed(s: State, t: State, id: int, sub: Id)
    requires Listed(s, sub) && id in s.pubs && s.pubs[id].Evicting? && sub !in s.pubs[id].ids && t.pubs == s.pubs - {id}
    ensures Listed(t, sub)
  {
    var j :| j in s.pubs && s.pubs[j].Evicting? && sub in s.pubs[j].ids;
    assert t.pubs[j] == s.pubs[j];
  }

  /** Steps of sessions change no publication, and the log with it. */
  lemma SessionStepsCount(s: State, t: State)
    requires Queued(s) && t.pubs == s.pubs && t.bus.log == s.bus.log
    ensures Queued(t) && Pushed(t) == Pushed(s) && forall sub :: Listed(t, sub) <==> Listed(s, sub)
  {
    hide LastPushed;
  }

  lemma OrderRegister(s: State, k: nat)
    requires InOrder(s)
    ensures InOrder(DoRegister(s, k))
  {
    if Has(s, k, Opening) {
      OrderFacts(s, 0);
      RegisterFollows(s, k);
      var t := DoRegister(s, k);
      RegisterShape(s, k);
      SessionStepsCount(s, t);
      hide InOrder, Sound, Queued, Pushed, Steady, DoRegister, Listed;
      forall j | j in t.bus.chans ensures j in t.sessions && Steady(t, j) {
        if j == k {
          JustSteady(s, k);
        } else {
          OrderFacts(s, j);
          SteadyBounds(s, j);
          SteadyCarries(s, t, j);
        }
      }
      InOrderIntro(t);
    }
  }

  lemma RegisterShape(s: State, k: nat)
    requires Has(s, k, Opening)
    ensures var t := DoRegister(s, k);
            && t.pubs == s.pubs && t.bus.log == s.bus.log
            && forall j :: j in t.bus.chans && j != k ==>
                 && j in s.bus.chans && t.bus.chans[j].Accepted() == s.bus.chans[j].Accepted()
                 && t.bus.chans[j].sub == s.bus.chans[j].sub && (t.bus.chans[j].open ==> s.bus.chans[j].open)
                 && (j in s.sessions ==> j in t.sessions && t.sessions[j] == s.sessions[j])
  {
    hide Pushed;
  }

  lemma JustSteady(s: State, k: nat)
    requires Has(s, k, Opening)
    ensures k in DoRegister(s, k).sessions && k in DoRegister(s, k).bus.chans && Steady(DoRegister(s, k), k)
  {
    var t := DoRegister(s, k);
    assert t.sessions[k].base == Pushed(s) && Pushed(t) == Pushed(s) by { hide LastPushed; }
    EmptySlice(s.bus.log, Pushed(s), Pushed(s));
    hide Slice, Pushed, Listed;
  }

  lemma OrderUnregister(s: State, k: nat)
    requires InOrder(s)
    ensures InOrder(DoUnregister(s, k))
  {
    OrderFacts(s, 0);
    UnregisterFollows(s, k);
    if k in s.sessions && s.sessions[k].status.Leaving? {
      var t, sub := DoUnregister(s, k), s.sessions[k].sub;
      assert t.bus == Unregister(s.bus, sub) && t.pubs == s.pubs && t.bus.chans.Keys == s.bus.chans.Keys;
      assert t.sessions == s.sessions[k := s.sessions[k].(status := Gone)] && t.bus.log == s.bus.log;
      SessionStepsCount(s, t);
      hide InOrder, Sound, Queued, Pushed, Steady, DoUnregister, Listed, Unregister;
      forall j | j in t.bus.chans ensures j in t.sessions && Steady(t, j) {
        assert j in s.bus.chans.Keys;
        OrderFacts(s, j);
        SteadyBounds(s, j);
        UnregisterShuts(s.bus, sub, j);
        SteadyCarries(s, t, j);
      }
      InOrderIntro(t);
    }
  }

  lemma OrderDeliver(s: State, k: nat)
    requires InOrder(s)
    ensures InOrder(DoDeliver(s, k))
  {
    OrderFacts(s, 0);
    DeliverFollows(s, k);
    var t := DoDeliver(s, k);
    if t != s {
      DeliverShape(s, k);
      SessionStepsCount(s, t);
      hide InOrder, Sound, Queued, Pushed, Steady, DoDeliver, Listed;
      forall j | j in t.bus.chans ensures j in t.sessions && Steady(t, j) {
        OrderFacts(s, j);
        SteadyBounds(s, j);
        SteadyCarries(s, t, j);
      }
      InOrderIntro(t);
    }
  }

  lemma DeliverShape(s: State, k: nat)
    ensures var t := DoDeliver(s, k);
            && t.pubs == s.pubs && t.bus.log == s.bus.log
            && forall j :: j in t.bus.chans ==>
                 && j in s.bus.chans && t.bus.chans[j].Accepted() == s.bus.chans[j].Accepted()
                 && t.bus.chans[j].sub == s.bus.chans[j].sub && t.bus.chans[j].open == s.bus.chans[j].open
                 && (j in s.sessions ==>
                       && j in t.sessions && t.sessions[j].base == s.sessions[j].base
                       && t.sessions[j].phase == s.sessions[j].phase && t.sessions[j].seen == s.sessions[j].seen)
  {
    if Has(s, k, Live) && k in s.bus.chans && s.bus.chans[k].queue != [] {
      var c := s.bus.chans[k];
      assert (c.taken + [c.queue[0]]) + c.queue[1..] == c.taken + c.queue;
    }
  }

  lemma OrderRestart(s: State)
    requires InOrder(s)
    ensures InOrder(DoRestart(s))
  {
    OrderFacts(s, 0);
    RestartFollows(s);
    var t := DoRestart(s);
    PushedIs(t, |t.bus.log|);
    assert t.bus.chans.Keys == s.bus.chans.Keys;
    hide InOrder, Sound, Pushed, Slice, Listed;
    PushedBound(s);
    forall k | k in t.bus.chans ensures k in t.sessions && Steady(t, k) {
      assert k in s.bus.chans.Keys;
      OrderFacts(s, k);
    }
    InOrderIntro(t);
  }

  lemma OrderAside(s: State, step: Step)
    requires InOrder(s) && Aside(step)
    ensures InOrder(Next(s, step))
  {
    OrderFacts(s, 0);
    SoundNext(s, step);
    AsideKeepsBus(s, step);
    var t := Next(s, step);
    SessionStepsCount(s, t);
    hide InOrder, Sound, Queued, Pushed, Steady, Next, Listed;
    forall j | j in t.bus.chans ensures j in t.sessions && Steady(t, j) {
      OrderFacts(s, j);
      SteadyBounds(s, j);
      AsideKeeps(s, step, j);
      SteadyCarries(s, t, j);
    }
    InOrderIntro(t);
  }

  lemma OrderNext(s: State, step: Step)
    requires InOrder(s) && OrderedStep(s, step)
    ensures InOrder(Next(s, step))
  {
    hide InOrder, OrderedStep, DoAppend, DoPush, DoEvict, DoRegister, DoUnregister, DoDeliver, DoRestart;
    match step
    case AppendEvent(body) => OrderAppend(s, body);
    case PushEvent(id) => OrderPush(s, id);
    case EvictSlow(id) => OrderEvict(s, id);
    case RegisterSession(k) => OrderRegister(s, k);
    case Deliver(k) => OrderDeliver(s, k);
    case UnregisterSession(k) => OrderUnregister(s, k);
    case Restart => OrderRestart(s);
    case _ => OrderAside(s, step);
  }

  /**
   While events are pushed in the order of the log, every open channel whose subscriber is not
   listed for eviction has accepted everything pushed since its session registered.
   */
  lemma {:induction false} InOrderRun(s: State, steps: seq<Step>)
    requires InOrder(s) && Ordered(s, steps)
    ensures InOrder(Run(s, steps))
    decreases steps
  {
    if steps == [] {
    } else {
      OrderNext(s, steps[0]);
      hide InOrder, Next, OrderedStep;
      InOrderRun(Next(s, steps[0]), steps[1..]);
    }
  }

  lemma StartInOrder()
    ensures InOrder(START)
  {
  }

  /**
   Gap-free delivery with overlapping publications.  However appends and evictions overlap, as
   long as events are pushed in the order of the log, a registered session with an open channel
   and a subscriber that is not listed has no gap exactly if its backlog was at most a page.
   */
  lemma OrderedGapFree(steps: seq<Step>, k: nat)
    requires Ordered(START, steps) && k in Run(START, steps).bus.chans
    ensures var s := Run(START, steps);
            && k in s.sessions
            && (s.bus.chans[k].open && !Listed(s, s.sessions[k].sub) ==>
                  (GapFree(s, k) <==> SmallBacklog(s.sessions[k])))
  {
    StartInOrder();
    InOrderRun(START, steps);
    var s := Run(START, steps);
    OrderFacts(s, k);
    hide Run, InOrder, Ordered;
    if s.bus.chans[k].open && !Listed(s, s.sessions[k].sub) {
      SteadyTracked(s, k);
      assert forall id :: id in s.pubs && s.pubs[id].Logged? ==> id > Pushed(s);
      hide Queued, Sound, Steady;
      GapFreeInFull(s, k);
      Account(s, k, 0);
    }
  }

  lemma SteadyTracked(s: State, k: nat)
    requires Sound(s) && k in s.sessions && k in s.bus.chans && s.bus.chans[k].sub == s.sessions[k].sub && Steady(s, k)
    requires s.bus.chans[k].open && !Listed(s, s.sessions[k].sub)
    ensures Tracked(s, k) && s.sessions[k].base + |s.bus.chans[k].Accepted()| == Pushed(s)
  {
    PushedBound(s);
    hide Sound, Pushed, Listed;
  }

  // ---------------------------------------------------------------- one publication at a time is in order

  lemma OnePendingStays(s: State, step: Step)
    requires (forall id :: id in s.pubs ==> id == |s.bus.log|) && SerialStep(s, step)
    ensures forall id :: id in Next(s, step).pubs ==> id == |Next(s, step).bus.log|
  {
    hide Full, EventsAfter, StartAfter, Pushed, Offer;
    if Aside(step) {
      AsideKeepsBus(s, step);
    }
  }

  lemma {:induction false} SerialIsOrdered(s: State, steps: seq<Step>)
    requires (forall id :: id in s.pubs ==> id == |s.bus.log|) && Serial(s, steps)
    ensures Ordered(s, steps)
    decreases steps
  {
    if steps == [] {
    } else {
      OnePendingStays(s, steps[0]);
      SerialIsOrdered(Next(s, steps[0]), steps[1..]);
    }
  }
}
