/**
 One streaming session as the handler sees it: replay a page of the log, then send every
 received event that is newer than the last live one, then save the checkpoint when the
 client leaves.  Which events arrive, and what ends the session, is decided elsewhere.
 */
module Subscription {
  import opened Domain
  import opened EventLog
  import EventBus

  const REPLAY_LIMIT := 500

  /** Where the live part of a session stands. */
  datatype Cursor = Cursor(lastSent: int, sent: seq<Event>)

  function Offer(c: Cursor, e: Event): Cursor {
    if e.id > c.lastSent then Cursor(e.id, c.sent + [e]) else c
  }

  function Follow(c: Cursor, events: seq<Event>): Cursor
    decreases events
  {
    if events == [] then c else Follow(Offer(c, events[0]), events[1..])
  }

  /** A parsable Last-Event-ID header may only move the starting point forward. */
  function StartAfter(checkpoint: int, header: Option<int>): int {
    if header.Some? && header.value > checkpoint then header.value else checkpoint
  }

  /** One outcome of the handler's select. */
  datatype Signal = Received(event: Event) | Evicted | ClientGone

  /** The events received before the first signal that ends the session. */
  function Arrivals(signals: seq<Signal>): seq<Event> {
    if signals == [] || !signals[0].Received? then [] else [signals[0].event] + Arrivals(signals[1..])
  }

  function Ending(signals: seq<Signal>): Option<Signal> {
    if signals == [] then None
    else if signals[0].Received? then Ending(signals[1..]) else Some(signals[0])
  }

  datatype Outcome = Outcome(replayed: seq<Event>, live: seq<Event>, saved: Option<int>, evicted: bool)

  /**
   What a session sends and saves.  A session cancelled during the replay sends part of the page
   and saves nothing; only a live one whose client goes away saves a checkpoint.
   */
  function SessionOutcome(rows: seq<string>, start: int, cancelAt: Option<nat>, signals: seq<Signal>): Outcome {
    var page := EventsAfter(rows, start, REPLAY_LIMIT);
    if cancelAt.Some? && cancelAt.value < |page| then Outcome(page[..cancelAt.value], [], None, false)
    else
      var end := Follow(Cursor(start, []), Arrivals(signals));
      var last := Ending(signals);
      Outcome(page, end.sent, if last.Some? && last.value.ClientGone? then Some(end.lastSent) else None,
              last.Some? && last.value.Evicted?)
  }

  function AllReceived(events: seq<Event>): seq<Signal> {
    seq(|events|, i requires 0 <= i < |events| => Received(events[i]))
  }

  /** The select yields these events and then, if anything more, one signal that ends the session. */
  lemma {:induction false} ReceivedThen(events: seq<Event>, last: seq<Signal>)
    requires |last| <= 1 && forall signal :: signal in last ==> !signal.Received?
    ensures Arrivals(AllReceived(events) + last) == events
    ensures Ending(AllReceived(events) + last) == if last == [] then None else Some(last[0])
    decreases events
  {
    var signals := AllReceived(events) + last;
    if events == [] {
      assert signals == last;
    } else {
      ReceivedThen(events[1..], last);
      assert signals[1..] == AllReceived(events[1..]) + last;
      assert events == [events[0]] + events[1..];
    }
  }

  lemma FollowSnoc(c: Cursor, events: seq<Event>, e: Event)
    ensures Follow(c, events + [e]) == Offer(Follow(c, events), e)
    decreases events
  {
    if events == [] {
      assert Follow(Offer(c, e), []) == Offer(c, e);
      assert ([] + [e])[1..] == [];
    } else {
      assert (events + [e])[1..] == events[1..] + [e];
      FollowSnoc(Offer(c, events[0]), events[1..], e);
    }
  }

  lemma ArrivalsStep(signals: seq<Signal>, n: nat)
    requires n < |signals| && (forall i :: 0 <= i < n ==> signals[i].Received?)
    ensures signals[n].Received? ==> Arrivals(signals[..n + 1]) == Arrivals(signals[..n]) + [signals[n].event]
    ensures !signals[n].Received? ==> Arrivals(signals) == Arrivals(signals[..n]) && Ending(signals) == Some(signals[n])
  {
    if n > 0 {
      ArrivalsStep(signals[1..], n - 1);
      assert signals[..n + 1][1..] == signals[1..][..n];
      assert signals[..n][1..] == signals[1..][..n - 1];
    }
  }

  lemma NoEnding(signals: seq<Signal>)
    requires forall i :: 0 <= i < |signals| ==> signals[i].Received?
    ensures Ending(signals) == None
  {
    if signals != [] {
      NoEnding(signals[1..]);
    }
  }

  lemma NothingYet(start: int, signals: seq<Signal>)
    ensures Follow(Cursor(start, []), Arrivals(signals[..0])) == Cursor(start, [])
  {
  }

  lemma CutReplay(rows: seq<string>, start: int, i: nat, signals: seq<Signal>)
    requires i < |EventsAfter(rows, start, REPLAY_LIMIT)|
    ensures SessionOutcome(rows, start, Some(i), signals) ==
            Outcome(EventsAfter(rows, start, REPLAY_LIMIT)[..i], [], None, false)
  {
  }

  /** A session that replays its whole page is decided by the first signal that is not an arrival, if there is one. */
  lemma WholeSession(rows: seq<string>, start: int, cancelAt: Option<nat>, signals: seq<Signal>, n: nat)
    requires cancelAt.Some? ==> |EventsAfter(rows, start, REPLAY_LIMIT)| <= cancelAt.value
    requires n <= |signals| && (forall i :: 0 <= i < n ==> signals[i].Received?)
    requires n < |signals| ==> !signals[n].Received?
    ensures var c := Follow(Cursor(start, []), Arrivals(signals[..n]));
            SessionOutcome(rows, start, cancelAt, signals) ==
            Outcome(EventsAfter(rows, start, REPLAY_LIMIT), c.sent,
                    if n < |signals| && signals[n].ClientGone? then Some(c.lastSent) else None,
                    n < |signals| && signals[n].Evicted?)
  {
    hide EventsAfter, Follow, Arrivals;
    if n < |signals| {
      ArrivalsStep(signals, n);
    } else {
      NoEnding(signals);
      assert signals[..n] == signals;
    }
  }

  /** The stored checkpoint of every subscriber. */
  class SubscriberRepo {
    var checkpoints: map<Id, int>

    constructor ()
      ensures checkpoints == map[]
    {
      checkpoints := map[];
    }

    method Get(id: Id) returns (checkpoint: Option<int>)
      ensures checkpoint == if id in checkpoints then Some(checkpoints[id]) else None
    {
      checkpoint := if id in checkpoints then Some(checkpoints[id]) else None;
    }

    method Save(id: Id, checkpoint: int)
      modifies this
      ensures checkpoints == old(checkpoints)[id := checkpoint]
    {
      checkpoints := checkpoints[id := checkpoint];
    }

    /** Updates a row that exists; a cancelled context may keep the statement from running at all. */
    method UpdateCheckpoint(id: Id, checkpoint: int, runs: bool)
      modifies this
      ensures checkpoints ==
              if runs && id in old(checkpoints) then old(checkpoints)[id := checkpoint] else old(checkpoints)
    {
      if runs && id in checkpoints {
        checkpoints := checkpoints[id := checkpoint];
      }
    }
  }

  /** A known subscriber keeps its checkpoint, whatever the request says; one without a name is given one. */
  method EnsureSubscriber(subs: SubscriberRepo, id: Id, lastEventId: int, generated: Id) returns (known: Id)
    modifies subs
    ensures known == if id in old(subs.checkpoints) || id.text != "" then id else generated
    ensures subs.checkpoints ==
              if id in old(subs.checkpoints) then old(subs.checkpoints) else old(subs.checkpoints)[known := lastEventId]
  {
    var found := subs.Get(id);
    if found.Some? {
      return id;
    }
    known := id;
    if known.text == "" {
      known := generated;
    }
    subs.Save(known, lastEventId);
  }

  /**
   What the client of a session gets, told by the checkpoint and the id in its header: the
   events that follow the later of the two, at most 500 of them and no more than were sent
   before it was cancelled; then, unless it was, each arrival newer than that and than all
   arrivals before it.  Only a client that goes away leaves a checkpoint, the newest id of all.
   */
  ghost predicate Streams(rows: seq<string>, checkpoint: int, header: Option<int>, cancelAt: Option<nat>,
                          signals: seq<Signal>, out: Outcome)
  {
    var from := if header.Some? then Max(checkpoint, header.value) else checkpoint;
    var first := Max(from, 0);
    var due := Max(0, Min(|rows| - first, 500));
    var whole := cancelAt.None? || cancelAt.value >= due;
    && |out.replayed| == (if whole then due else cancelAt.value)
    && (forall j :: 0 <= j < |out.replayed| ==> out.replayed[j] == Event(first + 1 + j, rows[first + j]))
    && Ascending(out.live)
    && (forall e :: e in out.live ==> e in Arrivals(signals))
    && (forall id :: HasId(out.live, id) <==> whole && NewestTaken(from, Arrivals(signals), id))
    && (out.evicted <==> whole && Ending(signals) == Some(Evicted))
    && (out.saved.Some? <==> whole && Ending(signals) == Some(ClientGone))
    && (out.saved.Some? ==>
          && from <= out.saved.value && (forall e :: e in Arrivals(signals) ==> e.id <= out.saved.value)
          && (out.saved.value == from || HasId(Arrivals(signals), out.saved.value)))
  }

  lemma NoIds()
    ensures forall id :: !HasId([], id)
  {
  }

  lemma PageMeans(rows: seq<string>, from: int)
    ensures var page, first := EventsAfter(rows, from, REPLAY_LIMIT), Max(from, 0);
            && |page| == Max(0, Min(|rows| - first, 500))
            && forall j :: 0 <= j < |page| ==> page[j] == Event(first + 1 + j, rows[first + j])
  {
  }

  lemma LiveMeans(from: int, arrivals: seq<Event>)
    ensures var end := Follow(Cursor(from, []), arrivals);
            && Ascending(end.sent) && (forall e :: e in end.sent ==> e in arrivals)
            && (forall id :: HasId(end.sent, id) <==> NewestTaken(from, arrivals, id))
            && from <= end.lastSent && (forall e :: e in arrivals ==> e.id <= end.lastSent)
            && (end.lastSent == from || HasId(arrivals, end.lastSent))
  {
    FollowClimbs(Cursor(from, []), arrivals);
    FollowReachesMaximum(Cursor(from, []), arrivals);
    hide Follow, HasId, NewestTaken;
    forall id ensures HasId(Follow(Cursor(from, []), arrivals).sent, id) <==> NewestTaken(from, arrivals, id) {
      FollowSendsNewest(from, arrivals, id);
    }
  }

  lemma OutcomeStreams(rows: seq<string>, checkpoint: int, header: Option<int>, cancelAt: Option<nat>,
                       signals: seq<Signal>)
    ensures Streams(rows, checkpoint, header, cancelAt, signals,
                    SessionOutcome(rows, StartAfter(checkpoint, header), cancelAt, signals))
  {
    hide EventsAfter, Follow, Arrivals, Ending, HasId, NewestTaken;
    PageMeans(rows, StartAfter(checkpoint, header));
    LiveMeans(StartAfter(checkpoint, header), Arrivals(signals));
    NoIds();
  }

  /**
   The whole session of a known subscriber.  `cancelAt` says before which replayed event the
   request context is seen cancelled, if it is; `signals` is what the select yields, for as
   long as observed; `written` says whether the final checkpoint statement, issued under the
   cancelled context, still runs.
   */
  method HandleSSE(bus: EventBus.EventBus, subs: SubscriberRepo, id: Id, header: Option<int>, cancelAt: Option<nat>,
                   signals: seq<Signal>, written: bool)
    returns (out: Option<Outcome>)
    modifies subs
    ensures id !in old(subs.checkpoints) ==> out == None && subs.checkpoints == old(subs.checkpoints)
    ensures id in old(subs.checkpoints) ==>
              var o := SessionOutcome(bus.repo.rows, StartAfter(old(subs.checkpoints)[id], header), cancelAt, signals);
              && out == Some(o)
              && subs.checkpoints ==
                   if o.saved.Some? && written then old(subs.checkpoints)[id := o.saved.value]
                   else old(subs.checkpoints)
    ensures id in old(subs.checkpoints) ==>
              Streams(bus.repo.rows, old(subs.checkpoints)[id], header, cancelAt, signals, out.value)
  {
    hide EventsAfter, SessionOutcome, Streams;
    var found := subs.Get(id);
    if found.None? {
      return None;
    }
    OutcomeStreams(bus.repo.rows, found.value, header, cancelAt, signals);
    var afterId := found.value;
    if header.Some? && header.value > afterId {
      afterId := header.value;
    }
    var page := bus.ReplayAfter(afterId, REPLAY_LIMIT);
    var replayed: seq<Event> := [];
    var i := 0;
    while i < |page|
      invariant 0 <= i <= |page| && replayed == page[..i]
      invariant cancelAt.Some? ==> i <= cancelAt.value || |page| <= cancelAt.value
    {
      if cancelAt == Some(i) {
        CutReplay(bus.repo.rows, afterId, i, signals);
        return Some(Outcome(replayed, [], None, false));
      }
      replayed := replayed + [page[i]];
      i := i + 1;
    }
    assert replayed == page && !(cancelAt.Some? && cancelAt.value < |page|);
    hide Follow, Arrivals;
    NothingYet(afterId, signals);
    var lastSent := afterId;
    var live: seq<Event> := [];
    var n := 0;
    while n < |signals|
      invariant 0 <= n <= |signals| && (forall k :: 0 <= k < n ==> signals[k].Received?)
      invariant Cursor(lastSent, live) == Follow(Cursor(afterId, []), Arrivals(signals[..n]))
      invariant subs.checkpoints == old(subs.checkpoints)
    {
      match signals[n]
      case ClientGone =>
        WholeSession(bus.repo.rows, afterId, cancelAt, signals, n);
        subs.UpdateCheckpoint(id, lastSent, written);
        return Some(Outcome(replayed, live, Some(lastSent), false));
      case Evicted =>
        WholeSession(bus.repo.rows, afterId, cancelAt, signals, n);
        return Some(Outcome(replayed, live, None, true));
      case Received(event) =>
        ArrivalsStep(signals, n);
        FollowSnoc(Cursor(afterId, []), Arrivals(signals[..n]), event);
        if event.id > lastSent {
          live := live + [event];
          lastSent := event.id;
        }
        n := n + 1;
    }
    WholeSession(bus.repo.rows, afterId, cancelAt, signals, n);
    out := Some(Outcome(replayed, live, None, false));
  }

  /** Live sends climb strictly and come only from what arrived, however the publishers behave. */
  lemma {:induction false} FollowClimbs(c: Cursor, events: seq<Event>)
    requires Ascending(c.sent) && forall e :: e in c.sent ==> e.id <= c.lastSent
    ensures var r := Follow(c, events);
            && Ascending(r.sent) && c.sent <= r.sent && c.lastSent <= r.lastSent
            && (forall e :: e in r.sent ==> e.id <= r.lastSent)
            && (forall i :: |c.sent| <= i < |r.sent| ==> r.sent[i] in events && r.sent[i].id > c.lastSent)
    decreases events
  {
    if events == [] {
    } else {
      FollowClimbs(Offer(c, events[0]), events[1..]);
    }
  }

  /** The saved checkpoint is the largest id among the starting point and everything that arrived. */
  lemma {:induction false} FollowReachesMaximum(c: Cursor, events: seq<Event>)
    ensures var last := Follow(c, events).lastSent;
            && c.lastSent <= last && (forall e :: e in events ==> e.id <= last)
            && (last == c.lastSent || HasId(events, last))
    decreases events
  {
    if events == [] {
    } else {
      FollowReachesMaximum(Offer(c, events[0]), events[1..]);
      var last := Follow(c, events).lastSent;
      if HasId(events[1..], last) {
        var i :| 0 <= i < |events[1..]| && events[1..][i].id == last;
        assert events[i + 1].id == last;
      } else {
        assert last == c.lastSent || events[0].id == last;
      }
    }
  }

  /** An arriving event is left out exactly when its id does not exceed the start and all earlier arrivals. */
  lemma {:induction false} SentIffNewest(c: Cursor, events: seq<Event>, e: Event)
    ensures var before := Follow(c, events);
            var after := Follow(c, events + [e]);
            if c.lastSent < e.id && (forall f :: f in events ==> f.id < e.id)
            then after.sent == before.sent + [e] else after.sent == before.sent
  {
    FollowSnoc(c, events, e);
    FollowReachesMaximum(c, events);
    var last := Follow(c, events).lastSent;
    if HasId(events, last) {
      var i :| 0 <= i < |events| && events[i].id == last;
      assert events[i] in events;
    }
  }

  /** The event was the newest of all when it was taken from the queue. */
  ghost predicate NewestTaken(start: int, taken: seq<Event>, id: int) {
    exists i :: 0 <= i < |taken| && taken[i].id == id && start < id && forall j :: 0 <= j < i ==> taken[j].id < id
  }

  lemma NewestSnoc(start: int, init: seq<Event>, e: Event, id: int)
    ensures NewestTaken(start, init + [e], id) <==>
            NewestTaken(start, init, id) || (e.id == id && start < id && forall f :: f in init ==> f.id < id)
  {
    var taken, n := init + [e], |init|;
    if NewestTaken(start, init, id) {
      var i :| 0 <= i < n && init[i].id == id && start < id && forall j :: 0 <= j < i ==> init[j].id < id;
      assert taken[i].id == id && forall j :: 0 <= j < i ==> taken[j] == init[j];
    }
    if e.id == id && start < id && forall f :: f in init ==> f.id < id {
      assert taken[n].id == id && forall j :: 0 <= j < n ==> taken[j] in init;
    }
    if NewestTaken(start, taken, id) {
      var i :| 0 <= i < |taken| && taken[i].id == id && start < id && forall j :: 0 <= j < i ==> taken[j].id < id;
      if i < n {
        assert init[i].id == id && forall j :: 0 <= j < i ==> init[j] == taken[j];
      } else {
        forall f | f in init ensures f.id < id {
          var j :| 0 <= j < n && init[j] == f;
          assert taken[j] == f;
        }
      }
    }
  }

  lemma {:induction false} FollowSendsNewest(start: int, taken: seq<Event>, id: int)
    ensures HasId(Follow(Cursor(start, []), taken).sent, id) <==> NewestTaken(start, taken, id)
    decreases taken
  {
    if taken == [] {
    } else {
      var n := |taken| - 1;
      var init, e := taken[..n], taken[n];
      assert taken == init + [e];
      assert HasId([e], id) <==> e.id == id by {
        assert [e][0] == e;
      }
      hide Follow, HasId, NewestTaken;
      FollowSendsNewest(start, init, id);
      SentIffNewest(Cursor(start, []), init, e);
      HasIdConcat(Follow(Cursor(start, []), init).sent, [e], id);
      NewestSnoc(start, init, e, id);
    }
  }

  function CountId(events: seq<Event>, id: int): nat {
    if events == [] then 0 else (if events[0].id == id then 1 else 0) + CountId(events[1..], id)
  }

  lemma {:induction false} CountConcat(a: seq<Event>, b: seq<Event>, id: int)
    ensures CountId(a + b, id) == CountId(a, id) + CountId(b, id)
  {
    if a == [] {
      assert a + b == b;
    } else {
      assert (a + b)[1..] == a[1..] + b;
      CountConcat(a[1..], b, id);
    }
  }

  lemma {:induction false} CountAscending(events: seq<Event>, id: int)
    requires Ascending(events)
    ensures CountId(events, id) == if HasId(events, id) then 1 else 0
  {
    if events == [] {
    } else {
      CountAscending(events[1..], id);
      assert events == [events[0]] + events[1..];
      HasIdConcat([events[0]], events[1..], id);
      assert HasId([events[0]], id) <==> events[0].id == id by {
        assert [events[0]][0] == events[0];
      }
      if HasId(events[1..], id) {
        var i :| 0 <= i < |events[1..]| && events[1..][i].id == id;
        assert events[0].id < events[i + 1].id;
      }
    }
  }

  /** A client sees an event at most twice, and twice only if it was both replayed and received afterwards. */
  lemma AtMostTwice(log: seq<string>, start: int, events: seq<Event>, id: int)
    ensures var page := EventsAfter(log, start, REPLAY_LIMIT);
            var live := Follow(Cursor(start, []), events).sent;
            && CountId(page + live, id) <= 2
            && (CountId(page + live, id) == 2 <==> HasId(page, id) && HasId(live, id))
            && (HasId(live, id) ==> HasId(events, id))
  {
    var page := EventsAfter(log, start, REPLAY_LIMIT);
    var live := Follow(Cursor(start, []), events).sent;
    EventsAfterMeaning(log, start, REPLAY_LIMIT, id);
    FollowClimbs(Cursor(start, []), events);
    CountConcat(page, live, id);
    CountAscending(page, id);
    CountAscending(live, id);
    if HasId(live, id) {
      var i :| 0 <= i < |live| && live[i].id == id;
      assert live[i] in events;
      var j :| 0 <= j < |events| && events[j] == live[i];
      assert events[j].id == id;
    }
  }
}
