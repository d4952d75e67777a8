/**
 The pushing loop of a publication, one channel at a time.  It runs under the read lock, so
 other pushing loops and any receive may fall between two of its sends, but nothing that
 changes the map of subscribers.  Each channel sees such a tangle of loops as whole pushes,
 one after another.
 */
module PushLoops {
  import opened Domain
  import opened EventLog
  import opened BusModel

  datatype ChannelStep = OfferTo(h: nat, e: Event) | PushToAll(e: Event) | ReceiveFrom(h: nat)

  function Advance(b: Bus, step: ChannelStep): Bus {
    match step
    case OfferTo(h, e) =>
      if h in b.chans && b.Current(h) then b.(chans := b.chans[h := Offered(b.chans[h], e)]) else b
    case PushToAll(e) => Push(b, e)
    case ReceiveFrom(h) => Take(b, h)
  }

  function AdvanceAll(b: Bus, steps: seq<ChannelStep>): Bus
    decreases steps
  {
    if steps == [] then b else AdvanceAll(Advance(b, steps[0]), steps[1..])
  }

  /** The events that found the channel full when they were offered to it; its subscriber is listed for eviction. */
  function Refused(b: Bus, steps: seq<ChannelStep>, h: nat): seq<Event>
    decreases steps
  {
    if steps == [] then []
    else
      var refused :=
        if Offers(steps[0], h) && h in b.chans && b.Current(h) && |b.chans[h].queue| >= BUFFER_SIZE then [steps[0].e]
        else [];
      refused + Refused(Advance(b, steps[0]), steps[1..], h)
  }

  predicate Offers(step: ChannelStep, h: nat) { step.PushToAll? || (step.OfferTo? && step.h == h) }

  /** Each loop takes place as a whole when it reaches this channel. */
  function SeenFrom(steps: seq<ChannelStep>, h: nat): seq<ChannelStep>
    decreases steps
  {
    if steps == [] then []
    else
      var rest := SeenFrom(steps[1..], h);
      if !steps[0].OfferTo? then [steps[0]] + rest
      else if steps[0].h == h then [PushToAll(steps[0].e)] + rest
      else rest
  }

  /** A channel's next content, and whether it is current, depend on that channel and the map alone. */
  lemma OneStepSeen(b: Bus, c: Bus, step: ChannelStep, h: nat)
    requires h in b.chans && h in c.chans && b.chans[h] == c.chans[h] && b.subs == c.subs
    ensures var seen := if step.OfferTo? && step.h == h then PushToAll(step.e) else step;
            && h in Advance(b, step).chans && Advance(b, step).subs == b.subs
            && h in Advance(c, seen).chans && Advance(c, seen).subs == c.subs
            && Advance(b, step).chans[h] == Advance(c, seen).chans[h]
            && (step.OfferTo? && step.h != h ==> Advance(b, step).chans[h] == b.chans[h])
  {
  }

  /**
   However the loops of several publications and the receives interleave, what a channel
   accepts, what is taken from it and which events it refuses are those of whole pushes.
   */
  lemma {:induction false} LoopsAreWholePushes(b: Bus, c: Bus, steps: seq<ChannelStep>, h: nat)
    requires h in b.chans && h in c.chans && b.chans[h] == c.chans[h] && b.subs == c.subs
    ensures var r, t := AdvanceAll(b, steps), AdvanceAll(c, SeenFrom(steps, h));
            && h in r.chans && h in t.chans && r.chans[h] == t.chans[h] && r.subs == b.subs && t.subs == c.subs
            && Refused(b, steps, h) == Refused(c, SeenFrom(steps, h), h)
    decreases steps
  {
    if steps == [] {
    } else {
      var rest := SeenFrom(steps[1..], h);
      OneStepSeen(b, c, steps[0], h);
      hide Advance;
      if steps[0].OfferTo? && steps[0].h != h {
        LoopsAreWholePushes(Advance(b, steps[0]), c, steps[1..], h);
      } else {
        var seen := if steps[0].OfferTo? then PushToAll(steps[0].e) else steps[0];
        assert SeenFrom(steps, h) == [seen] + rest && ([seen] + rest)[1..] == rest;
        LoopsAreWholePushes(Advance(b, steps[0]), Advance(c, seen), steps[1..], h);
      }
    }
  }

  /** A whole push lists for eviction exactly the subscribers whose current channel refuses it. */
  lemma RefusedIsListed(b: Bus, e: Event, h: nat)
    requires h in b.chans && b.Current(h)
    ensures Refused(b, [PushToAll(e)], h) == if b.chans[h].sub in Full(b) then [e] else []
  {
    hide Advance;
    assert Refused(Advance(b, PushToAll(e)), [PushToAll(e)][1..], h) == [];
  }

  /** The sends of one loop, in the order it visits the channels. */
  function Loop(order: seq<nat>, e: Event): seq<ChannelStep> {
    seq(|order|, i requires 0 <= i < |order| => OfferTo(order[i], e))
  }

  /** One loop over the mapped channels, in any order and interrupted by nothing, is a whole push. */
  lemma LoneLoopIsPush(b: Bus, order: seq<nat>, e: Event)
    requires forall i, j :: 0 <= i < j < |order| ==> order[i] != order[j]
    requires forall h :: h in order <==> h in b.chans && b.Current(h)
    ensures AdvanceAll(b, Loop(order, e)) == Push(b, e)
  {
    LoopOffersEach(b, order, e);
  }

  lemma {:induction false} LoopOffersEach(b: Bus, order: seq<nat>, e: Event)
    requires forall i, j :: 0 <= i < j < |order| ==> order[i] != order[j]
    requires forall h :: h in order ==> h in b.chans && b.Current(h)
    ensures AdvanceAll(b, Loop(order, e)) ==
            b.(chans := map h | h in b.chans :: if h in order then Offered(b.chans[h], e) else b.chans[h])
    decreases order
  {
    if order == [] {
    } else {
      var c := Advance(b, OfferTo(order[0], e));
      assert Loop(order, e)[1..] == Loop(order[1..], e);
      assert forall h :: h in order <==> h == order[0] || h in order[1..];
      assert order[0] !in order[1..];
      LoopOffersEach(c, order[1..], e);
    }
  }
}
