/**
 What a session may rely on while publications do not overlap: its channel is fed an unbroken
 stretch of the log, so it has no gap unless its backlog exceeded one replay page.
 */
module DeliveryGuarantees {
  import opened Domain
  import opened EventLog
  import opened Subscription
  import opened BusModel
  import opened Delivery
  import opened Frames

  // ---------------------------------------------------------------- publications one at a time

  predicate SerialStep(s: State, step: Step) { step.AppendEvent? ==> s.pubs == map[] }

  predicate Serial(s: State, steps: seq<Step>)
    decreases steps
  {
    steps == [] || (SerialStep(s, steps[0]) && Serial(Next(s, steps[0]), steps[1..]))
  }

  /** The publication in progress is about to evict this subscriber. */
  ghost predicate Doomed(s: State, sub: Id) {
    |s.bus.log| in s.pubs && s.pubs[|s.bus.log|].Evicting? && sub in s.pubs[|s.bus.log|].ids
  }

  /** A channel accepted an unbroken stretch of the log, and its session read its page after registering. */
  ghost predicate Contiguous(s: State, k: nat)
    requires k in s.sessions && k in s.bus.chans
  {
    var x, c := s.sessions[k], s.bus.chans[k];
    var upto := x.base + |c.Accepted()|;
    && c.Accepted() == Slice(s.bus.log, x.base, upto)
    && upto <= Pushed(s)
    && (Reading(x) ==> x.base <= x.seen)
  }

  /** And it reaches the last pushed event while the channel is open. */
  ghost predicate Fed(s: State, k: nat)
    requires k in s.sessions && k in s.bus.chans
  {
    var x, c := s.sessions[k], s.bus.chans[k];
    && Contiguous(s, k)
    && (c.open ==> x.base + |c.Accepted()| == Pushed(s) || Doomed(s, c.sub))
  }

  /** With one publication at a time, at most the last event waits to be pushed. */
  lemma PushedInStep(s: State)
    requires forall id :: id in s.pubs ==> id == |s.bus.log|
    ensures Pushed(s) ==
            if |s.bus.log| in s.pubs && s.pubs[|s.bus.log|].Logged? then Max(|s.bus.log| - 1, 0) else |s.bus.log|
  {
    var n := |s.bus.log|;
    assert n > 0 && Pushed(s) < n ==> n in s.pubs && s.pubs[n].Logged?;
    assert Pushed(s) < n - 1 ==> n - 1 in s.pubs;
  }

  ghost predicate InStep(s: State) {
    && Sound(s)
    && (forall id :: id in s.pubs ==> id == |s.bus.log| && id >= 1)
    && (forall k :: k in s.bus.chans ==> Fed(s, k))
  }

  /** What being in step says about one channel. */
  lemma ChannelFacts(s: State, k: nat)
    requires InStep(s) && k in s.bus.chans
    ensures k in s.sessions && s.bus.chans[k].sub == s.sessions[k].sub && (s.bus.chans[k].open <==> s.bus.Current(k))
    ensures !s.sessions[k].phase.Opening? && SessionFollows(s, k) && Fed(s, k)
  {
  }

  /** What being in step says about the publication in progress. */
  lemma PublicationFacts(s: State)
    requires InStep(s)
    ensures Sound(s) && WellFormed(s.bus) && forall id :: id in s.pubs ==> id == |s.bus.log| && id >= 1
  {
  }

  lemma InStepIntro(s: State)
    requires Sound(s) && (forall id :: id in s.pubs ==> id == |s.bus.log| && id >= 1)
    requires forall k :: k in s.bus.chans ==> k in s.sessions && Fed(s, k)
    ensures InStep(s)
  {
  }

  lemma InStepAppend(s: State, body: string)
    requires InStep(s) && s.pubs == map[]
    ensures InStep(DoAppend(s, body))
  {
    hide InStep, Sound, Slice, WellFormed, SessionFollows;
    PublicationFacts(s);
    AppendFollows(s, body);
    var t := DoAppend(s, body);
    PushedInStep(s);
    PushedInStep(t);
    forall k | k in t.bus.chans ensures k in t.sessions && Fed(t, k) {
      ChannelFacts(s, k);
      SliceAppend(s.bus.log, body, s.sessions[k].base, s.sessions[k].base + |s.bus.chans[k].Accepted()|);
    }
    InStepIntro(t);
  }

  lemma FedPush(s: State, id: int, k: nat)
    requires InStep(s) && id in s.pubs && s.pubs[id].Logged? && 1 <= id <= |s.bus.log| && k in s.bus.chans
    ensures var t := DoPush(s, id); k in t.sessions && k in t.bus.chans && Fed(t, k)
  {
    hide InStep, Sound, Slice, WellFormed, SessionFollows;
    PublicationFacts(s);
    ChannelFacts(s, k);
    var t := DoPush(s, id);
    PushedInStep(s);
    PushedInStep(t);
    var x, c, d := s.sessions[k], s.bus.chans[k], t.bus.chans[k];
    if s.bus.Current(k) {
      assert c.sub in Full(s.bus) <==> |c.queue| >= BUFFER_SIZE;
      if |c.queue| < BUFFER_SIZE {
        assert d.Accepted() == c.Accepted() + [Event(id, s.bus.log[id - 1])];
        SliceExtend(s.bus.log, x.base, x.base + |c.Accepted()|);
      }
    }
  }

  lemma InStepPush(s: State, id: int)
    requires InStep(s)
    ensures InStep(DoPush(s, id))
  {
    hide InStep, Sound, WellFormed, Full, Offered;
    if id in s.pubs && s.pubs[id].Logged? && 1 <= id <= |s.bus.log| {
      PublicationFacts(s);
      PublishStepsFollow(s, id);
      var t := DoPush(s, id);
      forall k | k in t.bus.chans ensures k in t.sessions && Fed(t, k) {
        FedPush(s, id, k);
      }
      InStepIntro(t);
    }
  }

  lemma InStepEvict(s: State, id: int)
    requires InStep(s)
    ensures InStep(DoEvict(s, id))
  {
    hide InStep, Sound, Slice, WellFormed, SessionFollows;
    if id in s.pubs && s.pubs[id].Evicting? {
      PublicationFacts(s);
      PublishStepsFollow(s, id);
      var t := DoEvict(s, id);
      forall k | k in t.bus.chans ensures k in t.sessions && Fed(t, k) {
        ChannelFacts(s, k);
        assert t.bus.chans[k].Accepted() == s.bus.chans[k].Accepted();
      }
      InStepIntro(t);
    }
  }

  /** A step that neither logs, pushes nor evicts keeps a channel fed unless it opens or shortens it. */
  lemma FedCarries(s: State, t: State, k: nat)
    requires k in s.sessions && k in s.bus.chans && Fed(s, k) && k in t.sessions && k in t.bus.chans
    requires t.bus.log == s.bus.log && t.pubs == s.pubs && t.sessions[k].base == s.sessions[k].base
    requires t.bus.chans[k].Accepted() == s.bus.chans[k].Accepted() && t.bus.chans[k].sub == s.bus.chans[k].sub
    requires t.bus.chans[k].open ==> s.bus.chans[k].open
    requires Reading(t.sessions[k]) ==> t.sessions[k].base <= t.sessions[k].seen
    ensures Fed(t, k)
  {
    hide Slice;
  }

  lemma InStepRegister(s: State, k: nat)
    requires InStep(s)
    ensures InStep(DoRegister(s, k))
  {
    hide InStep, Sound, Slice, WellFormed, SessionFollows, Fed;
    if Has(s, k, Opening) {
      PublicationFacts(s);
      RegisterFollows(s, k);
      var t := DoRegister(s, k);
      forall j | j in t.bus.chans ensures j in t.sessions && Fed(t, j) {
        if j != k {
          ChannelFacts(s, j);
          FedBounds(s, j);
          FedCarries(s, t, j);
        } else {
          JustRegistered(s, k);
        }
      }
      InStepIntro(t);
    }
  }

  lemma FedBounds(s: State, k: nat)
    requires k in s.sessions && k in s.bus.chans && Fed(s, k)
    ensures s.sessions[k].base <= |s.bus.log|
    ensures Reading(s.sessions[k]) ==> s.sessions[k].base <= s.sessions[k].seen
  {
    hide Slice;
  }

  lemma JustRegistered(s: State, k: nat)
    requires Has(s, k, Opening)
    ensures Fed(DoRegister(s, k), k)
  {
    EmptySlice(s.bus.log, Pushed(s), Pushed(s));
  }

  lemma UnregisterShuts(b: Bus, sub: Id, h: nat)
    requires h in b.chans
    ensures var t := Unregister(b, sub);
            && h in t.chans && t.chans[h].Accepted() == b.chans[h].Accepted() && t.chans[h].sub == b.chans[h].sub
            && (t.chans[h].open ==> b.chans[h].open) && t.log == b.log
  {
  }

  lemma InStepUnregister(s: State, k: nat)
    requires InStep(s)
    ensures InStep(DoUnregister(s, k))
  {
    hide InStep, Sound, Slice, WellFormed, SessionFollows, Fed;
    PublicationFacts(s);
    UnregisterFollows(s, k);
    var t := DoUnregister(s, k);
    if t != s {
      assert t.bus.chans.Keys == s.bus.chans.Keys;
      forall j | j in t.bus.chans ensures j in t.sessions && Fed(t, j) {
        assert j in s.bus.chans.Keys;
        ChannelFacts(s, j);
        FedBounds(s, j);
        UnregisterShuts(s.bus, s.sessions[k].sub, j);
        FedCarries(s, t, j);
      }
      assert t.bus.log == s.bus.log;
      InStepIntro(t);
    }
  }

  lemma InStepDeliver(s: State, k: nat)
    requires InStep(s)
    ensures InStep(DoDeliver(s, k))
  {
    hide InStep, Sound, Slice, WellFormed, SessionFollows, Fed;
    PublicationFacts(s);
    DeliverFollows(s, k);
    var t := DoDeliver(s, k);
    if t != s {
      var c := s.bus.chans[k];
      assert (c.taken + [c.queue[0]]) + c.queue[1..] == c.taken + c.queue;
      forall j | j in t.bus.chans ensures j in t.sessions && Fed(t, j) {
        ChannelFacts(s, j);
        FedBounds(s, j);
        FedCarries(s, t, j);
      }
      InStepIntro(t);
    }
  }

  lemma InStepRestart(s: State)
    requires InStep(s)
    ensures InStep(DoRestart(s))
  {
    hide InStep, Sound, Slice, WellFormed, SessionFollows, Fed;
    PublicationFacts(s);
    RestartFollows(s);
    var t := DoRestart(s);
    forall j | j in t.bus.chans ensures j in t.sessions && Fed(t, j) {
      ChannelFacts(s, j);
      FedShut(s, t, j);
    }
    InStepIntro(t);
  }

  lemma FedShut(s: State, t: State, k: nat)
    requires InStep(s) && k in s.sessions && k in s.bus.chans && Fed(s, k) && t == DoRestart(s)
    ensures k in t.sessions && k in t.bus.chans && Fed(t, k)
  {
    hide InStep, Slice;
  }

  predicate Aside(step: Step) {
    step.EnsureSubscriber? || step.Open? || step.ReadPage? || step.SendReplayed? || step.Cancel? || step.SeeDone?
  }

  /** The remaining steps touch no channel and no publication. */
  lemma AsideKeepsBus(s: State, step: Step)
    requires Aside(step)
    ensures Next(s, step).bus == s.bus && Next(s, step).pubs == s.pubs
  {
    hide EventsAfter;
  }

  /** And a session reads its page only after registering. */
  lemma AsideKeeps(s: State, step: Step, j: nat)
    requires Aside(step) && j in s.sessions && j in s.bus.chans && !s.sessions[j].phase.Opening?
    requires s.sessions[j].base <= |s.bus.log|
    ensures var t := Next(s, step);
            && t.bus == s.bus && t.pubs == s.pubs && j in t.sessions && t.sessions[j].base == s.sessions[j].base
            && ((Reading(s.sessions[j]) ==> s.sessions[j].base <= s.sessions[j].seen) ==>
                (Reading(t.sessions[j]) ==> t.sessions[j].base <= t.sessions[j].seen))
  {
    hide Next;
    AsideKeepsBus(s, step);
    if step.EnsureSubscriber? {
      PublisherEffect(s, step);
    } else {
      SessionEffect(s, step);
    }
  }

  lemma InStepAside(s: State, step: Step)
    requires InStep(s) && Aside(step)
    ensures InStep(Next(s, step))
  {
    hide InStep, Sound, Slice, WellFormed, SessionFollows, Fed, Next;
    PublicationFacts(s);
    SoundNext(s, step);
    AsideKeepsBus(s, step);
    var t := Next(s, step);
    forall j | j in t.bus.chans ensures j in t.sessions && Fed(t, j) {
      ChannelFacts(s, j);
      FedBounds(s, j);
      AsideKeeps(s, step, j);
      FedCarries(s, t, j);
    }
    InStepIntro(t);
  }

  lemma InStepNext(s: State, step: Step)
    requires InStep(s) && SerialStep(s, step)
    ensures InStep(Next(s, step))
  {
    hide InStep, DoAppend, DoPush, DoEvict, DoRegister, DoDeliver, DoUnregister, DoRestart;
    hide DoEnsure, DoOpen, DoReadPage, DoSendReplayed, DoCancel, DoSeeDone;
    match step
    case AppendEvent(body) => InStepAppend(s, body);
    case PushEvent(id) => InStepPush(s, id);
    case EvictSlow(id) => InStepEvict(s, id);
    case RegisterSession(k) => InStepRegister(s, k);
    case Deliver(k) => InStepDeliver(s, k);
    case UnregisterSession(k) => InStepUnregister(s, k);
    case Restart => InStepRestart(s);
    case _ => InStepAside(s, step);
  }

  lemma {:induction false} InStepRun(s: State, steps: seq<Step>)
    requires InStep(s) && Serial(s, steps)
    ensures InStep(Run(s, steps))
    decreases steps
  {
    if steps == [] {
    } else {
      InStepNext(s, steps[0]);
      InStepRun(Next(s, steps[0]), steps[1..]);
    }
  }

  // ---------------------------------------------------------------- what a live session has sent

  lemma SlicePrefix(log: seq<string>, lo: nat, hi: int, j: nat)
    requires j <= |Slice(log, lo, hi)|
    ensures Slice(log, lo, hi)[..j] == Slice(log, lo, lo + j) && Slice(log, lo, hi)[j..] == Slice(log, lo + j, hi)
  {
  }

  /** The handler's response to an unbroken stretch of the log. */
  lemma {:induction false} FollowSlice(log: seq<string>, start: int, lo: nat, hi: nat)
    requires lo <= hi <= |log|
    ensures Follow(Cursor(start, []), Slice(log, lo, hi)) ==
            Cursor(if lo < hi then Max(start, hi) else start, Slice(log, Max(start, lo), hi))
    decreases hi
  {
    hide Slice;
    if lo == hi {
      EmptySlice(log, lo, hi);
      EmptySlice(log, Max(start, lo), hi);
    } else {
      hide Follow;
      FollowSlice(log, start, lo, hi - 1);
      SliceExtend(log, lo, hi - 1);
      FollowSnoc(Cursor(start, []), Slice(log, lo, hi - 1), Event(hi, log[hi - 1]));
      if Max(start, lo) <= hi - 1 {
        SliceExtend(log, Max(start, lo), hi - 1);
      } else {
        EmptySlice(log, Max(start, lo), hi - 1);
        EmptySlice(log, Max(start, lo), hi);
      }
    }
  }

  /** A registered session of a reachable state, with a contiguous channel. */
  ghost predicate Tracked(s: State, k: nat) {
    Sound(s) && k in s.sessions && k in s.bus.chans && Contiguous(s, k)
  }

  lemma InStepTracked(s: State, k: nat)
    requires InStep(s) && k in s.bus.chans
    ensures Tracked(s, k)
  {
  }

  lemma TrackedFacts(s: State, k: nat)
    requires Tracked(s, k)
    ensures s.bus.chans[k].sub == s.sessions[k].sub && (s.bus.chans[k].open <==> s.bus.Current(k))
    ensures !s.sessions[k].phase.Opening? && SessionFollows(s, k)
  {
  }

  /** What a channel's owner took and what is still queued are consecutive stretches of the log. */
  lemma ChannelShape(s: State, k: nat)
    requires Tracked(s, k)
    ensures var x, c := s.sessions[k], s.bus.chans[k];
            var got := x.base + |c.taken|;
            && got <= got + |c.queue| <= Pushed(s) <= |s.bus.log|
            && c.taken == Slice(s.bus.log, x.base, got)
            && c.queue == Slice(s.bus.log, got, got + |c.queue|)
  {
    hide Sound, Slice;
    var x, c := s.sessions[k], s.bus.chans[k];
    SlicePrefix(s.bus.log, x.base, x.base + |c.Accepted()|, |c.taken|);
    assert c.Accepted()[..|c.taken|] == c.taken && c.Accepted()[|c.taken|..] == c.queue;
  }

  /** Everything a live session sent, in terms of the log. */
  lemma LiveShape(s: State, k: nat)
    requires Tracked(s, k) && s.sessions[k].phase.Live?
    ensures var x, c := s.sessions[k], s.bus.chans[k];
            var got := x.base + |c.taken|;
            && got <= got + |c.queue| <= Pushed(s) <= |s.bus.log| && x.base <= x.seen <= |s.bus.log|
            && c.queue == Slice(s.bus.log, got, got + |c.queue|)
            && x.sent == Slice(s.bus.log, x.start, Min(x.seen, Max(x.start, 0) + REPLAY_LIMIT)) +
                 Slice(s.bus.log, Max(x.start, x.base), got)
            && x.lastSent == (if x.base < got then Max(x.start, got) else x.start)
            && (c.open <==> s.bus.Current(k))
  {
    TrackedFacts(s, k);
    hide Sound, Slice, Follow, Page;
    ChannelShape(s, k);
    var x, c := s.sessions[k], s.bus.chans[k];
    FollowSlice(s.bus.log, x.start, x.base, x.base + |c.taken|);
    PageIsSlice(s, x);
  }

  lemma PageIsSlice(s: State, x: Session)
    requires x.seen <= |s.bus.log|
    ensures Page(s, x) == Slice(s.bus.log, x.start, Min(x.seen, Max(x.start, 0) + REPLAY_LIMIT))
  {
  }

  ghost predicate WasSent(s: State, k: nat, id: int)
    requires k in s.sessions
  {
    HasId(s.sessions[k].sent, id)
  }

  /** What a session still has to send of its replay page. */
  function Owed(s: State, k: nat): seq<Event>
    requires k in s.sessions
  {
    var x := s.sessions[k];
    match x.phase
    case Joined => EventsAfter(s.bus.log, x.start, REPLAY_LIMIT)
    case Replaying(rest) => rest
    case _ => []
  }

  /** Every logged event past the session's start is sent, still to be replayed, queued, or not yet pushed. */
  ghost predicate GapFree(s: State, k: nat)
    requires k in s.sessions && k in s.bus.chans
  {
    forall id {:trigger WasSent(s, k, id)} :: Max(s.sessions[k].start, 0) < id <= |s.bus.log| ==>
      || WasSent(s, k, id) || HasId(Owed(s, k), id) || HasId(s.bus.chans[k].queue, id)
      || (id in s.pubs && s.pubs[id].Logged?)
  }

  /** Whether at most one replay page had been pushed past the start when the session registered. */
  predicate SmallBacklog(x: Session) { x.base <= Max(x.start, 0) + REPLAY_LIMIT }

  lemma LiveAccount(s: State, k: nat, id: int)
    requires Tracked(s, k) && s.sessions[k].phase.Live?
    ensures var x, c := s.sessions[k], s.bus.chans[k];
            var got := x.base + |c.taken|;
            && (WasSent(s, k, id) <==> (Max(x.start, 0) < id <= Min(x.seen, Max(x.start, 0) + REPLAY_LIMIT))
                                       || Max(x.start, x.base) < id <= got)
            && (HasId(c.queue, id) <==> got < id <= got + |c.queue|)
  {
    hide Slice, Sound, Contiguous;
    LiveShape(s, k);
    var x, c := s.sessions[k], s.bus.chans[k];
    var got := x.base + |c.taken|;
    var page, live := Slice(s.bus.log, x.start, Min(x.seen, Max(x.start, 0) + REPLAY_LIMIT)),
        Slice(s.bus.log, Max(x.start, x.base), got);
    SliceIds(s.bus.log, x.start, Min(x.seen, Max(x.start, 0) + REPLAY_LIMIT), id);
    SliceIds(s.bus.log, Max(x.start, x.base), got, id);
    SliceIds(s.bus.log, got, got + |c.queue|, id);
    HasIdConcat(page, live, id);
  }

  /** Before it is live, a session has sent and will replay its page, and has taken nothing. */
  lemma ReplayAccount(s: State, k: nat, id: int)
    requires k in s.sessions && k in s.bus.chans
    requires s.sessions[k].phase.Joined? || s.sessions[k].phase.Replaying?
    requires SessionFollows(s, k)
    ensures var x := s.sessions[k];
            var read := if x.phase.Joined? then |s.bus.log| else x.seen;
            && s.bus.chans[k].taken == []
            && (WasSent(s, k, id) || HasId(Owed(s, k), id) <==>
                  Max(x.start, 0) < id <= Min(read, Max(x.start, 0) + REPLAY_LIMIT))
  {
    hide Slice, Page;
    var x := s.sessions[k];
    var top := Max(x.start, 0) + REPLAY_LIMIT;
    if x.phase.Joined? {
      SliceIds(s.bus.log, x.start, top, id);
    } else {
      PageIsSlice(s, x);
      HasIdConcat(x.sent, x.phase.rest, id);
      SliceIds(s.bus.log, x.start, Min(x.seen, top), id);
    }
  }

  /** What a registered session has sent or will replay, and what waits in its queue, in terms of ids. */
  lemma Account(s: State, k: nat, id: int)
    requires Tracked(s, k)
    ensures var x, c := s.sessions[k], s.bus.chans[k];
            var read := if x.phase.Joined? then |s.bus.log| else x.seen;
            var got := x.base + |c.taken|;
            && x.base <= read
            && got + |c.queue| <= Pushed(s)
            && (WasSent(s, k, id) || HasId(Owed(s, k), id) <==>
                  (Max(x.start, 0) < id <= Min(read, Max(x.start, 0) + REPLAY_LIMIT)) ||
                      Max(x.start, x.base) < id <= got)
            && (HasId(c.queue, id) <==> got < id <= got + |c.queue|)
  {
    TrackedFacts(s, k);
    ChannelShape(s, k);
    var got := s.sessions[k].base + |s.bus.chans[k].taken|;
    SliceIds(s.bus.log, got, got + |s.bus.chans[k].queue|, id);
    ReadAfterJoining(s, k);
    hide Slice, Tracked, SessionFollows, WasSent;
    if s.sessions[k].phase.Live? {
      LiveAccount(s, k, id);
    } else {
      ReplayAccount(s, k, id);
    }
  }

  lemma ReadAfterJoining(s: State, k: nat)
    requires Tracked(s, k)
    ensures Reading(s.sessions[k]) ==> s.sessions[k].base <= s.sessions[k].seen
    ensures s.sessions[k].base <= |s.bus.log|
  {
    hide Slice, Sound;
  }

  /** The last id that the session's replay page can reach. */
  function PageEnd(s: State, x: Session): int {
    Max(x.start, Max(0, Min(if x.phase.Joined? then |s.bus.log| else x.seen, Max(x.start, 0) + REPLAY_LIMIT)))
  }

  /**
   Any registered session, evicted or not, has no gap exactly when its page reaches everything
   pushed, or its backlog was small and its channel has accepted everything pushed since.
   */
  lemma GapFreeInFull(s: State, k: nat)
    requires Tracked(s, k) && forall id :: id in s.pubs && s.pubs[id].Logged? ==> id > Pushed(s)
    ensures var x := s.sessions[k];
            GapFree(s, k) <==>
            Pushed(s) <= PageEnd(s, x) || (SmallBacklog(x) && x.base + |s.bus.chans[k].Accepted()| == Pushed(s))
  {
    hide Sound, Contiguous, Slice, SessionFollows, Owed;
    var x, c := s.sessions[k], s.bus.chans[k];
    var reached := x.base + |c.Accepted()|;
    Account(s, k, 0);
    if Pushed(s) <= PageEnd(s, x) || (SmallBacklog(x) && reached == Pushed(s)) {
      forall id | Max(x.start, 0) < id <= |s.bus.log|
        ensures || WasSent(s, k, id) || HasId(Owed(s, k), id) || HasId(c.queue, id)
                || (id in s.pubs && s.pubs[id].Logged?)
      {
        Account(s, k, id);
      }
    } else {
      var lost := if SmallBacklog(x) then Pushed(s) else Max(x.start, 0) + REPLAY_LIMIT + 1;
      Account(s, k, lost);
      assert !WasSent(s, k, lost);
    }
  }

  lemma GapFreeExactly(s: State, k: nat)
    requires InStep(s) && k in s.sessions && k in s.bus.chans
    requires s.bus.chans[k].open && !Doomed(s, s.sessions[k].sub)
    ensures GapFree(s, k) <==> SmallBacklog(s.sessions[k])
  {
    hide InStep, Slice, Sound, WellFormed, SessionFollows, GapFree;
    ChannelFacts(s, k);
    PublicationFacts(s);
    InStepTracked(s, k);
    PushedInStep(s);
    GapFreeInFull(s, k);
    Account(s, k, 0);
  }

  /**
   Gap-free delivery.  After any interleaved run in which publications do not overlap, a
   registered session whose channel is open and not about to be evicted has no gap exactly when
   at most a page of events past its starting point had been pushed by the time it registered.
   */
  lemma GapFreeDelivery(steps: seq<Step>, k: nat)
    requires Serial(START, steps) && k in Run(START, steps).bus.chans
    ensures var s := Run(START, steps);
            && k in s.sessions
            && (s.bus.chans[k].open && !Doomed(s, s.sessions[k].sub) ==>
                 (GapFree(s, k) <==> SmallBacklog(s.sessions[k])))
  {
    InStepRun(START, steps);
    var s := Run(START, steps);
    ChannelFacts(s, k);
    if s.bus.chans[k].open && !Doomed(s, s.sessions[k].sub) {
      GapFreeExactly(s, k);
    }
  }

  /** The session accounts for this event: on its page, taken as the newest, queued, or not yet pushed. */
  ghost predicate Covered(s: State, k: nat, id: int)
    requires k in s.sessions && k in s.bus.chans
  {
    || HasId(Page(s, s.sessions[k]), id) || NewestTaken(s.sessions[k].start, s.bus.chans[k].taken, id)
    || HasId(s.bus.chans[k].queue, id) || (id in s.pubs && s.pubs[id].Logged?)
  }

  /** In every run, publications overlapping or not, a live session has no gap exactly when it covers every event. */
  lemma GapFreeInAnyRun(steps: seq<Step>, k: nat)
    requires k in Run(START, steps).sessions && Run(START, steps).sessions[k].phase.Live?
    ensures var s := Run(START, steps);
            && k in s.bus.chans
            && (GapFree(s, k) <==>
                forall id :: Max(s.sessions[k].start, 0) < id <= |s.bus.log| ==> Covered(s, k, id))
  {
    var s := Run(START, steps);
    LiveSentExactly(steps, k, 0);
    assert Owed(s, k) == [];
    forall id | Max(s.sessions[k].start, 0) < id <= |s.bus.log|
      ensures Covered(s, k, id) <==>
              || WasSent(s, k, id) || HasId(Owed(s, k), id) || HasId(s.bus.chans[k].queue, id)
              || (id in s.pubs && s.pubs[id].Logged?)
    {
      LiveSentExactly(steps, k, id);
    }
    hide Run, Covered, Owed, HasId;
    if forall id :: Max(s.sessions[k].start, 0) < id <= |s.bus.log| ==> Covered(s, k, id) {
      forall id | Max(s.sessions[k].start, 0) < id <= |s.bus.log|
        ensures || WasSent(s, k, id) || HasId(Owed(s, k), id) || HasId(s.bus.chans[k].queue, id)
                || (id in s.pubs && s.pubs[id].Logged?)
      {
        assert Covered(s, k, id);
      }
    } else {
      var id :| Max(s.sessions[k].start, 0) < id <= |s.bus.log| && !Covered(s, k, id);
      assert !WasSent(s, k, id);
    }
  }

  /** Between publications, every registered subscriber has accepted everything logged since it registered. */
  lemma NothingInFlightNothingMissing(steps: seq<Step>, sub: Id)
    requires Serial(START, steps) && Run(START, steps).pubs == map[] && sub in Run(START, steps).bus.subs
    ensures var s := Run(START, steps);
            var k := s.bus.subs[sub];
            && k in s.bus.chans && k in s.sessions && s.bus.chans[k].open
            && s.bus.chans[k].Accepted() == Slice(s.bus.log, s.sessions[k].base, |s.bus.log|)
  {
    InStepRun(START, steps);
    var s := Run(START, steps);
    var k := s.bus.subs[sub];
    MappedIsOpen(s.bus, sub);
    ChannelFacts(s, k);
  }
}
