/**
 What closes the channel of a session that has not left: an eviction, its replacement by another
 session of the same subscriber, or the late unregistering of such a session; and, when the
 sessions of a subscriber do not overlap, evictions alone.
 */
module Evictions {
  import opened Domain
  import opened EventLog
  import opened Subscription
  import opened BusModel
  import opened Delivery
  import opened DeliveryGuarantees
  import opened OrderedDelivery
  import opened Frames
  import opened Checkpoints

  predicate Listening(s: State, k: nat) {
    k in s.sessions && s.sessions[k].status.Running? && k in s.bus.chans && s.bus.chans[k].open
  }

  /** A publication evicts the subscriber of this session. */
  predicate Evicts(s: State, step: Step, k: nat)
    requires k in s.sessions
  {
    step.EvictSlow? && step.id in s.pubs && s.pubs[step.id].Evicting? && s.sessions[k].sub in s.pubs[step.id].ids
  }

  /** Another session of the subscriber registers. */
  predicate Replaces(s: State, step: Step, k: nat)
    requires k in s.sessions
  {
    step.RegisterSession? && Has(s, step.k, Opening) && s.sessions[step.k].sub == s.sessions[k].sub
  }

  /** Another session of the subscriber, which has left, unregisters only now. */
  predicate UnregistersLate(s: State, step: Step, k: nat)
    requires k in s.sessions
  {
    step.UnregisterSession? && step.k in s.sessions && s.sessions[step.k].status.Leaving? &&
    s.sessions[step.k].sub == s.sessions[k].sub
  }

  predicate Shuts(s: State, step: Step, k: nat)
    requires k in s.sessions
  {
    Evicts(s, step, k) || Replaces(s, step, k) || UnregistersLate(s, step, k)
  }

  lemma CurrentWhileListening(s: State, k: nat)
    requires Sound(s) && Listening(s, k)
    ensures s.sessions[k].sub in s.bus.subs && s.bus.subs[s.sessions[k].sub] == k && !s.sessions[k].phase.Opening?
  {
    assert s.bus.Current(k);
  }

  /** How each locked section of the bus, and each receive, bears on one channel. */
  lemma ChannelEffects(b: Bus, h: nat, e: Event, id: Id, other: nat, ids: set<Id>)
    requires h in b.chans
    ensures h in Push(b, e).chans && Push(b, e).chans[h].open == b.chans[h].open
    ensures h in Take(b, other).chans && Take(b, other).chans[h].open == b.chans[h].open
    ensures h in Evict(b, ids).chans
    ensures Evict(b, ids).chans[h].open <==> b.chans[h].open && !(b.Current(h) && b.chans[h].sub in ids)
    ensures h in Unregister(b, id).chans
    ensures Unregister(b, id).chans[h].open <==> b.chans[h].open && !(id in b.subs && b.subs[id] == h)
    ensures other != h ==>
              && h in Register(b, id, other).chans
              && (Register(b, id, other).chans[h].open <==> b.chans[h].open && !(id in b.subs && b.subs[id] == h))
  {
    hide Bus.Current;
  }

  /** In any reachable state, the open channel of a session that has not left is closed by exactly these steps. */
  lemma ShutExactly(s: State, step: Step, k: nat)
    requires Sound(s) && Listening(s, k) && !step.Restart?
    ensures var t := Next(s, step); k in t.bus.chans && (!t.bus.chans[k].open <==> Shuts(s, step, k))
  {
    hide Sound, Next, DoEvict, DoRegister, DoUnregister, Shuts, Evicts, Replaces, UnregistersLate;
    NextIs(s, step);
    SoundMap(s, k);
    ShutsIs(s, step, k);
    match step
    case EvictSlow(id) => EvictShuts(s, id, k);
    case RegisterSession(j) => RegisterShuts(s, j, k);
    case UnregisterSession(j) => UnregisterShutsLate(s, j, k);
    case _ => OthersLeaveOpen(s, step, k);
  }

  lemma ShutsIs(s: State, step: Step, k: nat)
    requires k in s.sessions
    ensures step.EvictSlow? ==> (Shuts(s, step, k) <==> Evicts(s, step, k))
    ensures step.RegisterSession? ==> (Shuts(s, step, k) <==> Replaces(s, step, k))
    ensures step.UnregisterSession? ==> (Shuts(s, step, k) <==> UnregistersLate(s, step, k))
    ensures Shuts(s, step, k) ==> step.EvictSlow? || step.RegisterSession? || step.UnregisterSession?
  {
  }

  lemma EvictShuts(s: State, id: int, k: nat)
    requires Sound(s) && Listening(s, k)
    ensures var t := DoEvict(s, id); k in t.bus.chans && (!t.bus.chans[k].open <==> Evicts(s, EvictSlow(id), k))
  {
    SoundMap(s, k);
    hide Sound, Evict;
    if id in s.pubs && s.pubs[id].Evicting? {
      ChannelEffects(s.bus, k, Event(0, ""), s.sessions[k].sub, 0, s.pubs[id].ids);
    }
  }

  lemma RegisterShuts(s: State, j: nat, k: nat)
    requires Sound(s) && Listening(s, k)
    ensures var t := DoRegister(s, j);
            k in t.bus.chans && (!t.bus.chans[k].open <==> Replaces(s, RegisterSession(j), k))
  {
    CurrentWhileListening(s, k);
    SoundMapOf(s, k, j);
    hide Sound, Register, Pushed;
    if Has(s, j, Opening) {
      ChannelEffects(s.bus, k, Event(0, ""), s.sessions[j].sub, j, {});
    }
  }

  lemma UnregisterShutsLate(s: State, j: nat, k: nat)
    requires Sound(s) && Listening(s, k)
    ensures var t := DoUnregister(s, j);
            k in t.bus.chans && (!t.bus.chans[k].open <==> UnregistersLate(s, UnregisterSession(j), k))
  {
    CurrentWhileListening(s, k);
    SoundMapOf(s, k, j);
    hide Sound, Unregister;
    if j in s.sessions && s.sessions[j].status.Leaving? {
      ChannelEffects(s.bus, k, Event(0, ""), s.sessions[j].sub, 0, {});
    }
  }

  lemma OthersLeaveOpen(s: State, step: Step, k: nat)
    requires k in s.bus.chans && s.bus.chans[k].open
    requires !step.EvictSlow? && !step.RegisterSession? && !step.UnregisterSession? && !step.Restart?
    ensures k in Next(s, step).bus.chans && Next(s, step).bus.chans[k].open
  {
    hide EventsAfter, Push, Take, Full, Next;
    NextIs(s, step);
    match step
    case PushEvent(id) =>
      if 1 <= id <= |s.bus.log| {
        ChannelEffects(s.bus, k, Event(id, s.bus.log[id - 1]), s.bus.chans[k].sub, 0, {});
      }
    case Deliver(j) => ChannelEffects(s.bus, k, Event(0, ""), s.bus.chans[k].sub, j, {});
    case AppendEvent(body) =>
    case _ => AsideKeepsBus(s, step);
  }

  lemma SoundMap(s: State, k: nat)
    requires Sound(s) && k in s.bus.chans
    ensures k in s.sessions && s.bus.chans[k].sub == s.sessions[k].sub && (s.bus.chans[k].open <==> s.bus.Current(k))
  {
  }

  /** A mapped subscriber other than this session's is mapped to another channel. */
  lemma SoundMapOf(s: State, k: nat, j: nat)
    requires Sound(s) && Listening(s, k)
    ensures j in s.sessions && s.sessions[j].sub in s.bus.subs && s.bus.subs[s.sessions[j].sub] == k ==>
              s.sessions[j].sub == s.sessions[k].sub
    ensures Has(s, j, Opening) ==> j != k
  {
  }

  // ---------------------------------------------------------------- over whole runs

  /** Some step of the run shuts the open channel of this session. */
  ghost predicate ShutIn(s: State, steps: seq<Step>, k: nat)
    decreases steps
  {
    steps != [] && ((Listening(s, k) && Shuts(s, steps[0], k)) || ShutIn(Next(s, steps[0]), steps[1..], k))
  }

  ghost predicate EvictedIn(s: State, steps: seq<Step>, k: nat)
    decreases steps
  {
    steps != [] && ((Listening(s, k) && Evicts(s, steps[0], k)) || EvictedIn(Next(s, steps[0]), steps[1..], k))
  }

  /** A session that has not left has never left; its channel stays, and once closed stays closed. */
  lemma StepBack(s: State, step: Step, k: nat)
    requires Sound(s) && k in Next(s, step).sessions && Next(s, step).sessions[k].status.Running?
    ensures k in s.sessions ==> s.sessions[k].status.Running? && !step.Restart?
    ensures k in s.bus.chans ==> k in s.sessions && k in Next(s, step).bus.chans
    ensures k in s.bus.chans && !s.bus.chans[k].open ==> !Next(s, step).bus.chans[k].open
    ensures k !in s.bus.chans && k in Next(s, step).bus.chans ==> Next(s, step).bus.chans[k].open
  {
    hide Sound, EventsAfter, StartAfter, Pushed, Push, Evict, Register, Unregister, Take, Full;
    SoundChannels(s, k);
    if k in s.bus.chans {
      ChannelSteps(s, step, k);
    }
    StatusSteps(s, step, k);
    if k !in s.bus.chans && k in Next(s, step).bus.chans {
      NewChannel(s, step, k);
    }
  }

  lemma StatusSteps(s: State, step: Step, k: nat)
    requires k in Next(s, step).sessions && Next(s, step).sessions[k].status.Running?
    ensures k in s.sessions ==> s.sessions[k].status.Running? && !step.Restart?
  {
    if Publishes(step) {
      PublisherEffect(s, step);
    } else if step.Restart? {
      RestartEffect(s);
    } else {
      SessionEffect(s, step);
    }
    hide Next;
  }

  /** No step reopens a channel, or takes one away. */
  lemma ChannelSteps(s: State, step: Step, k: nat)
    requires k in s.bus.chans && (k in s.sessions ==> !s.sessions[k].phase.Opening?)
    ensures k in Next(s, step).bus.chans && (Next(s, step).bus.chans[k].open ==> s.bus.chans[k].open)
  {
    hide EventsAfter, StartAfter, Pushed, Push, Evict, Register, Unregister, Take, Full, Next;
    NextIs(s, step);
    match step
    case EvictSlow(id) =>
      var ids := if id in s.pubs && s.pubs[id].Evicting? then s.pubs[id].ids else {};
      ChannelEffects(s.bus, k, Event(0, ""), s.bus.chans[k].sub, 0, ids);
    case PushEvent(id) =>
      var event := if 1 <= id <= |s.bus.log| then Event(id, s.bus.log[id - 1]) else Event(0, "");
      ChannelEffects(s.bus, k, event, s.bus.chans[k].sub, 0, {});
    case RegisterSession(j) =>
      ChannelEffects(s.bus, k, Event(0, ""), if j in s.sessions then s.sessions[j].sub else s.bus.chans[k].sub, j, {});
    case UnregisterSession(j) =>
      ChannelEffects(s.bus, k, Event(0, ""), if j in s.sessions then s.sessions[j].sub else s.bus.chans[k].sub, 0, {});
    case Deliver(j) =>
      ChannelEffects(s.bus, k, Event(0, ""), s.bus.chans[k].sub, j, {});
    case AppendEvent(body) =>
    case Restart =>
    case _ => AsideKeepsBus(s, step);
  }

  /** A channel starts open. */
  lemma NewChannel(s: State, step: Step, k: nat)
    requires k !in s.bus.chans && k in Next(s, step).bus.chans
    ensures Next(s, step).bus.chans[k].open
  {
    hide EventsAfter, StartAfter, Pushed, Full, Next;
    NextIs(s, step);
    if Aside(step) {
      AsideKeepsBus(s, step);
    }
  }

  lemma SoundChannels(s: State, k: nat)
    requires Sound(s)
    ensures k in s.bus.chans ==> k in s.sessions && !s.sessions[k].phase.Opening?
    ensures k in s.sessions && k !in s.bus.chans ==> s.sessions[k].phase.Opening?
  {
  }

  /**
   In every run, a registered session that has not left finds its channel closed exactly when
   some step evicted it, replaced it, or unregistered another session of its subscriber late.
   */
  lemma {:induction false} ClosedExactlyWhenShut(s: State, steps: seq<Step>, k: nat)
    requires Sound(s) && k in Run(s, steps).sessions && Run(s, steps).sessions[k].status.Running?
    requires k in Run(s, steps).bus.chans
    ensures k in s.sessions ==> s.sessions[k].status.Running?
    ensures k in s.bus.chans ==> k in s.sessions
    ensures !Run(s, steps).bus.chans[k].open <==> (k in s.bus.chans && !s.bus.chans[k].open) || ShutIn(s, steps, k)
    decreases steps
  {
    if steps == [] {
      SoundChannels(s, k);
    } else {
      var t := Next(s, steps[0]);
      SoundNext(s, steps[0]);
      ClosedExactlyWhenShut(t, steps[1..], k);
      SoundChannels(s, k);
      hide Sound, Next, Shuts;
      if k in t.sessions {
        StepBack(s, steps[0], k);
        if Listening(s, k) {
          ShutExactly(s, steps[0], k);
        }
      } else {
        SessionStays(s, steps[0], k);
      }
    }
  }

  lemma SessionStays(s: State, step: Step, k: nat)
    ensures k in s.sessions ==> k in Next(s, step).sessions
  {
    if k in s.sessions {
      SessionAdvances(s, step, k);
    }
  }

  // ---------------------------------------------------------------- one session at a time

  /** Without overlapping sessions, only an eviction shuts a listening session. */
  lemma OnlyEvictionShuts(s: State, step: Step, k: nat)
    requires OneSession(s) && ExclusiveStep(s, step) && Listening(s, k)
    ensures Shuts(s, step, k) <==> Evicts(s, step, k)
  {
    CurrentWhileListening(s, k);
    hide Sound;
  }

  lemma {:induction false} ShutMeansEvicted(s: State, steps: seq<Step>, k: nat)
    requires OneSession(s) && Exclusive(s, steps)
    ensures ShutIn(s, steps, k) <==> EvictedIn(s, steps, k)
    decreases steps
  {
    if steps == [] {
    } else {
      OneSessionNext(s, steps[0]);
      ShutMeansEvicted(Next(s, steps[0]), steps[1..], k);
      if Listening(s, k) {
        OnlyEvictionShuts(s, steps[0], k);
      }
    }
  }

  lemma StartIsOneSession()
    ensures OneSession(START)
  {
  }

  /** When the sessions of a subscriber do not overlap, a session's channel is closed only by eviction. */
  lemma ClosedOnlyByEviction(steps: seq<Step>, k: nat)
    requires Exclusive(START, steps)
    requires k in Run(START, steps).sessions && Run(START, steps).sessions[k].status.Running?
    requires k in Run(START, steps).bus.chans
    ensures !Run(START, steps).bus.chans[k].open <==> EvictedIn(START, steps, k)
  {
    StartIsOneSession();
    ClosedExactlyWhenShut(START, steps, k);
    ShutMeansEvicted(START, steps, k);
  }

  /**
   Gap-free delivery, unless evicted.  When the sessions of a subscriber do not overlap and
   events are pushed in the order of the log, publications overlapping or not, a registered
   session that has not left was evicted, or is on the list of a publication in progress, or
   has no gap exactly if its backlog was at most a page.
   */
  lemma EvictedOrGapFree(steps: seq<Step>, k: nat)
    requires Ordered(START, steps) && Exclusive(START, steps)
    requires k in Run(START, steps).sessions && Run(START, steps).sessions[k].status.Running?
    requires k in Run(START, steps).bus.chans
    ensures var s := Run(START, steps);
            || EvictedIn(START, steps, k) || Listed(s, s.sessions[k].sub)
            || (GapFree(s, k) <==> SmallBacklog(s.sessions[k]))
  {
    ClosedOnlyByEviction(steps, k);
    OrderedGapFree(steps, k);
  }

  // ---------------------------------------------------------------- a session lost without any eviction

  /** A second session replaces the first and goes live; only then does the first unregister, and an event follows. */
  function LateUnregister(a: Id, x: string): seq<Step> {
    [EnsureSubscriber(a, 0), Open(1, a, None), RegisterSession(1), ReadPage(1), SendReplayed(1),
     Open(2, a, None), RegisterSession(2), ReadPage(2), SendReplayed(2),
     SeeDone(1), UnregisterSession(1), AppendEvent(x), PushEvent(1)]
  }

  function Idle(a: Id, phase: Phase, status: Status): Session { Session(a, 0, 0, [], phase, status, 0, 0) }

  function Quiet(a: Id, subs: map<Id, nat>, chans: map<nat, Chan>, sessions: map<nat, Session>): State {
    State(Bus([], subs, chans), map[], sessions, map[a := 0], map[a := 0])
  }

  lemma Opens(a: Id, k: nat, subs: map<Id, nat>, chans: map<nat, Chan>, sessions: map<nat, Session>)
    requires k !in sessions && k !in chans
    ensures DoOpen(Quiet(a, subs, chans, sessions), k, a, None) ==
            Quiet(a, subs, chans, sessions[k := Idle(a, Opening, Running)])
  {
  }

  lemma Registers(a: Id, k: nat, subs: map<Id, nat>, chans: map<nat, Chan>, sessions: map<nat, Session>)
    requires k in sessions && sessions[k] == Idle(a, Opening, Running)
    ensures DoRegister(Quiet(a, subs, chans, sessions), k) ==
            Quiet(a, subs[a := k],
                (if a in subs then Shut(Bus([], subs, chans), subs[a]) else chans)[k := Chan(a, [], [], true)],
                  sessions[k := Idle(a, Joined, Running)])
  {
    hide Shut;
  }

  lemma Replays(a: Id, k: nat, subs: map<Id, nat>, chans: map<nat, Chan>, sessions: map<nat, Session>)
    requires k in sessions && sessions[k] == Idle(a, Joined, Running)
    ensures var page := Quiet(a, subs, chans, sessions[k := Idle(a, Replaying([]), Running)]);
            && DoReadPage(Quiet(a, subs, chans, sessions), k) == page
            && DoSendReplayed(page, k) == Quiet(a, subs, chans, sessions[k := Idle(a, Live, Running)])
  {
    assert EventsAfter([], 0, REPLAY_LIMIT) == [];
    hide EventsAfter;
    var mid := sessions[k := Idle(a, Replaying([]), Running)];
    assert mid[k := Idle(a, Live, Running)] == sessions[k := Idle(a, Live, Running)];
  }

  /** The sessions, channels and map that this run passes through. */
  function Stages(a: Id, x: string): seq<State> {
    var on, off := Chan(a, [], [], true), Chan(a, [], [], false);
    var first, second := map[1 := Idle(a, Live, Running)], Idle(a, Live, Running);
    var both, shut := map[1 := off, 2 := on], map[1 := off, 2 := off];
    var last := map[1 := Idle(a, Live, Gone), 2 := second];
    [START,
     Quiet(a, map[], map[], map[]),
     Quiet(a, map[], map[], map[1 := Idle(a, Opening, Running)]),
     Quiet(a, map[a := 1], map[1 := on], map[1 := Idle(a, Joined, Running)]),
     Quiet(a, map[a := 1], map[1 := on], map[1 := Idle(a, Replaying([]), Running)]),
     Quiet(a, map[a := 1], map[1 := on], first),
     Quiet(a, map[a := 1], map[1 := on], first[2 := Idle(a, Opening, Running)]),
     Quiet(a, map[a := 2], both, first[2 := Idle(a, Joined, Running)]),
     Quiet(a, map[a := 2], both, first[2 := Idle(a, Replaying([]), Running)]),
     Quiet(a, map[a := 2], both, first[2 := second]),
     Quiet(a, map[a := 2], both, map[1 := Idle(a, Live, Leaving), 2 := second]),
     Quiet(a, map[], shut, last),
     State(Bus([x], map[], shut), map[1 := Logged], last, map[a := 0], map[a := 0]),
     State(Bus([x], map[], shut), map[1 := Evicting({})], last, map[a := 0], map[a := 0])]
  }

  lemma FirstSubscriber(a: Id)
    ensures DoEnsure(START, a, 0) == Quiet(a, map[], map[], map[])
  {
  }

  lemma StageFirst(a: Id, x: string)
    ensures forall i :: 0 <= i < 5 ==> Next(Stages(a, x)[i], LateUnregister(a, x)[i]) == Stages(a, x)[i + 1]
  {
    hide DoOpen, DoRegister, DoReadPage, DoSendReplayed, DoEnsure, Quiet, Idle, START, Next;
    var none: map<nat, Session> := map[];
    var chans: map<nat, Chan> := map[];
    var one := none[1 := Idle(a, Opening, Running)];
    var joined := one[1 := Idle(a, Joined, Running)];
    FirstSubscriber(a);
    Opens(a, 1, map[], chans, none);
    Registers(a, 1, map[], chans, one);
    Replays(a, 1, map[a := 1], chans[1 := Chan(a, [], [], true)], joined);
    assert joined == map[1 := Idle(a, Joined, Running)];
    assert joined[1 := Idle(a, Live, Running)] == map[1 := Idle(a, Live, Running)];
    assert joined[1 := Idle(a, Replaying([]), Running)] == map[1 := Idle(a, Replaying([]), Running)];
    forall i | 0 <= i < 5 ensures Next(Stages(a, x)[i], LateUnregister(a, x)[i]) == Stages(a, x)[i + 1] {
      NextIs(Stages(a, x)[i], LateUnregister(a, x)[i]);
    }
  }

  lemma StageSecond(a: Id, x: string)
    ensures forall i :: 5 <= i < 9 ==> Next(Stages(a, x)[i], LateUnregister(a, x)[i]) == Stages(a, x)[i + 1]
  {
    hide DoOpen, DoRegister, DoReadPage, DoSendReplayed, Quiet, Idle, START, Next;
    var on, off := Chan(a, [], [], true), Chan(a, [], [], false);
    var first := map[1 := Idle(a, Live, Running)];
    var opening := first[2 := Idle(a, Opening, Running)];
    var joined := opening[2 := Idle(a, Joined, Running)];
    Opens(a, 2, map[a := 1], map[1 := on], first);
    Registers(a, 2, map[a := 1], map[1 := on], opening);
    assert Shut(Bus([], map[a := 1], map[1 := on]), 1)[2 := on] == map[1 := off, 2 := on];
    hide Shut;
    assert map[a := 1][a := 2] == map[a := 2];
    Replays(a, 2, map[a := 2], map[1 := off, 2 := on], joined);
    assert joined == first[2 := Idle(a, Joined, Running)];
    assert joined[2 := Idle(a, Replaying([]), Running)] == first[2 := Idle(a, Replaying([]), Running)];
    assert joined[2 := Idle(a, Live, Running)] == first[2 := Idle(a, Live, Running)];
    forall i | 5 <= i < 9 ensures Next(Stages(a, x)[i], LateUnregister(a, x)[i]) == Stages(a, x)[i + 1] {
      NextIs(Stages(a, x)[i], LateUnregister(a, x)[i]);
    }
  }

  lemma StageLeaves(a: Id)
    ensures var on, off, second := Chan(a, [], [], true), Chan(a, [], [], false), Idle(a, Live, Running);
            var leaving := Quiet(a, map[a := 2], map[1 := off, 2 := on], map[1 := Idle(a, Live, Leaving), 2 := second]);
            && DoSeeDone(Quiet(a, map[a := 2], map[1 := off, 2 := on], map[1 := second][2 := second]), 1) == leaving
            && DoUnregister(leaving, 1) ==
                 Quiet(a, map[], map[1 := off, 2 := off], map[1 := Idle(a, Live, Gone), 2 := second])
  {
    var on, off, second := Chan(a, [], [], true), Chan(a, [], [], false), Idle(a, Live, Running);
    var both := map[1 := off, 2 := on];
    assert map[1 := second][2 := second][1 := Idle(a, Live, Leaving)] == map[1 := Idle(a, Live, Leaving), 2 := second];
    var left := map[1 := Idle(a, Live, Leaving), 2 := second];
    assert left[1 := Idle(a, Live, Gone)] == map[1 := Idle(a, Live, Gone), 2 := second];
    assert both[2 := off] == map[1 := off, 2 := off];
    assert map[a := 2] - {a} == map[];
  }

  lemma StagePublishes(a: Id, x: string, chans: map<nat, Chan>, sessions: map<nat, Session>)
    ensures var logged := State(Bus([x], map[], chans), map[1 := Logged], sessions, map[a := 0], map[a := 0]);
            && DoAppend(Quiet(a, map[], chans, sessions), x) == logged
            && DoPush(logged, 1) ==
                 State(Bus([x], map[], chans), map[1 := Evicting({})], sessions, map[a := 0], map[a := 0])
  {
    var b := Bus([x], map[], chans);
    assert [] + [x] == [x];
    assert Push(b, Event(1, x)).chans == chans;
    assert Full(b) == {};
    var pubs: map<int, Publication> := map[1 := Logged];
    assert pubs[1 := Evicting({})] == map[1 := Evicting({})];
  }

  lemma StageLate(a: Id, x: string)
    ensures forall i :: 9 <= i < 13 ==> Next(Stages(a, x)[i], LateUnregister(a, x)[i]) == Stages(a, x)[i + 1]
  {
    hide DoSeeDone, DoUnregister, DoAppend, DoPush, Quiet, Idle, START, Next;
    var off := Chan(a, [], [], false);
    StageLeaves(a);
    StagePublishes(a, x, map[1 := off, 2 := off], map[1 := Idle(a, Live, Gone), 2 := Idle(a, Live, Running)]);
    forall i | 9 <= i < 13 ensures Next(Stages(a, x)[i], LateUnregister(a, x)[i]) == Stages(a, x)[i + 1] {
      NextIs(Stages(a, x)[i], LateUnregister(a, x)[i]);
    }
  }

  lemma {:induction false} Traced(stages: seq<State>, steps: seq<Step>)
    requires |stages| == |steps| + 1
    requires forall i :: 0 <= i < |steps| ==> Next(stages[i], steps[i]) == stages[i + 1]
    ensures Run(stages[0], steps) == stages[|steps|]
    ensures (forall i :: 0 <= i < |steps| ==> SerialStep(stages[i], steps[i])) ==> Serial(stages[0], steps)
    decreases steps
  {
    if steps == [] {
    } else {
      hide Next, SerialStep;
      assert forall i :: 0 <= i < |steps| - 1 ==> steps[1..][i] == steps[i + 1] && stages[1..][i] == stages[i + 1];
      Traced(stages[1..], steps[1..]);
    }
  }

  lemma {:induction false} NoEvictionStep(s: State, steps: seq<Step>, k: nat)
    requires forall step :: step in steps ==> !step.EvictSlow?
    ensures !EvictedIn(s, steps, k)
    decreases steps
  {
    if steps == [] {
    } else {
      NoEvictionStep(Next(s, steps[0]), steps[1..], k);
    }
  }

  /**
   Overlapping sessions of one subscriber do lose events: in this run a live session with no
   backlog that nothing ever evicts is closed, and misses the only event.
   */
  lemma LateUnregisterLosesAnEvent(a: Id, x: string)
    ensures var steps := LateUnregister(a, x);
            var s := Run(START, steps);
            && Serial(START, steps) && !EvictedIn(START, steps, 2) && ShutIn(START, steps, 2)
            && 2 in s.sessions && s.sessions[2].status.Running? && s.sessions[2].phase.Live? &&
                 SmallBacklog(s.sessions[2])
            && 2 in s.bus.chans && !s.bus.chans[2].open && !Doomed(s, a)
            && !GapFree(s, 2)
  {
    var steps := LateUnregister(a, x);
    LateRun(a, x);
    hide Next, Run, ShutIn, EvictedIn, Serial, Stages;
    NoEvictionStep(START, steps, 2);
    StartIsOneSession();
    ClosedExactlyWhenShut(START, steps, 2);
    var s := Run(START, steps);
    assert !WasSent(s, 2, 1);
  }

  lemma LateRun(a: Id, x: string)
    ensures Run(START, LateUnregister(a, x)) == Stages(a, x)[13] && Serial(START, LateUnregister(a, x))
    ensures Stages(a, x)[13] == State(Bus([x], map[], map[1 := Chan(a, [], [], false), 2 := Chan(a, [], [], false)]),
                                      map[1 := Evicting({})],
                                      map[1 := Idle(a, Live, Gone), 2 := Idle(a, Live, Running)],
                                      map[a := 0], map[a := 0])
  {
    hide Next, Run, Serial, START, Idle;
    StageFirst(a, x);
    StageSecond(a, x);
    StageLate(a, x);
    Traced(Stages(a, x), LateUnregister(a, x));
  }
}
