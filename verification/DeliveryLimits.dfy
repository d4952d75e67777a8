/**
 Runs that show why the delivery guarantees need their hypotheses.
 */
module DeliveryLimits {
  import opened Domain
  import opened EventLog
  import opened Subscription
  import opened BusModel
  import opened Delivery
  import opened DeliveryGuarantees

  lemma {:induction false} RunConcat(s: State, a: seq<Step>, b: seq<Step>)
    ensures Run(s, a + b) == Run(Run(s, a), b)
    decreases a
  {
    if a == [] {
      assert a + b == b;
    } else {
      assert (a + b)[1..] == a[1..] + b;
      RunConcat(Next(s, a[0]), a[1..], b);
    }
  }

  lemma RunSnoc(s: State, a: seq<Step>, step: Step)
    ensures Run(s, a + [step]) == Next(Run(s, a), step)
  {
    RunConcat(s, a, [step]);
    var t := Run(s, a);
    assert Run(Next(t, step), [step][1..]) == Next(t, step);
  }

  lemma RunSnocTo(steps: seq<Step>, step: Step, t: State)
    requires Next(Run(START, steps), step) == t
    ensures Run(START, steps + [step]) == t
  {
    RunSnoc(START, steps, step);
  }

  /** Only subscriber `a` is registered, through session 1. */
  function One(a: Id, log: seq<string>, pubs: map<int, Publication>, taken: seq<Event>, queue: seq<Event>,
               sessions: map<nat, Session>, checkpoint: int): State
  {
    State(Bus(log, map[a := 1], map[1 := Chan(a, taken, queue, true)]), pubs, sessions, map[a := checkpoint],
        map[a := 0])
  }

  lemma OnePublishes(a: Id, log: seq<string>, pubs: map<int, Publication>, taken: seq<Event>, queue: seq<Event>,
                     sessions: map<nat, Session>, cp: int, id: int)
    requires 1 <= id <= |log| && |queue| < BUFFER_SIZE && id in pubs
    ensures pubs[id] == Logged ==>
      DoPush(One(a, log, pubs, taken, queue, sessions, cp), id) ==
      One(a, log, pubs[id := Evicting({})], taken, queue + [Event(id, log[id - 1])], sessions, cp)
    ensures pubs[id] == Evicting({}) ==>
      DoEvict(One(a, log, pubs, taken, queue, sessions, cp), id) == One(a, log, pubs - {id}, taken, queue, sessions, cp)
  {
    var s := One(a, log, pubs, taken, queue, sessions, cp);
    assert s.bus.Current(1);
    assert Full(s.bus) == {};
    assert Push(s.bus, Event(id, log[id - 1])).chans ==
        map[1 := Chan(a, taken, queue + [Event(id, log[id - 1])], true)];
    assert Evict(s.bus, {}).chans == s.bus.chans && Evict(s.bus, {}).subs == s.bus.subs;
  }

  lemma OneAppends(a: Id, log: seq<string>, pubs: map<int, Publication>, taken: seq<Event>, queue: seq<Event>,
                   sessions: map<nat, Session>, cp: int, body: string)
    ensures DoAppend(One(a, log, pubs, taken, queue, sessions, cp), body) ==
            One(a, log + [body], pubs[|log| + 1 := Logged], taken, queue, sessions, cp)
  {
  }

  lemma OneLeaves(a: Id, log: seq<string>, pubs: map<int, Publication>, taken: seq<Event>, queue: seq<Event>,
                  sessions: map<nat, Session>, cp: int)
    requires 1 in sessions && sessions[1].status == Running && sessions[1].phase == Live && sessions[1].sub == a
    ensures DoCancel(One(a, log, pubs, taken, queue, sessions, cp), 1, true) ==
            One(a, log, pubs, taken, queue, sessions[1 := sessions[1].(status := Leaving)], sessions[1].lastSent)
  {
    assert map[a := cp][a := sessions[1].lastSent] == map[a := sessions[1].lastSent];
  }

  lemma OneDelivers(a: Id, log: seq<string>, pubs: map<int, Publication>, taken: seq<Event>, queue: seq<Event>,
                    sessions: map<nat, Session>, cp: int)
    requires queue != [] && 1 in sessions && sessions[1].status == Running && sessions[1].phase == Live
    ensures var x := sessions[1];
            var c := Offer(Cursor(x.lastSent, x.sent), queue[0]);
            DoDeliver(One(a, log, pubs, taken, queue, sessions, cp), 1) ==
            One(a, log, pubs, taken + [queue[0]], queue[1..],
                sessions[1 := x.(lastSent := c.lastSent, sent := c.sent)], cp)
  {
  }

  function Fresh(a: Id, phase: Phase): Session { Session(a, 0, 0, [], phase, Running, 0, 0) }

  lemma OpensAndRegisters(a: Id, others: map<nat, Session>)
    requires 1 !in others
    ensures var s := State(Bus([], map[], map[]), map[], others, map[a := 0], map[a := 0]);
            DoRegister(DoOpen(s, 1, a, None), 1) == One(a, [], map[], [], [], others[1 := Fresh(a, Joined)], 0)
  {
    assert others[1 := Fresh(a, Opening)][1 := Fresh(a, Joined)] == others[1 := Fresh(a, Joined)];
  }

  /** Subscriber `a` opens session 1, registers and finishes an empty replay; others may have opened before. */
  lemma Joins(a: Id, others: map<nat, Session>)
    requires 1 !in others
    ensures var s := State(Bus([], map[], map[]), map[], others, map[a := 0], map[a := 0]);
            DoSendReplayed(DoReadPage(DoRegister(DoOpen(s, 1, a, None), 1), 1), 1) ==
            One(a, [], map[], [], [], others[1 := Fresh(a, Live)], 0)
  {
    var s := State(Bus([], map[], map[]), map[], others, map[a := 0], map[a := 0]);
    OpensAndRegisters(a, others);
    var joined := DoRegister(DoOpen(s, 1, a, None), 1);
    assert EventsAfter([], 0, REPLAY_LIMIT) == [];
    hide EventsAfter, DoOpen, DoRegister;
    assert others[1 := Fresh(a, Joined)][1 := Fresh(a, Replaying([]))] == others[1 := Fresh(a, Replaying([]))];
    assert DoReadPage(joined, 1) == One(a, [], map[], [], [], others[1 := Fresh(a, Replaying([]))], 0);
    assert others[1 := Fresh(a, Replaying([]))][1 := Fresh(a, Live)] == others[1 := Fresh(a, Live)];
  }

  lemma RunFive(s: State, a: Step, b: Step, c: Step, d: Step, e: Step)
    ensures Run(s, [a, b, c, d, e]) == Next(Next(Next(Next(Next(s, a), b), c), d), e)
  {
    hide Next;
    var s1 := Next(s, a);
    var s2 := Next(s1, b);
    var s3 := Next(s2, c);
    var s4 := Next(s3, d);
    assert [a, b, c, d, e][1..] == [b, c, d, e] && [b, c, d, e][1..] == [c, d, e];
    assert [c, d, e][1..] == [d, e] && [d, e][1..] == [e] && [e][1..] == [];
    assert Run(s4, [e]) == Run(Next(s4, e), []) == Next(s4, e);
    assert Run(s3, [d, e]) == Run(s4, [e]);
    assert Run(s2, [c, d, e]) == Run(s3, [d, e]);
    assert Run(s1, [b, c, d, e]) == Run(s2, [c, d, e]);
  }

  lemma JoinNext(a: Id)
    ensures forall s :: Next(s, EnsureSubscriber(a, 0)) == DoEnsure(s, a, 0)
    ensures forall s :: Next(s, Open(1, a, None)) == DoOpen(s, 1, a, None)
    ensures forall s :: Next(s, RegisterSession(1)) == DoRegister(s, 1)
    ensures forall s :: Next(s, ReadPage(1)) == DoReadPage(s, 1)
    ensures forall s :: Next(s, SendReplayed(1)) == DoSendReplayed(s, 1)
  {
    hide DoEnsure, DoOpen, DoRegister, DoReadPage, DoSendReplayed;
  }

  lemma JoinRun(a: Id, others: map<nat, Session>, earlier: seq<Step>)
    requires 1 !in others
    requires Run(DoEnsure(START, a, 0), earlier) ==
        State(Bus([], map[], map[]), map[], others, map[a := 0], map[a := 0])
    ensures Run(START, JoinSteps(a, earlier)) == One(a, [], map[], [], [], others[1 := Fresh(a, Live)], 0)
  {
    Joins(a, others);
    RunConcat(START, [EnsureSubscriber(a, 0)], earlier);
    RunSnoc(START, [], EnsureSubscriber(a, 0));
    JoinNext(a);
    assert [] + [EnsureSubscriber(a, 0)] == [EnsureSubscriber(a, 0)];
    assert Run(START, []) == START;
    hide DoOpen, DoRegister, DoReadPage, DoSendReplayed, DoEnsure, Run, One, START, Next;
    var steps := [EnsureSubscriber(a, 0)] + earlier;
    RunSnoc(START, steps, Open(1, a, None));
    RunSnoc(START, steps + [Open(1, a, None)], RegisterSession(1));
    RunSnoc(START, steps + [Open(1, a, None)] + [RegisterSession(1)], ReadPage(1));
    RunSnoc(START, steps + [Open(1, a, None)] + [RegisterSession(1)] + [ReadPage(1)], SendReplayed(1));
  }

  function JoinSteps(a: Id, earlier: seq<Step>): seq<Step> {
    [EnsureSubscriber(a, 0)] + earlier + [Open(1, a, None)] + [RegisterSession(1)] + [ReadPage(1)] + [SendReplayed(1)]
  }

  /** Both events are logged, and the second is pushed first. */
  function RacingSteps(joined: seq<Step>, x: string, y: string): seq<Step> {
    joined + [AppendEvent(x)] + [AppendEvent(y)] + [PushEvent(2)] + [PushEvent(1)]
  }

  /** Then both publications finish, and both events are received. */
  function LosingSteps(joined: seq<Step>, x: string, y: string): seq<Step> {
    RacingSteps(joined, x, y) + [EvictSlow(1)] + [EvictSlow(2)] + [Deliver(1)] + [Deliver(1)]
  }

  lemma RaceRun(a: Id, x: string, y: string, joined: seq<Step>)
    requires Run(START, joined) == One(a, [], map[], [], [], map[1 := Fresh(a, Live)], 0)
    ensures Run(START, RacingSteps(joined, x, y)) ==
        One(a, [x, y], map[1 := Evicting({}), 2 := Evicting({})], [], [Event(2, y), Event(1, x)],
            map[1 := Fresh(a, Live)], 0)
  {
    hide DoAppend, DoPush, DoEvict, Run, START, One, Fresh;
    var live := map[1 := Fresh(a, Live)];
    var e1, e2 := Event(1, x), Event(2, y);
    assert [] + [x] == [x] && [x] + [y] == [x, y] && [] + [e2] == [e2] && [e2] + [e1] == [e2, e1];
    var p1, p2: map<int, Publication> := map[1 := Logged], map[1 := Logged][2 := Logged];
    var p3, p4: map<int, Publication> := p2[2 := Evicting({})], map[1 := Evicting({}), 2 := Evicting({})];
    assert p3[1 := Evicting({})] == p4;
    OneAppends(a, [], map[], [], [], live, 0, x);
    RunSnocTo(joined, AppendEvent(x), One(a, [x], p1, [], [], live, 0));
    OneAppends(a, [x], p1, [], [], live, 0, y);
    RunSnocTo(joined + [AppendEvent(x)], AppendEvent(y), One(a, [x, y], p2, [], [], live, 0));
    OnePublishes(a, [x, y], p2, [], [], live, 0, 2);
    var steps := joined + [AppendEvent(x)] + [AppendEvent(y)];
    RunSnocTo(steps, PushEvent(2), One(a, [x, y], p3, [], [e2], live, 0));
    OnePublishes(a, [x, y], p3, [], [e2], live, 0, 1);
    RunSnocTo(steps + [PushEvent(2)], PushEvent(1), One(a, [x, y], p4, [], [e2, e1], live, 0));
  }

  lemma LoseRun(a: Id, x: string, y: string, joined: seq<Step>)
    requires Run(START, joined) == One(a, [], map[], [], [], map[1 := Fresh(a, Live)], 0)
    ensures Run(START, LosingSteps(joined, x, y)) ==
        One(a, [x, y], map[], [Event(2, y), Event(1, x)], [],
            map[1 := Fresh(a, Live).(lastSent := 2, sent := [Event(2, y)])], 0)
  {
    RaceRun(a, x, y, joined);
    hide DoEvict, DoDeliver, Run, START, One, RacingSteps;
    var live, sent := map[1 := Fresh(a, Live)], map[1 := Fresh(a, Live).(lastSent := 2, sent := [Event(2, y)])];
    var e1, e2 := Event(1, x), Event(2, y);
    var p4, p5: map<int, Publication> := map[1 := Evicting({}), 2 := Evicting({})], map[2 := Evicting({})];
    assert p4 - {1} == p5 && p5 - {2} == map[];
    var steps := RacingSteps(joined, x, y);
    OnePublishes(a, [x, y], p4, [], [e2, e1], live, 0, 1);
    RunSnocTo(steps, EvictSlow(1), One(a, [x, y], p5, [], [e2, e1], live, 0));
    OnePublishes(a, [x, y], p5, [], [e2, e1], live, 0, 2);
    RunSnocTo(steps + [EvictSlow(1)], EvictSlow(2), One(a, [x, y], map[], [], [e2, e1], live, 0));
    BothReceived(a, x, y, steps + [EvictSlow(1)] + [EvictSlow(2)]);
  }

  lemma BothReceived(a: Id, x: string, y: string, steps: seq<Step>)
    requires Run(START, steps) ==
        One(a, [x, y], map[], [], [Event(2, y), Event(1, x)], map[1 := Fresh(a, Live)], 0)
    ensures Run(START, steps + [Deliver(1)] + [Deliver(1)]) ==
        One(a, [x, y], map[], [Event(2, y), Event(1, x)], [],
            map[1 := Fresh(a, Live).(lastSent := 2, sent := [Event(2, y)])], 0)
  {
    hide DoDeliver, Run, START, One;
    var live, sent := map[1 := Fresh(a, Live)], map[1 := Fresh(a, Live).(lastSent := 2, sent := [Event(2, y)])];
    var e1, e2 := Event(1, x), Event(2, y);
    assert [] + [e2] == [e2] && [e2] + [e1] == [e2, e1] && [e2, e1][1..] == [e1] && [e1][1..] == [];
    assert live[1 := sent[1]] == sent && sent[1 := sent[1]] == sent;
    assert Offer(Cursor(0, []), e2) == Cursor(2, [e2]) && Offer(Cursor(2, [e2]), e1) == Cursor(2, [e2]);
    OneDelivers(a, [x, y], map[], [], [e2, e1], live, 0);
    RunSnocTo(steps, Deliver(1), One(a, [x, y], map[], [e2], [e1], sent, 0));
    OneDelivers(a, [x, y], map[], [e2], [e1], sent, 0);
    RunSnocTo(steps + [Deliver(1)], Deliver(1), One(a, [x, y], map[], [e2, e1], [], sent, 0));
  }

  /**
   Two publications that overlap may push in the wrong order, and the handler then drops the
   older event: a live session with no backlog that is not being evicted has a gap.
   */
  lemma OverlappingPublicationsLoseAnEvent(a: Id, x: string, y: string)
    ensures var s := Run(START, LosingSteps(JoinSteps(a, []), x, y));
            && 1 in s.sessions && s.sessions[1].phase.Live? && SmallBacklog(s.sessions[1])
            && 1 in s.bus.chans && s.bus.chans[1].open && s.pubs == map[]
            && s.bus.log == [x, y] && s.sessions[1].sent == [Event(2, y)]
            && s.bus.chans[1].taken == [Event(2, y), Event(1, x)] &&
                 !NewestTaken(s.sessions[1].start, s.bus.chans[1].taken, 1)
            && !GapFree(s, 1)
  {
    JoinRun(a, map[], []);
    LoseRun(a, x, y, JoinSteps(a, []));
    var s := Run(START, LosingSteps(JoinSteps(a, []), x, y));
    hide Run, LosingSteps, RacingSteps, JoinSteps;
    assert s.sessions[1].sent[0].id == 2;
    var taken := s.bus.chans[1].taken;
    assert taken[0].id == 2 && taken[1].id == 1;
    assert !WasSent(s, 1, 1);
  }

  /** An event is published. */
  function PublishingSteps(joined: seq<Step>, x: string): seq<Step> {
    joined + [AppendEvent(x)] + [PushEvent(1)] + [EvictSlow(1)]
  }

  /** Session 1 is sent it and leaves. */
  function SavingSteps(joined: seq<Step>, x: string): seq<Step> {
    PublishingSteps(joined, x) + [Deliver(1)] + [Cancel(1, true)]
  }

  const RESTORING: seq<Step> := [RegisterSession(2), ReadPage(2), SendReplayed(2), SendReplayed(2), Cancel(2, true)]

  /**
   A session that reads its checkpoint before a rival session of the same subscriber saves a
   higher one puts the lower value back when it leaves.
   */
  lemma OverlappingSessionsLowerTheCheckpoint(a: Id, x: string)
    ensures var before := SavingSteps(JoinSteps(a, [Open(2, a, None)]), x);
            && a in Run(START, before).checkpoints && Run(START, before).checkpoints[a] == 1
            && a in Run(START, before + RESTORING).checkpoints && Run(START, before + RESTORING).checkpoints[a] == 0
  {
    var others := map[2 := Fresh(a, Opening)];
    var s0 := DoEnsure(START, a, 0);
    assert Run(s0, [Open(2, a, None)]) == DoOpen(s0, 2, a, None) by {
      assert [Open(2, a, None)][1..] == [];
    }
    JoinRun(a, others, [Open(2, a, None)]);
    SaveRun(a, x, others, JoinSteps(a, [Open(2, a, None)]));
    var before := SavingSteps(JoinSteps(a, [Open(2, a, None)]), x);
    var s := Run(START, before);
    hide Run, SavingSteps, PublishingSteps, JoinSteps;
    RestoreRun(a, s, RESTORING);
    RunConcat(START, before, RESTORING);
  }

  lemma PublishRun(a: Id, x: string, live: map<nat, Session>, joined: seq<Step>)
    requires Run(START, joined) == One(a, [], map[], [], [], live, 0)
    ensures Run(START, PublishingSteps(joined, x)) == One(a, [x], map[], [], [Event(1, x)], live, 0)
  {
    hide DoAppend, DoPush, DoEvict, Run, START, One;
    var e := Event(1, x);
    assert [] + [x] == [x] && [] + [e] == [e];
    var p1, p2: map<int, Publication> := map[1 := Logged], map[1 := Logged][1 := Evicting({})];
    assert p2 - {1} == map[];
    OneAppends(a, [], map[], [], [], live, 0, x);
    RunSnocTo(joined, AppendEvent(x), One(a, [x], p1, [], [], live, 0));
    OnePublishes(a, [x], p1, [], [], live, 0, 1);
    RunSnocTo(joined + [AppendEvent(x)], PushEvent(1), One(a, [x], p2, [], [e], live, 0));
    OnePublishes(a, [x], p2, [], [e], live, 0, 1);
    RunSnocTo(joined + [AppendEvent(x)] + [PushEvent(1)], EvictSlow(1), One(a, [x], map[], [], [e], live, 0));
  }

  lemma ReceiveRun(a: Id, x: string, live: map<nat, Session>, steps: seq<Step>)
    requires 1 in live && live[1] == Fresh(a, Live)
    requires Run(START, steps) == One(a, [x], map[], [], [Event(1, x)], live, 0)
    ensures Run(START, steps + [Deliver(1)]) ==
            One(a, [x], map[], [Event(1, x)], [], live[1 := Fresh(a, Live).(lastSent := 1, sent := [Event(1, x)])], 0)
  {
    hide DoDeliver, Run, START, One;
    var e := Event(1, x);
    assert [] + [e] == [e] && [e][1..] == [];
    OneDelivers(a, [x], map[], [], [e], live, 0);
    var sent := live[1 := Fresh(a, Live).(lastSent := 1, sent := [e])];
    RunSnocTo(steps, Deliver(1), One(a, [x], map[], [e], [], sent, 0));
  }

  /** Session 1 is sent one event and leaves, saving checkpoint 1. */
  lemma SaveRun(a: Id, x: string, others: map<nat, Session>, joined: seq<Step>)
    requires 1 !in others && Run(START, joined) == One(a, [], map[], [], [], others[1 := Fresh(a, Live)], 0)
    ensures Run(START, SavingSteps(joined, x)) ==
            One(a, [x], map[], [Event(1, x)], [],
                others[1 := Fresh(a, Live).(lastSent := 1, sent := [Event(1, x)], status := Leaving)], 1)
  {
    var live := others[1 := Fresh(a, Live)];
    PublishRun(a, x, live, joined);
    hide DoCancel, Run, START, One, PublishingSteps;
    ReceiveRun(a, x, live, PublishingSteps(joined, x));
    var e := Event(1, x);
    var here := Fresh(a, Live).(lastSent := 1, sent := [e]);
    var sent := live[1 := here];
    var left := others[1 := here.(status := Leaving)];
    assert sent[1 := here.(status := Leaving)] == left;
    OneLeaves(a, [x], map[], [e], [], sent, 0);
    RunSnocTo(PublishingSteps(joined, x) + [Deliver(1)], Cancel(1, true), One(a, [x], map[], [e], [], left, 1));
  }

  /** Session 2, opened when the checkpoint was 0, replays the event and leaves. */
  lemma RestoreRun(a: Id, s: State, after: seq<Step>)
    requires |s.bus.log| == 1 && 2 in s.sessions && s.sessions[2] == Fresh(a, Opening) && a in s.checkpoints
    requires after == [RegisterSession(2), ReadPage(2), SendReplayed(2), SendReplayed(2), Cancel(2, true)]
    ensures a in Run(s, after).checkpoints && Run(s, after).checkpoints[a] == 0
  {
    RunFive(s, RegisterSession(2), ReadPage(2), SendReplayed(2), SendReplayed(2), Cancel(2, true));
    RestoreNext();
    RegisterSecond(a, s);
    ReplayOne(a, DoRegister(s, 2));
    hide Run, Next, DoRegister, DoReadPage, DoSendReplayed, DoCancel;
  }

  lemma RestoreNext()
    ensures forall s :: Next(s, RegisterSession(2)) == DoRegister(s, 2)
    ensures forall s :: Next(s, ReadPage(2)) == DoReadPage(s, 2)
    ensures forall s :: Next(s, SendReplayed(2)) == DoSendReplayed(s, 2)
    ensures forall s :: Next(s, Cancel(2, true)) == DoCancel(s, 2, true)
  {
    hide DoRegister, DoReadPage, DoSendReplayed, DoCancel;
  }

  lemma RegisterSecond(a: Id, s: State)
    requires 2 in s.sessions && s.sessions[2] == Fresh(a, Opening)
    ensures var t := DoRegister(s, 2);
            && t.bus.log == s.bus.log && t.checkpoints == s.checkpoints
            && 2 in t.sessions && t.sessions[2] == Fresh(a, Joined).(base := Pushed(s))
  {
    RegisterLog(s.bus, a, 2);
    hide Register, Pushed;
  }

  lemma ReplayOne(a: Id, s1: State)
    requires |s1.bus.log| == 1 && 2 in s1.sessions && Has(s1, 2, Joined) && s1.sessions[2].sub == a
    requires s1.sessions[2].start == 0 == s1.sessions[2].lastSent && a in s1.checkpoints
    ensures var t := DoCancel(DoSendReplayed(DoSendReplayed(DoReadPage(s1, 2), 2), 2), 2, true);
            a in t.checkpoints && t.checkpoints[a] == 0
  {
    assert |EventsAfter(s1.bus.log, 0, REPLAY_LIMIT)| == 1;
    hide EventsAfter;
    var s2 := DoReadPage(s1, 2);
    var s3 := DoSendReplayed(s2, 2);
    assert s3.sessions[2].phase == Replaying([]);
  }

  lemma RegisterLog(b: Bus, id: Id, h: nat)
    ensures Register(b, id, h).log == b.log
  {
  }

  /**
   When a session that was replaced finally unregisters, it takes its successor's channel with
   it: the successor is closed although it was never slow.
   */
  lemma StaleUnregisterClosesSuccessor(s: State, k: nat, j: nat)
    requires Sound(s) && k in s.sessions && s.sessions[k].status.Leaving?
    requires s.sessions[k].sub in s.bus.subs && s.bus.subs[s.sessions[k].sub] == j && j != k
    ensures j in s.bus.chans && s.bus.chans[j].open
    ensures var t := Next(s, UnregisterSession(k));
            j in t.bus.chans && !t.bus.chans[j].open && s.sessions[k].sub !in t.bus.subs
  {
    MappedIsOpen(s.bus, s.sessions[k].sub);
  }
}
