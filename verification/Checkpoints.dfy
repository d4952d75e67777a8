/**
 Checkpoints across whole runs: sessions, disconnects and evictions of every subscriber.
 */
module Checkpoints {
  import opened Domain
  import opened EventLog
  import opened Subscription
  import opened BusModel
  import opened Delivery
  import opened DeliveryGuarantees
  import opened Frames

  /** Some session of the subscriber has sent the event. */
  ghost predicate SentTo(s: State, sub: Id, id: int) {
    exists k {:trigger WasSent(s, k, id)} :: k in s.sessions && s.sessions[k].sub == sub && WasSent(s, k, id)
  }

  /** Publications do not overlap, and a Last-Event-ID header names an event the subscriber was really sent. */
  ghost predicate HonestStep(s: State, step: Step) {
    && SerialStep(s, step)
    && (step.Open? && step.header.Some? && step.sub in s.checkpoints && step.header.value > s.checkpoints[step.sub] ==>
          SentTo(s, step.sub, step.header.value))
  }

  ghost predicate Honest(s: State, steps: seq<Step>)
    decreases steps
  {
    steps == [] || (HonestStep(s, steps[0]) && Honest(Next(s, steps[0]), steps[1..]))
  }

  // ---------------------------------------------------------------- what a session gets past

  /** The session has got past the event: it sent it or a later one, or would write a checkpoint not below it. */
  ghost predicate Reaches(s: State, k: nat, id: int)
    requires k in s.sessions
  {
    var x := s.sessions[k];
    Max(x.start, 0) < id &&
    ((x.phase.Live? && id <= x.lastSent) || exists j {:trigger WasSent(s, k, j)} :: id <= j && WasSent(s, k, j))
  }

  /** The event lies beyond the session's replay page, and was pushed before the session registered. */
  predicate Skips(s: State, k: nat, id: int)
    requires k in s.sessions
  {
    var x := s.sessions[k];
    !x.phase.Opening? && Max(x.start, 0) + REPLAY_LIMIT < id <= x.base
  }

  /** The ids a replaying session has sent. */
  lemma ReplayedSoFar(s: State, k: nat, id: int)
    requires Sound(s) && k in s.sessions && s.sessions[k].phase.Replaying?
    ensures var x := s.sessions[k];
            && (WasSent(s, k, id) <==> Max(x.start, 0) < id <= Max(x.start, 0) + |x.sent|)
            && (x.sent != [] ==> Max(x.start, 0) + |x.sent| <= Max(x.start, 0) + REPLAY_LIMIT)
  {
    assert SessionFollows(s, k);
    hide Sound;
    var x := s.sessions[k];
    var lo := Max(x.start, 0);
    var hi := Min(x.seen, lo + REPLAY_LIMIT);
    assert Page(s, x) == Slice(s.bus.log, lo, hi);
    hide Page;
    SlicePrefix(s.bus.log, lo, hi, |x.sent|);
    assert x.sent == (x.sent + x.phase.rest)[..|x.sent|];
    SliceIds(s.bus.log, lo, lo + |x.sent|, id);
  }

  /** A session has sent exactly what it got past, except what it skipped. */
  lemma SentUnlessSkipped(s: State, k: nat, id: int)
    requires InStep(s) && k in s.sessions
    ensures WasSent(s, k, id) <==> Reaches(s, k, id) && !Skips(s, k, id)
  {
    SessionForm(s, k);
    match s.sessions[k].phase
    case Opening =>
    case Joined =>
    case Replaying(rest) =>
      ReplaySentUnlessSkipped(s, k, id);
    case Live =>
      LiveSentUnlessSkipped(s, k, id);
  }

  lemma SessionForm(s: State, k: nat)
    requires InStep(s) && k in s.sessions
    ensures s.sessions[k].phase.Opening? || s.sessions[k].phase.Joined? ==> s.sessions[k].sent == []
    ensures Sound(s) && (!s.sessions[k].phase.Opening? ==> k in s.bus.chans && Tracked(s, k))
  {
    assert SessionFollows(s, k);
  }

  lemma ReplaySentUnlessSkipped(s: State, k: nat, id: int)
    requires InStep(s) && k in s.sessions && s.sessions[k].phase.Replaying?
    ensures WasSent(s, k, id) <==> Reaches(s, k, id) && !Skips(s, k, id)
  {
    SessionForm(s, k);
    hide InStep, Sound, WasSent;
    ReplayedSoFar(s, k, id);
    if Reaches(s, k, id) {
      var j :| id <= j && WasSent(s, k, j);
      ReplayedSoFar(s, k, j);
    }
  }

  lemma LiveSentUnlessSkipped(s: State, k: nat, id: int)
    requires InStep(s) && k in s.sessions && s.sessions[k].phase.Live?
    ensures WasSent(s, k, id) <==> Reaches(s, k, id) && !Skips(s, k, id)
  {
    SessionForm(s, k);
    hide InStep, WasSent;
    LiveShape(s, k);
    LiveAccount(s, k, id);
    hide Tracked, Slice;
    if Reaches(s, k, id) && id > s.sessions[k].lastSent {
      var j :| id <= j && WasSent(s, k, j);
      LiveAccount(s, k, j);
    }
  }

  // ---------------------------------------------------------------- everything up to the checkpoint is got past

  ghost predicate ReachedBy(s: State, sub: Id, k: nat, id: int) {
    k in s.sessions && s.sessions[k].sub == sub && Reaches(s, k, id)
  }

  ghost predicate Reached(s: State, sub: Id, id: int) {
    exists k :: ReachedBy(s, sub, k, id)
  }

  /** Some session got past every event between the subscriber's initial checkpoint and `upto`. */
  ghost predicate Covers(s: State, sub: Id, upto: int) {
    sub in s.initial && forall id :: Max(s.initial[sub], 0) < id <= upto ==> Reached(s, sub, id)
  }

  ghost predicate Covering(s: State) {
    && (forall sub :: sub in s.checkpoints <==> sub in s.initial)
    && (forall sub :: sub in s.checkpoints ==> Covers(s, sub, s.checkpoints[sub]))
    && (forall k :: k in s.sessions ==>
          s.sessions[k].sub in s.checkpoints && Covers(s, s.sessions[k].sub, s.sessions[k].start))
  }

  /** Whatever a session has sent, or would write as its checkpoint, is covered. */
  lemma CoversThrough(s: State, k: nat, id: int)
    requires Covering(s) && InStep(s) && k in s.sessions
    requires WasSent(s, k, id) || (s.sessions[k].phase.Live? && id == s.sessions[k].lastSent)
    ensures Covers(s, s.sessions[k].sub, id)
  {
    var x := s.sessions[k];
    assert Covers(s, x.sub, x.start);
    hide InStep, WasSent, Covering;
    forall j | Max(s.initial[x.sub], 0) < j <= id ensures Reached(s, x.sub, j) {
      if j > x.start {
        assert Reaches(s, k, j);
        assert ReachedBy(s, x.sub, k, j);
      }
    }
  }

  lemma ReachesGrows(s: State, step: Step, k: nat, id: int)
    requires k in s.sessions && Reaches(s, k, id)
    ensures k in Next(s, step).sessions && Reaches(Next(s, step), k, id)
  {
    SessionAdvances(s, step, k);
    hide Next;
    var t := Next(s, step);
    if !(s.sessions[k].phase.Live? && id <= s.sessions[k].lastSent) {
      var j :| id <= j && WasSent(s, k, j);
      var i :| 0 <= i < |s.sessions[k].sent| && s.sessions[k].sent[i].id == j;
      assert t.sessions[k].sent[i].id == j;
      assert WasSent(t, k, j);
    }
  }

  lemma InitialStays(s: State, step: Step, sub: Id)
    requires sub in s.initial && sub in s.checkpoints
    ensures sub in Next(s, step).initial && Next(s, step).initial[sub] == s.initial[sub]
  {
    hide Next;
    if Publishes(step) {
      PublisherEffect(s, step);
    } else if step.Restart? {
      RestartEffect(s);
    } else {
      SessionEffect(s, step);
    }
  }

  lemma CoversGrows(s: State, step: Step, sub: Id, upto: int)
    requires Covers(s, sub, upto) && sub in s.checkpoints
    ensures Covers(Next(s, step), sub, upto)
  {
    var t := Next(s, step);
    InitialStays(s, step, sub);
    hide Next, Reaches;
    forall id | Max(t.initial[sub], 0) < id <= upto ensures Reached(t, sub, id) {
      assert Reached(s, sub, id);
      var k :| ReachedBy(s, sub, k, id);
      ReachesGrows(s, step, k, id);
      SessionAdvances(s, step, k);
      assert ReachedBy(t, sub, k, id);
    }
  }

  /** The starting point of a new session is covered. */
  lemma StartIsCovered(s: State, sub: Id, header: Option<int>)
    requires Covering(s) && InStep(s) && sub in s.checkpoints
    requires header.Some? && header.value > s.checkpoints[sub] ==> SentTo(s, sub, header.value)
    ensures Covers(s, sub, StartAfter(s.checkpoints[sub], header))
  {
    if header.Some? && header.value > s.checkpoints[sub] {
      var k :| k in s.sessions && s.sessions[k].sub == sub && WasSent(s, k, header.value);
      CoversThrough(s, k, header.value);
    }
  }

  lemma SessionStaysCovered(s: State, step: Step, k: nat)
    requires Covering(s) && InStep(s) && HonestStep(s, step) && k in Next(s, step).sessions
    ensures var t := Next(s, step);
            t.sessions[k].sub in t.checkpoints && Covers(t, t.sessions[k].sub, t.sessions[k].start)
  {
    var t := Next(s, step);
    hide Next, InStep, Covers;
    if step.Restart? {
      RestartEffect(s);
      assert k in s.sessions.Keys;
    }
    if k in s.sessions {
      SessionAdvances(s, step, k);
      CoversGrows(s, step, s.sessions[k].sub, s.sessions[k].start);
      CheckpointsStay(s, step);
    } else if Publishes(step) {
      PublisherEffect(s, step);
    } else {
      SessionEffect(s, step);
      StartIsCovered(s, step.sub, step.header);
      CoversGrows(s, step, step.sub, t.sessions[k].start);
    }
  }

  lemma CheckpointsStay(s: State, step: Step)
    ensures forall sub :: sub in s.checkpoints ==> sub in Next(s, step).checkpoints
  {
    hide Next;
    if Publishes(step) {
      PublisherEffect(s, step);
    } else if step.Restart? {
      RestartEffect(s);
    } else {
      SessionEffect(s, step);
    }
  }

  lemma CheckpointStaysCovered(s: State, step: Step, sub: Id)
    requires Covering(s) && InStep(s) && sub in Next(s, step).checkpoints
    ensures Covers(Next(s, step), sub, Next(s, step).checkpoints[sub])
  {
    var t := Next(s, step);
    hide Next, InStep;
    if sub in s.checkpoints {
      hide Covers;
      CoversGrows(s, step, sub, s.checkpoints[sub]);
      if Publishes(step) {
        PublisherEffect(s, step);
      } else if step.Restart? {
        RestartEffect(s);
      } else {
        SessionEffect(s, step);
        if t.checkpoints != s.checkpoints {
          CoversThrough(s, step.k, s.sessions[step.k].lastSent);
          CoversGrows(s, step, s.sessions[step.k].sub, s.sessions[step.k].lastSent);
        }
      }
    } else {
      NewSubscriber(s, step, sub);
    }
  }

  lemma NewSubscriber(s: State, step: Step, sub: Id)
    requires sub !in s.checkpoints && sub in Next(s, step).checkpoints
    ensures sub in Next(s, step).initial && Next(s, step).initial[sub] == Next(s, step).checkpoints[sub]
  {
    hide Next;
    if Publishes(step) {
      PublisherEffect(s, step);
    } else if step.Restart? {
      RestartEffect(s);
    } else {
      SessionEffect(s, step);
    }
  }

  lemma SameSubscribers(s: State, step: Step, sub: Id)
    requires forall other :: other in s.checkpoints <==> other in s.initial
    ensures sub in Next(s, step).checkpoints <==> sub in Next(s, step).initial
  {
    hide Next;
    if Publishes(step) {
      PublisherEffect(s, step);
    } else if step.Restart? {
      RestartEffect(s);
    } else {
      SessionEffect(s, step);
    }
  }

  lemma CoveringNext(s: State, step: Step)
    requires Covering(s) && InStep(s) && HonestStep(s, step)
    ensures Covering(Next(s, step)) && InStep(Next(s, step))
  {
    hide Covering, InStep, Covers, Next, HonestStep;
    HonestIsSerial(s, step);
    InStepNext(s, step);
    CoveringIs(s);
    var t := Next(s, step);
    forall sub ensures sub in t.checkpoints <==> sub in t.initial {
      SameSubscribers(s, step, sub);
    }
    forall sub | sub in t.checkpoints ensures Covers(t, sub, t.checkpoints[sub]) {
      CheckpointStaysCovered(s, step, sub);
    }
    forall k | k in t.sessions
      ensures t.sessions[k].sub in t.checkpoints && Covers(t, t.sessions[k].sub, t.sessions[k].start)
    {
      SessionStaysCovered(s, step, k);
    }
    CoveringIntro(t);
  }

  lemma HonestIsSerial(s: State, step: Step)
    requires HonestStep(s, step)
    ensures SerialStep(s, step)
  {
    hide SerialStep;
  }

  lemma CoveringIs(s: State)
    requires Covering(s)
    ensures forall sub :: sub in s.checkpoints <==> sub in s.initial
  {
    hide Covers;
  }

  lemma CoveringIntro(s: State)
    requires forall sub :: sub in s.checkpoints <==> sub in s.initial
    requires forall sub :: sub in s.checkpoints ==> Covers(s, sub, s.checkpoints[sub])
    requires forall k :: k in s.sessions ==>
        s.sessions[k].sub in s.checkpoints && Covers(s, s.sessions[k].sub, s.sessions[k].start)
    ensures Covering(s)
  {
    hide Covers;
  }

  lemma {:induction false} CoveringRun(s: State, steps: seq<Step>)
    requires Covering(s) && InStep(s) && Honest(s, steps)
    ensures Covering(Run(s, steps)) && InStep(Run(s, steps))
    decreases steps
  {
    if steps == [] {
    } else {
      CoveringNext(s, steps[0]);
      hide Covering, InStep, Next, HonestStep;
      CoveringRun(Next(s, steps[0]), steps[1..]);
    }
  }

  /**
   What a checkpoint leaves out, exactly.  Over any honest run, across all sessions, disconnects,
   evictions, replaced sessions and restarts, some session got past every event between a
   subscriber's initial and stored checkpoint; and such an event was never sent to it exactly if
   it lay beyond the replay page of every session that got past it, and not above its base.
   */
  lemma UnsentExactly(steps: seq<Step>, sub: Id, id: int)
    requires Honest(START, steps) && sub in Run(START, steps).checkpoints
    ensures var s := Run(START, steps);
            && sub in s.initial
            && (Max(s.initial[sub], 0) < id <= s.checkpoints[sub] ==>
                  && Reached(s, sub, id)
                  && (!SentTo(s, sub, id) <==> forall k :: ReachedBy(s, sub, k, id) ==> Skips(s, k, id)))
  {
    StartIsCovering();
    CoveringRun(START, steps);
    var s := Run(START, steps);
    assert Covers(s, sub, s.checkpoints[sub]);
    hide Run, Honest, Covering, InStep, Reaches, WasSent, Skips;
    forall k | k in s.sessions ensures WasSent(s, k, id) <==> Reaches(s, k, id) && !Skips(s, k, id) {
      SentUnlessSkipped(s, k, id);
    }
    if SentTo(s, sub, id) {
      var k :| k in s.sessions && s.sessions[k].sub == sub && WasSent(s, k, id);
      assert ReachedBy(s, sub, k, id) && !Skips(s, k, id);
    } else {
      forall k | ReachedBy(s, sub, k, id) ensures Skips(s, k, id) {
        assert !WasSent(s, k, id);
      }
    }
  }

  lemma StartIsCovering()
    ensures Covering(START) && InStep(START)
  {
  }

  // ---------------------------------------------------------------- when nothing is left out

  /** A session registers with at most a page of backlog. */
  predicate SmallStep(s: State, step: Step) {
    step.RegisterSession? && Has(s, step.k, Opening) ==>
      Pushed(s) <= Max(s.sessions[step.k].start, 0) + REPLAY_LIMIT
  }

  ghost predicate Careful(s: State, steps: seq<Step>)
    decreases steps
  {
    steps == [] ||
    (HonestStep(s, steps[0]) && SmallStep(s, steps[0]) && Careful(Next(s, steps[0]), steps[1..]))
  }

  ghost predicate AllSmall(s: State) {
    forall k :: k in s.sessions && !s.sessions[k].phase.Opening? ==> SmallBacklog(s.sessions[k])
  }

  lemma SmallNext(s: State, step: Step)
    requires AllSmall(s) && SmallStep(s, step)
    ensures AllSmall(Next(s, step))
  {
    var t := Next(s, step);
    hide Next, Pushed;
    if Publishes(step) {
      PublisherEffect(s, step);
    } else if step.Restart? {
      RestartEffect(s);
      assert forall k :: k in t.sessions ==> k in s.sessions.Keys;
    } else {
      SessionEffect(s, step);
      if step.k in s.sessions && s.sessions[step.k].phase.Opening? && !t.sessions[step.k].phase.Opening? {
        RegistersOnly(s, step);
      }
    }
  }

  lemma RegistersOnly(s: State, step: Step)
    requires !Publishes(step) && !step.Restart? && step.k in s.sessions && s.sessions[step.k].phase.Opening?
    requires step.k in Next(s, step).sessions && !Next(s, step).sessions[step.k].phase.Opening?
    ensures step.RegisterSession? && Has(s, step.k, Opening)
  {
    hide Register, Unregister, Take, EventsAfter, Pushed;
  }

  lemma {:induction false} CarefulRun(s: State, steps: seq<Step>)
    requires AllSmall(s) && Careful(s, steps)
    ensures AllSmall(Run(s, steps)) && Honest(s, steps)
    decreases steps
  {
    if steps == [] {
    } else {
      SmallNext(s, steps[0]);
      hide AllSmall, Next, HonestStep, SmallStep;
      CarefulRun(Next(s, steps[0]), steps[1..]);
    }
  }

  /**
   Checkpoint safety.  When moreover every session registers with at most a page of backlog,
   every event between a subscriber's initial and stored checkpoint was sent to it in some
   session: an eviction loses nothing.
   */
  lemma CheckpointsAccountForEverything(steps: seq<Step>, sub: Id, id: int)
    requires Careful(START, steps) && sub in Run(START, steps).checkpoints
    ensures var s := Run(START, steps);
            sub in s.initial && (Max(s.initial[sub], 0) < id <= s.checkpoints[sub] ==> SentTo(s, sub, id))
  {
    CarefulRun(START, steps);
    UnsentExactly(steps, sub, id);
    var s := Run(START, steps);
    hide Run, Careful, Honest, Reaches;
    if Reached(s, sub, id) {
      var k :| ReachedBy(s, sub, k, id);
      assert !Skips(s, k, id);
    }
  }

  // ---------------------------------------------------------------- one session at a time

  /** A subscriber opens a session only when its earlier ones are completely gone. */
  predicate ExclusiveStep(s: State, step: Step) {
    step.Open? ==> forall j :: j in s.sessions && s.sessions[j].sub == step.sub ==> s.sessions[j].status.Gone?
  }

  predicate Exclusive(s: State, steps: seq<Step>)
    decreases steps
  {
    steps == [] || (ExclusiveStep(s, steps[0]) && Exclusive(Next(s, steps[0]), steps[1..]))
  }

  /** Sessions of one subscriber that are not gone are the same session. */
  predicate AtMostOne(s: State) {
    forall j, k {:trigger s.sessions[j], s.sessions[k]} ::
      (j in s.sessions && k in s.sessions && s.sessions[j].sub == s.sessions[k].sub
       && !s.sessions[j].status.Gone? && !s.sessions[k].status.Gone?) ==> j == k
  }

  /** No running session started from below the stored checkpoint of its subscriber. */
  predicate NotBehind(s: State) {
    forall k :: k in s.sessions && s.sessions[k].status.Running? ==>
      s.sessions[k].sub in s.checkpoints && s.checkpoints[s.sessions[k].sub] <= s.sessions[k].start
  }

  ghost predicate OneSession(s: State) {
    Sound(s) && AtMostOne(s) && NotBehind(s)
  }

  lemma LastSentNotBehind(s: State, k: nat)
    requires Sound(s) && k in s.sessions
    ensures s.sessions[k].start <= s.sessions[k].lastSent
  {
    assert SessionFollows(s, k);
    if s.sessions[k].phase.Live? {
      FollowClimbs(Cursor(s.sessions[k].start, []), s.bus.chans[k].taken);
    }
  }

  ghost predicate NotLowered(s: State, t: State) {
    forall sub :: sub in s.checkpoints ==> sub in t.checkpoints && s.checkpoints[sub] <= t.checkpoints[sub]
  }

  lemma OneSessionIntro(t: State)
    requires Sound(t) && AtMostOne(t) && NotBehind(t)
    ensures OneSession(t)
  {
  }

  lemma OneSessionIs(s: State)
    requires OneSession(s)
    ensures Sound(s) && AtMostOne(s) && NotBehind(s)
  {
  }

  /** Opening a session when the subscriber's earlier ones are gone leaves at most one. */
  lemma StillOne(s: State, t: State, step: Step)
    requires !Publishes(step) && !step.Restart? && AtMostOne(s) && ExclusiveStep(s, step) && Touches(s, t, step)
    ensures AtMostOne(t)
  {
    hide Progresses;
  }

  /** Only the subscriber's one session writes its checkpoint, and it is not behind. */
  lemma StillNotBehind(s: State, t: State, step: Step)
    requires !Publishes(step) && !step.Restart? && OneSession(s) && Touches(s, t, step)
    ensures NotBehind(t) && NotLowered(s, t)
  {
    hide Sound, OneSession, Progresses;
    OneSessionIs(s);
    if t.checkpoints != s.checkpoints {
      LastSentNotBehind(s, step.k);
    }
  }

  lemma OneSessionNext(s: State, step: Step)
    requires OneSession(s) && ExclusiveStep(s, step)
    ensures OneSession(Next(s, step)) && NotLowered(s, Next(s, step))
  {
    OneSessionIs(s);
    SoundNext(s, step);
    var t := Next(s, step);
    hide Sound, Next, Touches, OneSession;
    if Publishes(step) {
      PublisherEffect(s, step);
    } else if step.Restart? {
      RestartEffect(s);
      assert forall k :: k in t.sessions ==> k in s.sessions.Keys;
    } else {
      SessionEffect(s, step);
      StillOne(s, t, step);
      StillNotBehind(s, t, step);
    }
    OneSessionIntro(t);
  }

  /**
   When a subscriber's sessions do not overlap, its stored checkpoint never decreases, however
   publications interleave.
   */
  lemma {:induction false} CheckpointsNeverFall(s: State, steps: seq<Step>)
    requires OneSession(s) && Exclusive(s, steps)
    ensures OneSession(Run(s, steps))
    ensures NotLowered(s, Run(s, steps))
    decreases steps
  {
    if steps == [] {
    } else {
      OneSessionNext(s, steps[0]);
      CheckpointsNeverFall(Next(s, steps[0]), steps[1..]);
    }
  }

  // ---------------------------------------------------------------- when a checkpoint falls

  /** A live session that is behind the stored checkpoint leaves, and its write lands. */
  predicate WritesBehind(s: State, step: Step, sub: Id)
    requires sub in s.checkpoints
  {
    step.Cancel? && step.written && Has(s, step.k, Live) && s.sessions[step.k].sub == sub &&
    s.sessions[step.k].lastSent < s.checkpoints[sub]
  }

  /** In any state at all, a step lowers a stored checkpoint exactly when a session behind it writes. */
  lemma LoweredExactly(s: State, step: Step, sub: Id)
    requires sub in s.checkpoints
    ensures sub in Next(s, step).checkpoints
    ensures Next(s, step).checkpoints[sub] < s.checkpoints[sub] <==> WritesBehind(s, step, sub)
  {
    if Publishes(step) {
      PublisherEffect(s, step);
    } else if step.Restart? {
      RestartEffect(s);
    } else if step.Cancel? {
      assert Next(s, step) == DoCancel(s, step.k, step.written);
    } else {
      SessionEffect(s, step);
    }
    hide Next, DoCancel;
  }

  ghost predicate NeverLowered(s: State, steps: seq<Step>, sub: Id)
    requires sub in s.checkpoints
    decreases steps
  {
    LoweredExactly(s, if steps == [] then Restart else steps[0], sub);
    steps == [] ||
    (s.checkpoints[sub] <= Next(s, steps[0]).checkpoints[sub] && NeverLowered(Next(s, steps[0]), steps[1..], sub))
  }

  ghost predicate NeverBehind(s: State, steps: seq<Step>, sub: Id)
    requires sub in s.checkpoints
    decreases steps
  {
    LoweredExactly(s, if steps == [] then Restart else steps[0], sub);
    steps == [] || (!WritesBehind(s, steps[0], sub) && NeverBehind(Next(s, steps[0]), steps[1..], sub))
  }

  /**
   In every run, overlapping sessions or not, a subscriber's stored checkpoint never decreases
   if and only if no session of that subscriber writes from behind it.
   */
  lemma {:induction false} CheckpointNeverFallsExactly(s: State, steps: seq<Step>, sub: Id)
    requires sub in s.checkpoints
    ensures NeverLowered(s, steps, sub) <==> NeverBehind(s, steps, sub)
    decreases steps
  {
    if steps == [] {
    } else {
      LoweredExactly(s, steps[0], sub);
      hide Next, WritesBehind;
      CheckpointNeverFallsExactly(Next(s, steps[0]), steps[1..], sub);
    }
  }

  /** Sessions that do not overlap are never behind, from whatever point of a run on. */
  lemma {:induction false} ExclusiveIsNeverBehind(s: State, steps: seq<Step>, sub: Id)
    requires OneSession(s) && Exclusive(s, steps) && sub in s.checkpoints
    ensures NeverBehind(s, steps, sub)
    decreases steps
  {
    if steps == [] {
    } else {
      OneSessionNext(s, steps[0]);
      LoweredExactly(s, steps[0], sub);
      hide Next, WritesBehind, OneSession;
      ExclusiveIsNeverBehind(Next(s, steps[0]), steps[1..], sub);
    }
  }
}
