/**
 Event delivery as a protocol.  Publishers append an event, push it, and evict slow
 subscribers in three separate steps; sessions read the checkpoint, register, replay, send
 and leave in separate steps; any step of one, and a restart of the process, may fall between
 any two steps of another.
 A step that is not enabled changes nothing, so every sequence of steps is a run.
 */
module Delivery {
  import opened Domain
  import opened EventLog
  import opened Subscription
  import opened BusModel

  datatype Phase = Opening | Joined | Replaying(rest: seq<Event>) | Live

  datatype Status = Running | Leaving | Gone

  /**
   `sent` is everything written to the client.  Two fields only record history: `base`, how
   many events had been pushed when the session registered, and `seen`, how long the log was
   when the replay page was read.
   */
  datatype Session = Session(sub: Id, start: int, lastSent: int, sent: seq<Event>,
                             phase: Phase, status: Status, base: nat, seen: nat)

  /** A publication in progress: appended but not pushed, or pushed with these subscribers to evict. */
  datatype Publication = Logged | Evicting(ids: set<Id>)

  datatype State = State(bus: Bus, pubs: map<int, Publication>, sessions: map<nat, Session>,
                         checkpoints: map<Id, int>, initial: map<Id, int>)

  datatype Step =
    | EnsureSubscriber(sub: Id, last: int)
    | AppendEvent(body: string)
    | PushEvent(id: int)
    | EvictSlow(id: int)
    | Open(k: nat, sub: Id, header: Option<int>)
    | RegisterSession(k: nat)
    | ReadPage(k: nat)
    | SendReplayed(k: nat)
    | Deliver(k: nat)
    | Cancel(k: nat, written: bool)
    | SeeDone(k: nat)
    | UnregisterSession(k: nat)
    | Restart

  const START := State(Bus([], map[], map[]), map[], map[], map[], map[])

  /** How much of the log is left when the events at its end that wait to be pushed are dropped. */
  function LastPushed(pubs: map<int, Publication>, n: nat): (p: nat)
    ensures p <= n && (forall id :: p < id <= n ==> id in pubs && pubs[id].Logged?)
    ensures p > 0 ==> !(p in pubs && pubs[p].Logged?)
  {
    if n > 0 && n in pubs && pubs[n].Logged? then LastPushed(pubs, n - 1) else n
  }

  /** How many events have been pushed, when they are pushed in the order of the log. */
  function Pushed(s: State): nat { LastPushed(s.pubs, |s.bus.log|) }

  predicate Has(s: State, k: nat, phase: Phase) {
    k in s.sessions && s.sessions[k].status == Running && s.sessions[k].phase == phase
  }

  function Put(s: State, k: nat, x: Session): State {
    s.(sessions := s.sessions[k := x])
  }

  // ---------------------------------------------------------------- publishers

  function DoEnsure(s: State, sub: Id, last: int): State {
    if sub in s.checkpoints then s
    else s.(checkpoints := s.checkpoints[sub := last], initial := s.initial[sub := last])
  }

  function DoAppend(s: State, body: string): State {
    s.(bus := Append(s.bus, body), pubs := s.pubs[|s.bus.log| + 1 := Logged])
  }

  function DoPush(s: State, id: int): State {
    if id in s.pubs && s.pubs[id].Logged? && 1 <= id <= |s.bus.log| then
      s.(bus := Push(s.bus, Event(id, s.bus.log[id - 1])), pubs := s.pubs[id := Evicting(Full(s.bus))])
    else s
  }

  function DoEvict(s: State, id: int): State {
    if id in s.pubs && s.pubs[id].Evicting? then
      s.(bus := Evict(s.bus, s.pubs[id].ids), pubs := s.pubs - {id})
    else s
  }

  // ---------------------------------------------------------------- one session

  function DoOpen(s: State, k: nat, sub: Id, header: Option<int>): State {
    if k !in s.sessions && k !in s.bus.chans && sub in s.checkpoints then
      var start := StartAfter(s.checkpoints[sub], header);
      Put(s, k, Session(sub, start, start, [], Opening, Running, 0, 0))
    else s
  }

  function DoRegister(s: State, k: nat): State {
    if Has(s, k, Opening) then
      var x := s.sessions[k];
      Put(s, k, x.(phase := Joined, base := Pushed(s))).(bus := Register(s.bus, x.sub, k))
    else s
  }

  function DoReadPage(s: State, k: nat): State {
    if Has(s, k, Joined) then
      var x := s.sessions[k];
      Put(s, k, x.(phase := Replaying(EventsAfter(s.bus.log, x.start, REPLAY_LIMIT)), seen := |s.bus.log|))
    else s
  }

  function DoSendReplayed(s: State, k: nat): State {
    if k in s.sessions && s.sessions[k].status.Running? && s.sessions[k].phase.Replaying? then
      var x := s.sessions[k];
      var rest := x.phase.rest;
      if rest == [] then Put(s, k, x.(phase := Live))
      else Put(s, k, x.(sent := x.sent + [rest[0]], phase := Replaying(rest[1..])))
    else s
  }

  function DoDeliver(s: State, k: nat): State {
    if Has(s, k, Live) && k in s.bus.chans && s.bus.chans[k].queue != [] then
      var x := s.sessions[k];
      var c := Offer(Cursor(x.lastSent, x.sent), s.bus.chans[k].queue[0]);
      Put(s, k, x.(lastSent := c.lastSent, sent := c.sent)).(bus := Take(s.bus, k))
    else s
  }

  /**
   The client goes away.  During the replay the session just stops; afterwards it writes its
   checkpoint, under the very context that was cancelled, so the write may or may not land.
   */
  function DoCancel(s: State, k: nat, written: bool): State {
    if k in s.sessions && s.sessions[k].status.Running? && !s.sessions[k].phase.Opening? then
      var x := s.sessions[k];
      var t := Put(s, k, x.(status := Leaving));
      var lands := x.phase.Live? && written && x.sub in s.checkpoints;
      if lands then t.(checkpoints := s.checkpoints[x.sub := x.lastSent]) else t
    else s
  }

  function DoSeeDone(s: State, k: nat): State {
    if Has(s, k, Live) && k in s.bus.chans && !s.bus.chans[k].open then Put(s, k, s.sessions[k].(status := Leaving))
    else s
  }

  function DoUnregister(s: State, k: nat): State {
    if k in s.sessions && s.sessions[k].status.Leaving? then
      Put(s, k, s.sessions[k].(status := Gone)).(bus := Unregister(s.bus, s.sessions[k].sub))
    else s
  }

  /** The process dies and starts again: the table and the checkpoints survive, nothing in memory does. */
  function DoRestart(s: State): State {
    State(Silence(s.bus), map[], map k | k in s.sessions :: s.sessions[k].(status := Gone), s.checkpoints, s.initial)
  }

  function Next(s: State, step: Step): State {
    match step
    case EnsureSubscriber(sub, last) => DoEnsure(s, sub, last)
    case AppendEvent(body) => DoAppend(s, body)
    case PushEvent(id) => DoPush(s, id)
    case EvictSlow(id) => DoEvict(s, id)
    case Open(k, sub, header) => DoOpen(s, k, sub, header)
    case RegisterSession(k) => DoRegister(s, k)
    case ReadPage(k) => DoReadPage(s, k)
    case SendReplayed(k) => DoSendReplayed(s, k)
    case Deliver(k) => DoDeliver(s, k)
    case Cancel(k, written) => DoCancel(s, k, written)
    case SeeDone(k) => DoSeeDone(s, k)
    case UnregisterSession(k) => DoUnregister(s, k)
    case Restart => DoRestart(s)
  }

  function Run(s: State, steps: seq<Step>): State
    decreases steps
  {
    if steps == [] then s else Run(Next(s, steps[0]), steps[1..])
  }

  /** A session starts at the later of its checkpoint and the id its client names, with nothing sent. */
  lemma OpenStartsAtTheLater(s: State, k: nat, sub: Id, header: Option<int>)
    requires k !in s.sessions && k !in s.bus.chans && sub in s.checkpoints
    ensures var t := Next(s, Open(k, sub, header));
            && k in t.sessions && t == s.(sessions := s.sessions[k := t.sessions[k]])
            && var x := t.sessions[k];
               && x.sub == sub && x.sent == [] && x.phase == Opening && x.status == Running && x.lastSent == x.start
               && s.checkpoints[sub] <= x.start && (header.Some? ==> header.value <= x.start)
               && (x.start == s.checkpoints[sub] || header == Some(x.start))
  {
  }

  // ---------------------------------------------------------------- every run

  function Page(s: State, x: Session): seq<Event> {
    EventsAfter(s.bus.log[..Min(x.seen, |s.bus.log|)], x.start, REPLAY_LIMIT)
  }

  /** What a session has sent is part of its page followed by the handler's response to what it took. */
  ghost predicate SessionFollows(s: State, k: nat)
    requires k in s.sessions && (k in s.bus.chans <==> !s.sessions[k].phase.Opening?)
  {
    var x := s.sessions[k];
    && x.seen <= |s.bus.log|
    && match x.phase
       case Opening => x.sent == [] && x.lastSent == x.start
       case Joined => x.sent == [] && x.lastSent == x.start && s.bus.chans[k].taken == []
       case Replaying(rest) => x.sent + rest == Page(s, x) && x.lastSent == x.start && s.bus.chans[k].taken == []
       case Live =>
         var c := Follow(Cursor(x.start, []), s.bus.chans[k].taken);
         x.sent == Page(s, x) + c.sent && x.lastSent == c.lastSent
  }

  ghost predicate Sound(s: State) {
    && WellFormed(s.bus)
    && (forall k :: k in s.bus.chans ==> k in s.sessions && s.bus.chans[k].sub == s.sessions[k].sub)
    && (forall k :: k in s.sessions ==>
          && (k in s.bus.chans <==> !s.sessions[k].phase.Opening?)
          && SessionFollows(s, k))
  }

  lemma PageStable(s: State, body: string, x: Session)
    requires x.seen <= |s.bus.log|
    ensures Page(s.(bus := Append(s.bus, body)), x) == Page(s, x)
  {
    assert (s.bus.log + [body])[..x.seen] == s.bus.log[..x.seen];
  }

  /** A session's history does not depend on its status, nor on anything outside its own channel and the log. */
  lemma UnmovedFollows(s: State, t: State, k: nat)
    requires k in s.sessions && (k in s.bus.chans <==> !s.sessions[k].phase.Opening?) && SessionFollows(s, k)
    requires k in t.sessions && (k in t.bus.chans <==> k in s.bus.chans) && t.bus.log == s.bus.log
    requires t.sessions[k].(status := Running) == s.sessions[k].(status := Running)
    requires k in s.bus.chans ==> t.bus.chans[k].taken == s.bus.chans[k].taken
    ensures (k in t.bus.chans <==> !t.sessions[k].phase.Opening?) && SessionFollows(t, k)
  {
    hide Page, Follow;
    assert Page(t, t.sessions[k]) == Page(s, s.sessions[k]) by {
      PageUnmoved(s, t, s.sessions[k], t.sessions[k]);
    }
  }

  lemma PageUnmoved(s: State, t: State, x: Session, y: Session)
    requires t.bus.log == s.bus.log && y.seen == x.seen && y.start == x.start
    ensures Page(t, y) == Page(s, x)
  {
  }

  lemma SoundIntro(t: State)
    requires WellFormed(t.bus)
    requires forall k :: k in t.bus.chans ==> k in t.sessions && t.bus.chans[k].sub == t.sessions[k].sub
    requires forall k :: k in t.sessions ==>
        (k in t.bus.chans <==> !t.sessions[k].phase.Opening?) && SessionFollows(t, k)
    ensures Sound(t)
  {
  }

  lemma SoundFacts(s: State, k: nat)
    requires Sound(s)
    ensures WellFormed(s.bus)
    ensures k in s.bus.chans ==> k in s.sessions && s.bus.chans[k].sub == s.sessions[k].sub
    ensures k in s.sessions ==> (k in s.bus.chans <==> !s.sessions[k].phase.Opening?) && SessionFollows(s, k)
  {
  }

  /** Nothing changes but one session and what was taken from its channel. */
  lemma PutFollows(s: State, k: nat, x: Session, t: State)
    requires Sound(s) && t.bus.log == s.bus.log && WellFormed(t.bus) && t.sessions == s.sessions[k := x]
    requires t.bus.chans.Keys == s.bus.chans.Keys
    requires forall j :: j in s.bus.chans && j != k ==>
        t.bus.chans[j].sub == s.bus.chans[j].sub && t.bus.chans[j].taken == s.bus.chans[j].taken
    requires k in t.bus.chans <==> !x.phase.Opening?
    requires k in t.bus.chans ==> t.bus.chans[k].sub == x.sub
    requires SessionFollows(t, k)
    ensures Sound(t)
  {
    hide Sound, WellFormed, SessionFollows;
    forall j | j in t.sessions ensures (j in t.bus.chans <==> !t.sessions[j].phase.Opening?) && SessionFollows(t, j) {
      assert j in s.bus.chans.Keys <==> j in t.bus.chans.Keys;
      if j != k {
        SoundFacts(s, j);
        UnmovedFollows(s, t, j);
      }
    }
    forall j | j in t.bus.chans ensures j in t.sessions && t.bus.chans[j].sub == t.sessions[j].sub {
      assert j in s.bus.chans.Keys;
      SoundFacts(s, j);
    }
    SoundIntro(t);
  }

  /** No session changes, and every channel keeps its owner and what was taken from it. */
  lemma BusFollows(s: State, t: State)
    requires Sound(s) && t.sessions == s.sessions && t.bus.log == s.bus.log && WellFormed(t.bus)
    requires t.bus.chans.Keys == s.bus.chans.Keys
    requires forall k :: k in s.bus.chans ==>
        t.bus.chans[k].sub == s.bus.chans[k].sub && t.bus.chans[k].taken == s.bus.chans[k].taken
    ensures Sound(t)
  {
    hide WellFormed, EventsAfter, Follow;
    forall j | j in s.sessions ensures (j in t.bus.chans <==> !t.sessions[j].phase.Opening?) && SessionFollows(t, j) {
      assert SessionFollows(s, j);
      assert j in s.bus.chans.Keys <==> j in t.bus.chans.Keys;
    }
    forall k | k in t.bus.chans ensures k in t.sessions && t.bus.chans[k].sub == t.sessions[k].sub {
      assert k in s.bus.chans.Keys;
    }
  }

  lemma AppendFollows(s: State, body: string)
    requires Sound(s)
    ensures Sound(DoAppend(s, body))
  {
    AppendKeeps(s.bus, body);
    hide WellFormed, EventsAfter, Follow;
    var t := DoAppend(s, body);
    forall k | k in s.sessions ensures SessionFollows(t, k) {
      assert SessionFollows(s, k);
      PageStable(s, body, s.sessions[k]);
      assert Page(t, s.sessions[k]) == Page(s, s.sessions[k]);
    }
  }

  lemma EnsureFollows(s: State, sub: Id, last: int)
    requires Sound(s)
    ensures Sound(DoEnsure(s, sub, last))
  {
    BusFollows(s, DoEnsure(s, sub, last));
  }

  lemma PublishStepsFollow(s: State, id: int)
    requires Sound(s)
    ensures Sound(DoPush(s, id)) && Sound(DoEvict(s, id))
  {
    if id in s.pubs && s.pubs[id].Logged? && 1 <= id <= |s.bus.log| {
      PushKeeps(s.bus, Event(id, s.bus.log[id - 1]));
      BusFollows(s, DoPush(s, id));
    }
    if id in s.pubs && s.pubs[id].Evicting? {
      EvictKeeps(s.bus, s.pubs[id].ids);
      BusFollows(s, DoEvict(s, id));
    }
  }

  lemma OpenFollows(s: State, k: nat, sub: Id, header: Option<int>)
    requires Sound(s)
    ensures Sound(DoOpen(s, k, sub, header))
  {
    var t := DoOpen(s, k, sub, header);
    if t != s {
      PutFollows(s, k, t.sessions[k], t);
    }
  }

  lemma ReplayStepsFollow(s: State, k: nat)
    requires Sound(s)
    ensures Sound(DoReadPage(s, k)) && Sound(DoSendReplayed(s, k))
  {
    hide WellFormed, EventsAfter;
    if Has(s, k, Joined) {
      assert SessionFollows(s, k);
      assert s.bus.log[..|s.bus.log|] == s.bus.log;
      PutFollows(s, k, DoReadPage(s, k).sessions[k], DoReadPage(s, k));
    }
    if k in s.sessions && s.sessions[k].status.Running? && s.sessions[k].phase.Replaying? {
      assert SessionFollows(s, k);
      var sent, rest := s.sessions[k].sent, s.sessions[k].phase.rest;
      assert sent + rest == if rest == [] then sent + [] else (sent + [rest[0]]) + rest[1..];
      PutFollows(s, k, DoSendReplayed(s, k).sessions[k], DoSendReplayed(s, k));
    }
  }

  lemma LeavingFollows(s: State, k: nat, written: bool)
    requires Sound(s)
    ensures Sound(DoCancel(s, k, written)) && Sound(DoSeeDone(s, k))
  {
    hide WellFormed, EventsAfter, Follow;
    var t, u := DoCancel(s, k, written), DoSeeDone(s, k);
    if t != s {
      assert SessionFollows(s, k);
      PutFollows(s, k, t.sessions[k], t);
    }
    if u != s {
      assert SessionFollows(s, k);
      PutFollows(s, k, u.sessions[k], u);
    }
  }

  lemma RegisterFollows(s: State, k: nat)
    requires Sound(s)
    ensures Sound(DoRegister(s, k))
  {
    hide Sound, WellFormed, SessionFollows, Register, Pushed;
    if Has(s, k, Opening) {
      SoundFacts(s, k);
      RegisterKeeps(s.bus, s.sessions[k].sub, k);
      RegisterChannels(s.bus, s.sessions[k].sub, k);
      var t := DoRegister(s, k);
      forall j | j in t.sessions ensures (j in t.bus.chans <==> !t.sessions[j].phase.Opening?) && SessionFollows(t, j) {
        SoundFacts(s, j);
        if j == k {
          JustJoined(s, t, k);
        } else {
          UnmovedFollows(s, t, j);
        }
      }
      forall j | j in t.bus.chans ensures j in t.sessions && t.bus.chans[j].sub == t.sessions[j].sub {
        SoundFacts(s, j);
      }
      SoundIntro(t);
    }
  }

  lemma RegisterChannels(b: Bus, id: Id, h: nat)
    ensures var r := Register(b, id, h);
            && r.log == b.log && h in r.chans && r.chans[h] == Chan(id, [], [], true)
            && forall j :: j != h ==>
                 && (j in r.chans <==> j in b.chans)
                 && (j in b.chans ==> r.chans[j].sub == b.chans[j].sub && r.chans[j].taken == b.chans[j].taken)
  {
  }

  lemma JustJoined(s: State, t: State, k: nat)
    requires k in s.sessions && k !in s.bus.chans && s.sessions[k].phase.Opening? && SessionFollows(s, k)
    requires k in t.sessions && k in t.bus.chans && t.bus.chans[k].taken == [] && t.bus.log == s.bus.log
    requires t.sessions[k] == s.sessions[k].(phase := Joined, base := t.sessions[k].base)
    ensures SessionFollows(t, k)
  {
  }

  lemma DeliverFollows(s: State, k: nat)
    requires Sound(s)
    ensures Sound(DoDeliver(s, k))
  {
    if Has(s, k, Live) && k in s.bus.chans && s.bus.chans[k].queue != [] {
      TakeKeeps(s.bus, k);
      hide WellFormed, EventsAfter, Follow;
      var x, e := s.sessions[k], s.bus.chans[k].queue[0];
      var c := Follow(Cursor(x.start, []), s.bus.chans[k].taken);
      assert SessionFollows(s, k);
      FollowSnoc(Cursor(x.start, []), s.bus.chans[k].taken, e);
      assert (Page(s, x) + c.sent) + [e] == Page(s, x) + (c.sent + [e]);
      var t := DoDeliver(s, k);
      assert SessionFollows(t, k);
      assert t.bus.chans.Keys == s.bus.chans.Keys;
      PutFollows(s, k, t.sessions[k], t);
    }
  }

  lemma UnregisterFollows(s: State, k: nat)
    requires Sound(s)
    ensures Sound(DoUnregister(s, k))
  {
    hide Sound, WellFormed, SessionFollows, Unregister;
    if k in s.sessions && s.sessions[k].status.Leaving? {
      SoundFacts(s, k);
      UnregisterKeeps(s.bus, s.sessions[k].sub);
      UnregisterChannels(s.bus, s.sessions[k].sub);
      StatusesFollow(s, DoUnregister(s, k));
    }
  }

  lemma UnregisterChannels(b: Bus, id: Id)
    ensures var r := Unregister(b, id);
            && r.log == b.log && r.chans.Keys == b.chans.Keys
            && forall j :: j in b.chans ==> r.chans[j].sub == b.chans[j].sub && r.chans[j].taken == b.chans[j].taken
  {
  }

  /** Only statuses change, and which channels are open and mapped. */
  lemma StatusesFollow(s: State, t: State)
    requires Sound(s) && WellFormed(t.bus) && t.bus.log == s.bus.log
    requires t.bus.chans.Keys == s.bus.chans.Keys && t.sessions.Keys == s.sessions.Keys
    requires forall j :: j in s.bus.chans ==>
        t.bus.chans[j].sub == s.bus.chans[j].sub && t.bus.chans[j].taken == s.bus.chans[j].taken
    requires forall j :: j in s.sessions ==>
        t.sessions[j].(status := Running) == s.sessions[j].(status := Running)
    ensures Sound(t)
  {
    hide Sound, WellFormed, SessionFollows;
    forall j | j in t.sessions ensures (j in t.bus.chans <==> !t.sessions[j].phase.Opening?) && SessionFollows(t, j) {
      assert j in s.sessions.Keys && (j in s.bus.chans.Keys <==> j in t.bus.chans.Keys);
      SoundFacts(s, j);
      UnmovedFollows(s, t, j);
    }
    forall j | j in t.bus.chans ensures j in t.sessions && t.bus.chans[j].sub == t.sessions[j].sub {
      assert j in s.bus.chans.Keys;
      SoundFacts(s, j);
      assert j in t.sessions.Keys;
      assert t.sessions[j].(status := Running).sub == s.sessions[j].(status := Running).sub;
    }
    SoundIntro(t);
  }

  lemma RestartFollows(s: State)
    requires Sound(s)
    ensures Sound(DoRestart(s))
  {
    hide Sound, WellFormed, SessionFollows;
    SoundFacts(s, 0);
    SilenceKeeps(s.bus);
    StatusesFollow(s, DoRestart(s));
  }

  lemma SoundNext(s: State, step: Step)
    requires Sound(s)
    ensures Sound(Next(s, step))
  {
    hide Sound, DoEnsure, DoAppend, DoPush, DoEvict, DoOpen, DoRegister, DoReadPage, DoSendReplayed, DoDeliver;
    hide DoCancel, DoSeeDone, DoUnregister, DoRestart;
    match step
    case EnsureSubscriber(sub, last) => EnsureFollows(s, sub, last);
    case AppendEvent(body) => AppendFollows(s, body);
    case PushEvent(id) => PublishStepsFollow(s, id);
    case EvictSlow(id) => PublishStepsFollow(s, id);
    case Open(k, sub, header) => OpenFollows(s, k, sub, header);
    case RegisterSession(k) => RegisterFollows(s, k);
    case ReadPage(k) => ReplayStepsFollow(s, k);
    case SendReplayed(k) => ReplayStepsFollow(s, k);
    case Deliver(k) => DeliverFollows(s, k);
    case Cancel(k, written) => LeavingFollows(s, k, written);
    case SeeDone(k) => LeavingFollows(s, k, false);
    case UnregisterSession(k) => UnregisterFollows(s, k);
    case Restart => RestartFollows(s);
  }

  lemma {:induction false} SoundRun(s: State, steps: seq<Step>)
    requires Sound(s)
    ensures Sound(Run(s, steps))
    decreases steps
  {
    if steps == [] {
    } else {
      SoundNext(s, steps[0]);
      SoundRun(Next(s, steps[0]), steps[1..]);
    }
  }

  /**
   In every run, whatever the publishers and other sessions do, a session sends no event more
   than twice, and twice only when it is both on the replay page and among the events that
   entered its queue after it registered.
   */
  lemma NoThirdCopy(steps: seq<Step>, k: nat, id: int)
    requires k in Run(START, steps).sessions
    ensures var s := Run(START, steps);
            var x := s.sessions[k];
            && CountId(x.sent, id) <= 2
            && (CountId(x.sent, id) == 2 ==>
                 HasId(Page(s, x), id) && k in s.bus.chans && HasId(s.bus.chans[k].taken, id))
  {
    SoundRun(START, steps);
    var s := Run(START, steps);
    var x := s.sessions[k];
    EventsAfterMeaning(s.bus.log[..x.seen], x.start, REPLAY_LIMIT, id);
    match x.phase
    case Opening =>
    case Joined =>
    case Replaying(rest) =>
      CountConcat(x.sent, rest, id);
      CountAscending(Page(s, x), id);
    case Live =>
      AtMostTwice(s.bus.log[..x.seen], x.start, s.bus.chans[k].taken, id);
  }

  /**
   In every run, publications overlapping or not, a live session has sent an event exactly when
   it is on the replay page, or came out of the queue newer than the start and than everything
   taken before it.
   */
  lemma LiveSentExactly(steps: seq<Step>, k: nat, id: int)
    requires k in Run(START, steps).sessions && Run(START, steps).sessions[k].phase.Live?
    ensures var s := Run(START, steps);
            var x := s.sessions[k];
            && k in s.bus.chans
            && (HasId(x.sent, id) <==> HasId(Page(s, x), id) || NewestTaken(x.start, s.bus.chans[k].taken, id))
  {
    SoundRun(START, steps);
    var s := Run(START, steps);
    var x := s.sessions[k];
    assert SessionFollows(s, k);
    HasIdConcat(Page(s, x), Follow(Cursor(x.start, []), s.bus.chans[k].taken).sent, id);
    FollowSendsNewest(x.start, s.bus.chans[k].taken, id);
  }

  // ---------------------------------------------------------------- the protocol and the handler

  /** What the handler does on the log as the session read it, if it has taken these events and then sees `last`. */
  function Handled(s: State, k: nat, last: seq<Signal>): Outcome
    requires k in s.sessions && k in s.bus.chans
  {
    var x := s.sessions[k];
    SessionOutcome(s.bus.log[..Min(x.seen, |s.bus.log|)], x.start, None, AllReceived(s.bus.chans[k].taken) + last)
  }

  lemma HandledIs(s: State, k: nat, last: seq<Signal>)
    requires k in s.sessions && k in s.bus.chans && |last| <= 1 && forall signal :: signal in last ==> !signal.Received?
    ensures var c := Follow(Cursor(s.sessions[k].start, []), s.bus.chans[k].taken);
            && Handled(s, k, last).replayed == Page(s, s.sessions[k]) && Handled(s, k, last).live == c.sent
            && (last == [ClientGone] ==> Handled(s, k, last).saved == Some(c.lastSent))
  {
    hide EventsAfter, Follow;
    ReceivedThen(s.bus.chans[k].taken, last);
  }

  lemma CancelledSends(s: State, k: nat)
    requires k in s.sessions && k in s.bus.chans && !s.sessions[k].phase.Opening? && SessionFollows(s, k)
    requires s.sessions[k].phase.Replaying? && s.sessions[k].phase.rest != []
    ensures var x := s.sessions[k];
            x.sent == SessionOutcome(s.bus.log[..Min(x.seen, |s.bus.log|)], x.start, Some(|x.sent|), []).replayed
  {
    hide EventsAfter, Follow;
    var x := s.sessions[k];
    assert (x.sent + x.phase.rest)[..|x.sent|] == x.sent;
  }

  lemma CancelWrites(s: State, k: nat)
    requires Has(s, k, Live) && s.sessions[k].sub in s.checkpoints
    ensures Next(s, Cancel(k, true)).checkpoints == s.checkpoints[s.sessions[k].sub := s.sessions[k].lastSent]
  {
    assert Next(s, Cancel(k, true)) == DoCancel(s, k, true);
  }

  /**
   In every run a live session has sent what the handler sends for the page it read and the
   events it took; if its client now goes away, the checkpoint written is the handler's.  A
   session still replaying has sent what the handler sends when it is cancelled at that event.
   */
  lemma SessionsAreHandled(steps: seq<Step>, k: nat)
    requires k in Run(START, steps).sessions && Run(START, steps).sessions[k].phase != Opening
    ensures var s := Run(START, steps);
            var x := s.sessions[k];
            && k in s.bus.chans
            && (x.phase.Live? ==> x.sent == Handled(s, k, []).replayed + Handled(s, k, []).live)
            && (Has(s, k, Live) && x.sub in s.checkpoints ==>
                  && Handled(s, k, [ClientGone]).saved.Some?
                  && Next(s, Cancel(k, true)).checkpoints ==
                       s.checkpoints[x.sub := Handled(s, k, [ClientGone]).saved.value])
            && (x.phase.Replaying? && x.phase.rest != [] ==>
                  x.sent == SessionOutcome(s.bus.log[..Min(x.seen, |s.bus.log|)], x.start, Some(|x.sent|), []).replayed)
  {
    SoundRun(START, steps);
    var s := Run(START, steps);
    var x := s.sessions[k];
    assert SessionFollows(s, k);
    hide Run, Sound, EventsAfter, Follow, WellFormed, Next, Handled, Page, SessionOutcome;
    HandledIs(s, k, []);
    HandledIs(s, k, [ClientGone]);
    if Has(s, k, Live) && x.sub in s.checkpoints {
      CancelWrites(s, k);
    }
    if x.phase.Replaying? && x.phase.rest != [] {
      CancelledSends(s, k);
    }
  }
}
