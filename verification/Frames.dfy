/**
 What each kind of protocol step may change: publishers leave sessions alone, a session's step
 changes that session alone, and a restart ends them all.
 */
module Frames {
  import opened Domain
  import opened EventLog
  import opened Subscription
  import opened BusModel
  import opened Delivery

  predicate Publishes(step: Step) {
    step.EnsureSubscriber? || step.AppendEvent? || step.PushEvent? || step.EvictSlow?
  }

  predicate Reading(x: Session) { x.phase.Replaying? || x.phase.Live? }

  /** A session keeps its subscriber and start, only ever sends more, and never comes back once gone. */
  ghost predicate Advances(x: Session, y: Session) {
    && y.sub == x.sub && y.start == x.start && x.sent <= y.sent
    && (!x.phase.Opening? ==> !y.phase.Opening? && y.base == x.base)
    && (x.phase.Live? ==> y.phase.Live? && x.lastSent <= y.lastSent)
    && (x.status.Gone? ==> y.status.Gone?)
    && (y.status.Running? ==> x.status.Running?)
  }

  /** A session registers with what has been pushed by then, and reads its page off the whole log. */
  ghost predicate Progresses(s: State, x: Session, y: Session) {
    && (x.phase.Opening? && !y.phase.Opening? ==> y.base == Pushed(s) && y.phase.Joined?)
    && (Reading(y) ==> if Reading(x) then y.seen == x.seen else y.seen == |s.bus.log| && x.phase.Joined?)
  }

  /** One session alone changes; only opening reads a checkpoint, and only leaving a live session writes one. */
  ghost predicate Touches(s: State, t: State, step: Step)
    requires !Publishes(step) && !step.Restart?
  {
    var k := step.k;
    && t.initial == s.initial
    && (t.sessions == s.sessions || (k in t.sessions && t.sessions == s.sessions[k := t.sessions[k]]))
    && (k in s.sessions ==>
          && k in t.sessions && Advances(s.sessions[k], t.sessions[k]) && Progresses(s, s.sessions[k], t.sessions[k]))
    && (k !in s.sessions && k in t.sessions ==>
          && step.Open? && step.sub in s.checkpoints
          && var start := StartAfter(s.checkpoints[step.sub], step.header);
             t.sessions[k] == Session(step.sub, start, start, [], Opening, Running, 0, 0))
    && (t.checkpoints == s.checkpoints ||
          (&& step.Cancel? && step.written && Has(s, k, Live) && s.sessions[k].sub in s.checkpoints
           && t.sessions[k].status.Leaving?
           && t.checkpoints == s.checkpoints[s.sessions[k].sub := s.sessions[k].lastSent]))
  }

  lemma OpenTouches(s: State, k: nat, sub: Id, header: Option<int>)
    ensures Touches(s, DoOpen(s, k, sub, header), Open(k, sub, header))
  {
  }

  lemma RegisterTouches(s: State, k: nat)
    ensures Touches(s, DoRegister(s, k), RegisterSession(k))
  {
    hide Register, Pushed;
  }

  lemma ReadTouches(s: State, k: nat)
    ensures Touches(s, DoReadPage(s, k), ReadPage(k))
  {
    hide EventsAfter;
  }

  lemma SendTouches(s: State, k: nat)
    ensures Touches(s, DoSendReplayed(s, k), SendReplayed(k))
  {
  }

  lemma DeliverTouches(s: State, k: nat)
    ensures Touches(s, DoDeliver(s, k), Deliver(k))
  {
    hide Take;
  }

  lemma CancelTouches(s: State, k: nat, written: bool)
    ensures Touches(s, DoCancel(s, k, written), Cancel(k, written))
  {
  }

  lemma LeaveTouches(s: State, k: nat)
    ensures Touches(s, DoSeeDone(s, k), SeeDone(k))
    ensures Touches(s, DoUnregister(s, k), UnregisterSession(k))
  {
    hide Unregister;
  }

  lemma SessionEffect(s: State, step: Step)
    requires !Publishes(step) && !step.Restart?
    ensures Touches(s, Next(s, step), step)
  {
    hide Touches, DoOpen, DoRegister, DoReadPage, DoSendReplayed, DoDeliver, DoCancel, DoSeeDone, DoUnregister;
    match step
    case Open(k, sub, header) => OpenTouches(s, k, sub, header);
    case RegisterSession(k) => RegisterTouches(s, k);
    case ReadPage(k) => ReadTouches(s, k);
    case SendReplayed(k) => SendTouches(s, k);
    case Deliver(k) => DeliverTouches(s, k);
    case Cancel(k, written) => CancelTouches(s, k, written);
    case SeeDone(k) => LeaveTouches(s, k);
    case UnregisterSession(k) => LeaveTouches(s, k);
  }

  /** Publishers touch no session and no existing checkpoint. */
  lemma PublisherEffect(s: State, step: Step)
    requires Publishes(step)
    ensures var t := Next(s, step);
            && t.sessions == s.sessions
            && (if step.EnsureSubscriber? && step.sub !in s.checkpoints then
                  && t.checkpoints == s.checkpoints[step.sub := step.last]
                  && t.initial == s.initial[step.sub := step.last]
                else t.checkpoints == s.checkpoints && t.initial == s.initial)
  {
    hide Append, Push, Evict, Full;
  }

  lemma RestartEffect(s: State)
    ensures var t := Next(s, Restart);
            && t.sessions.Keys == s.sessions.Keys && t.checkpoints == s.checkpoints && t.initial == s.initial
            && forall k :: k in s.sessions ==> t.sessions[k] == s.sessions[k].(status := Gone)
  {
  }

  /** A session leaves exactly when its client goes away after it registered, or when, live, it sees its Done closed. */
  lemma LeavesExactlyWhen(s: State, step: Step, k: nat)
    requires k in s.sessions && s.sessions[k].status.Running?
    ensures var t := Next(s, step);
            && k in t.sessions
            && (t.sessions[k].status.Leaving? <==>
                  || (step.Cancel? && step.k == k && !s.sessions[k].phase.Opening?)
                  || (step.SeeDone? && step.k == k && s.sessions[k].phase.Live? &&
                        k in s.bus.chans && !s.bus.chans[k].open))
            && (t.sessions[k].status.Gone? <==> step.Restart?)
  {
    hide Next;
    if Publishes(step) {
      PublisherEffect(s, step);
    } else if step.Restart? {
      RestartEffect(s);
    } else if step.k != k {
      SessionEffect(s, step);
    } else {
      LeavesOnlySo(s, step);
    }
  }

  lemma LeavesOnlySo(s: State, step: Step)
    requires !Publishes(step) && !step.Restart? && step.k in s.sessions && s.sessions[step.k].status.Running?
    ensures var x, t := s.sessions[step.k], Next(s, step);
            && step.k in t.sessions && !t.sessions[step.k].status.Gone?
            && (t.sessions[step.k].status.Leaving? <==>
                  || (step.Cancel? && !x.phase.Opening?)
                  || (step.SeeDone? && x.phase.Live? && step.k in s.bus.chans && !s.bus.chans[step.k].open))
  {
    hide EventsAfter, Register, Unregister, Take, Pushed;
  }

  /** No step removes a session or takes back what it has sent. */
  lemma SessionAdvances(s: State, step: Step, k: nat)
    requires k in s.sessions
    ensures k in Next(s, step).sessions && Advances(s.sessions[k], Next(s, step).sessions[k])
  {
    hide Next, Progresses;
    if Publishes(step) {
      PublisherEffect(s, step);
    } else if step.Restart? {
      RestartEffect(s);
    } else {
      SessionEffect(s, step);
    }
  }

  /** The step in the form of its own function. */
  lemma NextIs(s: State, step: Step)
    ensures step.EvictSlow? ==> Next(s, step) == DoEvict(s, step.id)
    ensures step.PushEvent? ==> Next(s, step) == DoPush(s, step.id)
    ensures step.RegisterSession? ==> Next(s, step) == DoRegister(s, step.k)
    ensures step.UnregisterSession? ==> Next(s, step) == DoUnregister(s, step.k)
    ensures step.Deliver? ==> Next(s, step) == DoDeliver(s, step.k)
    ensures step.AppendEvent? ==> Next(s, step) == DoAppend(s, step.body)
    ensures step.Restart? ==> Next(s, step) == DoRestart(s)
    ensures step.Cancel? ==> Next(s, step) == DoCancel(s, step.k, step.written)
    ensures step.EnsureSubscriber? ==> Next(s, step) == DoEnsure(s, step.sub, step.last)
    ensures step.Open? ==> Next(s, step) == DoOpen(s, step.k, step.sub, step.header)
    ensures step.ReadPage? ==> Next(s, step) == DoReadPage(s, step.k)
    ensures step.SendReplayed? ==> Next(s, step) == DoSendReplayed(s, step.k)
    ensures step.SeeDone? ==> Next(s, step) == DoSeeDone(s, step.k)
  {
    hide DoEvict, DoPush, DoRegister, DoUnregister, DoDeliver, DoAppend, DoRestart, DoEnsure, DoOpen, DoReadPage;
    hide DoSendReplayed, DoSeeDone, DoCancel;
  }
}
