/**
 Executing a disposition takes three commits.  Stopping between any two of them, with other
 calls in the gaps, and running the execution again gives what one uninterrupted run gives.
 */
module DispositionExecution {
  import opened Domain
  import opened DispositionModel

  /** The call does not touch this request, except to execute it and be stopped early, nor its mail. */
  predicate Elsewhere(step: Step, id: Id, m: Id) {
    match step
    case Submit(_, _, _) => true
    case Review(x, _, _, _) => x != id
    case Withdraw(x, _, _) => x != id
    case Execute(x, commits) => x != id || commits <= 2
    case ChangeMail(x, _) => x != m
  }

  /** An issued or already executing request whose mail exists, in tables that satisfy the invariant. */
  ghost predicate Executable(t: Tables, id: Id) {
    && Agrees(t) && UniqueNumbers(t)
    && id in t.rows && (t.rows[id].state == Issued || t.rows[id].state == Executing)
    && t.rows[id].mailId in t.mails
  }

  /** A mail up to its version, once the request has been applied to it. */
  function Effect(id: Id, d: Disp, mail: Mail): Mail {
    MailAfter(id, d, mail).(version := 0)
  }

  /** A request up to its state and version. */
  function Content(d: Disp): Disp {
    d.(state := Pending, version := 0)
  }

  /** Some way into executing: nothing is lost, and the effect still to be had is the same. */
  ghost predicate Midway(start: Tables, t: Tables, id: Id) {
    && Executable(start, id) && Executable(t, id)
    && Content(t.rows[id]) == Content(start.rows[id])
    && Effect(id, t.rows[id], t.mails[t.rows[id].mailId]) ==
         Effect(id, start.rows[id], start.mails[start.rows[id].mailId])
  }

  lemma EffectAgain(id: Id, d: Disp, mail: Mail)
    ensures Effect(id, d, MailAfter(id, d, mail)) == Effect(id, d, mail)
  {
  }

  lemma EffectByContent(id: Id, d: Disp, e: Disp, mail: Mail)
    requires Content(d) == Content(e)
    ensures MailAfter(id, d, mail) == MailAfter(id, e, mail) && d.mailId == e.mailId && d.requestNo == e.requestNo
  {
    assert d.kind == Content(d).kind && d.target == Content(d).target;
    assert d.mailId == Content(d).mailId && d.requestNo == Content(d).requestNo;
  }

  /** Unless it touches the request or its mail, a call leaves both as they are. */
  lemma OtherCall(t: Tables, id: Id, step: Step)
    requires Agrees(t) && UniqueNumbers(t) && id in t.rows && IsDispositionActive(t.rows[id].state)
    requires Enabled(t, step) && Elsewhere(step, id, t.rows[id].mailId) && !(step.Execute? && step.id == id)
    ensures var u := After(t, step);
            var m := t.rows[id].mailId;
            && id in u.rows && u.rows[id] == t.rows[id]
            && (m in t.mails ==> m in u.mails && u.mails[m] == t.mails[m])
  {
    if step.Execute? {
      OtherExecution(t, id, step.id, step.commits);
    } else {
      hide Agrees, UniqueNumbers, Index, Duplicate, Submission, Reviewed, Retracted;
    }
  }

  lemma OtherExecution(t: Tables, id: Id, other: Id, commits: nat)
    requires Agrees(t) && id in t.rows && IsDispositionActive(t.rows[id].state) && other != id
    ensures var u := After(t, Execute(other, commits));
            var m := t.rows[id].mailId;
            && id in u.rows && u.rows[id] == t.rows[id]
            && (m in t.mails ==> m in u.mails && u.mails[m] == t.mails[m])
  {
    if ExecuteCommits(t, other) != [] {
      ExecuteStages(t, other, commits);
      assert ActiveFor(t, t.rows[other].mailId, other) && ActiveFor(t, t.rows[id].mailId, id);
      if t.rows[other].mailId == t.rows[id].mailId {
        AtMostOneActive(t, t.rows[id].mailId, id, other);
      }
      hide Agrees, ApplyAll, Duplicate, Index, After;
    }
  }

  lemma CommitsAre(t: Tables, id: Id)
    requires Executable(t, id)
    ensures Started(t.rows[id]) == Ok(t.rows[id].(state := Executing, version := t.rows[id].version + 1))
    ensures var d := t.rows[id].(state := Executing, version := t.rows[id].version + 1);
            ExecuteCommits(t, id) ==
                [PutDisp(id, d), PutMail(d.mailId, MailAfter(id, d, t.mails[d.mailId])), PutDisp(id, Finished(d))]
  {
    assert !Duplicate(t, id, t.rows[id].requestNo);
    hide Agrees, UniqueNumbers, MailAfter, Finished;
  }

  /** The rows and mails after each number of commits. */
  lemma StageContents(t: Tables, id: Id, commits: nat)
    requires Executable(t, id)
    ensures var u := After(t, Execute(id, commits));
            var d := t.rows[id].(state := Executing, version := t.rows[id].version + 1);
            && u.rows == (if commits == 0 then t.rows else t.rows[id := if commits <= 2 then d else Finished(d)])
            && u.mails == (if commits <= 1 then t.mails else t.mails[d.mailId := MailAfter(id, d, t.mails[d.mailId])])
  {
    CommitsAre(t, id);
    ExecuteStages(t, id, commits);
    hide Agrees, UniqueNumbers, Index, After, MailAfter, ExecuteCommits, Started;
    var d := t.rows[id].(state := Executing, version := t.rows[id].version + 1);
    assert t.rows[id := d][id := Finished(d)] == t.rows[id := Finished(d)];
  }

  lemma StoppedCall(start: Tables, t: Tables, id: Id, commits: nat)
    requires Midway(start, t, id) && commits <= 2
    ensures Midway(start, After(t, Execute(id, commits)), id)
  {
    StepKeepsAgreement(t, Execute(id, commits));
    StageContents(t, id, commits);
    hide Agrees, UniqueNumbers, After, MailAfter;
    var u := After(t, Execute(id, commits));
    var d, e := t.rows[id], u.rows[id];
    var mail := t.mails[d.mailId];
    EffectByContent(id, d, e, mail);
    EffectAgain(id, e, mail);
    EffectByContent(id, d, e, MailAfter(id, e, mail));
  }

  lemma MidwayNext(start: Tables, t: Tables, id: Id, step: Step)
    requires Midway(start, t, id) && Enabled(t, step) && Elsewhere(step, id, start.rows[id].mailId)
    ensures Midway(start, After(t, step), id)
  {
    assert t.rows[id].mailId == Content(t.rows[id]).mailId;
    if step.Execute? && step.id == id {
      StoppedCall(start, t, id, step.commits);
    } else {
      StepKeepsAgreement(t, step);
      OtherCall(t, id, step);
      hide Agrees, UniqueNumbers, After, Effect, Content;
    }
  }

  lemma {:induction false} MidwayForever(start: Tables, t: Tables, id: Id, steps: seq<Step>)
    requires Midway(start, t, id) && Feasible(t, steps)
    requires forall i :: 0 <= i < |steps| ==> Elsewhere(steps[i], id, start.rows[id].mailId)
    ensures Midway(start, Final(t, steps), id)
    decreases steps
  {
    if steps == [] {
    } else {
      MidwayNext(start, t, id, steps[0]);
      hide Midway, After, Elsewhere;
      MidwayForever(start, After(t, steps[0]), id, steps[1..]);
    }
  }

  /** An uninterrupted execution carries the request out on its mail and completes it; nothing else changes. */
  lemma ExecutionCarriesOut(t: Tables, id: Id)
    requires Executable(t, id)
    ensures var u := After(t, Execute(id, 3));
            var d := t.rows[id];
            && u.rows == t.rows[id := d.(state := Completed, version := d.version + 2)]
            && CarriedOut(id, d, t.mails, u.mails)
  {
    hide Agrees, UniqueNumbers, After, MailAfter, CarriedOut;
    StageContents(t, id, 3);
    var d := t.rows[id];
    MailAfterCarriesOut(id, d, d.(state := Executing, version := d.version + 1), t.mails);
  }

  /**
   Crash recovery.  Let execution be stopped any number of times, each time after at most two
   of its three commits, with any calls on other requests and mails in between; a last run to
   the end gives the same completed request and the same mail, up to versions, as one
   uninterrupted run.
   */
  lemma ExecuteSurvivesCrashes(start: Tables, id: Id, steps: seq<Step>)
    requires Executable(start, id) && Feasible(start, steps)
    requires forall i :: 0 <= i < |steps| ==> Elsewhere(steps[i], id, start.rows[id].mailId)
    ensures var m := start.rows[id].mailId;
            var straight, recovered := After(start, Execute(id, 3)), After(Final(start, steps), Execute(id, 3));
            && id in straight.rows && id in recovered.rows && m in straight.mails && m in recovered.mails
            && straight.rows[id].state == Completed
            && recovered.rows[id].(version := 0) == straight.rows[id].(version := 0)
            && recovered.mails[m].(version := 0) == straight.mails[m].(version := 0)
  {
    MidwayForever(start, start, id, steps);
    var t := Final(start, steps);
    StageContents(start, id, 3);
    StageContents(t, id, 3);
    hide Agrees, UniqueNumbers, After, Final, Feasible, MailAfter, Elsewhere;
    SameEnd(start, t, id);
  }

  lemma SameEnd(start: Tables, t: Tables, id: Id)
    requires Midway(start, t, id)
    ensures var d, e := start.rows[id].(state := Executing, version := start.rows[id].version + 1),
                        t.rows[id].(state := Executing, version := t.rows[id].version + 1);
            && d.mailId == e.mailId && Finished(d).(version := 0) == Finished(e).(version := 0)
            && MailAfter(id, d, start.mails[d.mailId]).(version := 0) ==
                 MailAfter(id, e, t.mails[e.mailId]).(version := 0)
  {
    hide Agrees, UniqueNumbers;
    var d, e := start.rows[id].(state := Executing, version := start.rows[id].version + 1),
                t.rows[id].(state := Executing, version := t.rows[id].version + 1);
    hide MailAfter;
    EffectByContent(id, start.rows[id], t.rows[id], start.mails[d.mailId]);
    EffectByContent(id, d, start.rows[id], start.mails[d.mailId]);
    EffectByContent(id, e, t.rows[id], t.mails[d.mailId]);
    assert Content(d) == Content(start.rows[id]) && Content(e) == Content(t.rows[id]);
    assert Finished(d).(version := 0) == Content(d).(state := Completed);
  }

  /** Meanwhile every rival submission for that mail is refused or lost. */
  lemma RivalsLose(start: Tables, id: Id, steps: seq<Step>, req: Request, no: string)
    requires Executable(start, id) && Feasible(start, steps) && req.mailId == start.rows[id].mailId
    requires forall i :: 0 <= i < |steps| ==> Elsewhere(steps[i], id, start.rows[id].mailId)
    ensures var r := Submission(Final(start, steps), req, no); r.Ok? ==> r.value.state == Lost
  {
    MidwayForever(start, start, id, steps);
    var t := Final(start, steps);
    hide Final, Feasible, Elsewhere, UniqueNumbers;
    assert t.rows[id].mailId == Content(t.rows[id]).mailId;
    assert ActiveFor(t, req.mailId, id);
    assert Indexed(t, req.mailId, id);
  }

  /** Once the last commit is made there is nothing to recover: running again is refused and changes nothing. */
  lemma CompletedStays(start: Tables, id: Id, commits: nat)
    requires Executable(start, id)
    ensures var t := After(start, Execute(id, 3)); After(t, Execute(id, commits)) == t
  {
    StageContents(start, id, 3);
    var t := After(start, Execute(id, 3));
    assert t.rows[id].state == Completed;
    assert Started(t.rows[id]).Err?;
    hide Agrees, UniqueNumbers, MailAfter;
    ApplyShort(t, []);
  }

  /** Completing a request frees its mail: the next valid submission for it is pending. */
  lemma CompletionFreesTheMail(start: Tables, id: Id, req: Request, no: string)
    requires Executable(start, id) && req.mailId == start.rows[id].mailId
    ensures var t := After(start, Execute(id, 3));
            && req.mailId !in t.active
            && (Submission(t, req, no).Ok? ==> Submission(t, req, no).value.state == Pending)
  {
    StepKeepsAgreement(start, Execute(id, 3));
    StageContents(start, id, 3);
    var t := After(start, Execute(id, 3));
    hide After, UniqueNumbers, MailAfter;
    assert ActiveFor(start, req.mailId, id);
    if req.mailId in t.active {
      var other := t.active[req.mailId];
      assert Indexed(t, req.mailId, other) && ActiveFor(t, req.mailId, other);
      assert ActiveFor(start, req.mailId, other);
      AtMostOneActive(start, req.mailId, id, other);
    }
  }
}
