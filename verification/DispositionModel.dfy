/**
 Disposition requests and the table that indexes the active one of each mail.  A mail has at
 most one index entry; saving an active request inserts an entry only if the mail has none,
 saving any other request deletes the entry only if it is its own.
 */
module DispositionModel {
  import opened Domain

  const REDIRECT := "redirect"
  const INTERCEPT := "intercept"
  const RETURN := "return"

  datatype Disp = Disp(requestNo: string, mailId: Id, mailNo: string, kind: string, target: string,
                       state: DispositionState, submittedBy: string, reviewedBy: string, reviewNote: string,
                       issuedBy: string, withdrawnBy: string, withdrawnReason: string, conflictReason: string,
                       version: int)

  datatype Tables = Tables(mails: map<Id, Mail>, rows: map<Id, Disp>, active: map<Id, Id>)

  datatype Request = Request(requestNo: string, mailId: Id, kind: string, target: string, submittedBy: string)

  datatype Error =
    | RequiredFieldsMissing
    | MailNotFound
    | DispositionNotFound
    | BadDecision
    | InvalidTransition(current: DispositionState, target: DispositionState)
    | DuplicateRequestNo

  type Outcome = Result<Disp, Error>

  // ---------------------------------------------------------------- saving one request

  /** Another request already carries this number, which the table refuses. */
  predicate Duplicate(t: Tables, id: Id, requestNo: string) {
    exists other :: other in t.rows && other != id && t.rows[other].requestNo == requestNo
  }

  function Index(active: map<Id, Id>, id: Id, d: Disp): map<Id, Id> {
    if IsDispositionActive(d.state) then
      if d.mailId in active then active else active[d.mailId := id]
    else
      if d.mailId in active && active[d.mailId] == id then active - {d.mailId} else active
  }

  function Saved(t: Tables, id: Id, d: Disp): Tables {
    t.(rows := t.rows[id := d], active := Index(t.active, id, d))
  }

  /** The save that ends a service call: refused calls and refused saves change nothing. */
  function Stored(t: Tables, id: Id, r: Outcome): (Tables, Outcome) {
    if r.Err? then (t, r)
    else if Duplicate(t, id, r.value.requestNo) then (t, Err(DuplicateRequestNo))
    else (Saved(t, id, r.value), r)
  }

  // ---------------------------------------------------------------- what each call saves

  const CONFLICT := "another active disposition already exists for mail "

  function Submission(t: Tables, req: Request, generatedNo: string): Outcome {
    if req.mailId.text == "" || req.kind == "" || req.submittedBy == "" then Err(RequiredFieldsMissing)
    else if req.mailId !in t.mails then Err(MailNotFound)
    else
      var mailNo := t.mails[req.mailId].mailNo;
      var requestNo := if req.requestNo == "" then generatedNo else req.requestNo;
      var d := Disp(requestNo, req.mailId, mailNo, req.kind, req.target,
                    Pending, req.submittedBy, "", "", "", "", "", "", 1);
      Ok(if req.mailId in t.active then d.(state := Lost, conflictReason := CONFLICT + mailNo) else d)
  }

  function Reviewed(d: Disp, reviewer: string, decision: string, note: string): Outcome {
    if decision != "approve" && decision != "reject" then Err(BadDecision)
    else
      var target := if decision == "approve" then Issued else Rejected;
      if !Validate(DISPOSITION_EDGES, d.state, target) then Err(InvalidTransition(d.state, target))
      else
        var r := d.(state := target, reviewedBy := reviewer, reviewNote := note, version := d.version + 1);
        Ok(if target == Issued then r.(issuedBy := reviewer) else r)
  }

  function Retracted(d: Disp, actor: string, reason: string): Outcome {
    if !Validate(DISPOSITION_EDGES, d.state, Withdrawn) then Err(InvalidTransition(d.state, Withdrawn))
    else Ok(d.(state := Withdrawn, withdrawnBy := actor, withdrawnReason := reason, version := d.version + 1))
  }

  function Started(d: Disp): Outcome {
    if !Validate(DISPOSITION_EDGES, d.state, Executing) then Err(InvalidTransition(d.state, Executing))
    else Ok(d.(state := Executing, version := d.version + 1))
  }

  /** The mail as the executed request leaves it; a request of an unknown kind leaves the state alone. */
  function MailAfter(id: Id, d: Disp, mail: Mail): Mail {
    var changed :=
      if d.kind == INTERCEPT then mail.(state := Intercepted)
      else if d.kind == REDIRECT then
        (if d.target != "" then mail.(state := Redirected, receiverAddr := d.target) else mail.(state := Redirected))
      else if d.kind == RETURN then mail.(state := ReturnedToSender)
      else mail;
    changed.(dispositionId := id.text, version := mail.version + 1)
  }

  /**
   The request has been carried out on its mail, and on no other: an interception, a redirection to the
   target if there is one, or a return; any other kind only leaves its mark.
   */
  predicate CarriedOut(id: Id, d: Disp, before: map<Id, Mail>, mails: map<Id, Mail>)
    requires d.mailId in before
  {
    && d.mailId in mails && mails == before[d.mailId := mails[d.mailId]]
    && var was, mail := before[d.mailId], mails[d.mailId];
       && (d.kind == "intercept" ==> mail.state == Intercepted)
       && (d.kind == "redirect" ==> mail.state == Redirected)
       && (d.kind == "return" ==> mail.state == ReturnedToSender)
       && (d.kind != "intercept" && d.kind != "redirect" && d.kind != "return" ==> mail.state == was.state)
       && mail.receiverAddr == (if d.kind == "redirect" && d.target != "" then d.target else was.receiverAddr)
       && mail.dispositionId == id.text && mail.version == was.version + 1 && mail.mailNo == was.mailNo
  }

  lemma MailAfterCarriesOut(id: Id, d: Disp, begun: Disp, mails: map<Id, Mail>)
    requires d.mailId in mails && begun == d.(state := Executing, version := d.version + 1)
    ensures CarriedOut(id, d, mails, mails[d.mailId := MailAfter(id, begun, mails[d.mailId])])
  {
  }

  function Finished(d: Disp): Disp { d.(state := Completed, version := d.version + 1) }

  datatype Commit = PutDisp(id: Id, disp: Disp) | PutMail(id: Id, mail: Mail)

  function Apply(t: Tables, c: Commit): Tables {
    match c
    case PutDisp(id, d) => Saved(t, id, d)
    case PutMail(id, mail) => t.(mails := t.mails[id := mail])
  }

  function ApplyAll(t: Tables, cs: seq<Commit>): Tables
    decreases cs
  {
    if cs == [] then t else ApplyAll(Apply(t, cs[0]), cs[1..])
  }

  /** The commits of one execution: start, change the mail, complete.  A missing mail stops it after the first. */
  function ExecuteCommits(t: Tables, id: Id): seq<Commit> {
    if id !in t.rows || Started(t.rows[id]).Err? || Duplicate(t, id, t.rows[id].requestNo) then []
    else
      var d := Started(t.rows[id]).value;
      [PutDisp(id, d)] +
      if d.mailId !in t.mails then []
      else [PutMail(d.mailId, MailAfter(id, d, t.mails[d.mailId])), PutDisp(id, Finished(d))]
  }

  // ---------------------------------------------------------------- runs of whole calls

  datatype Step =
    | Submit(req: Request, newId: Id, generatedNo: string)
    | Review(id: Id, reviewer: string, decision: string, note: string)
    | Withdraw(id: Id, actor: string, reason: string)
    | Execute(id: Id, commits: nat)
    | ChangeMail(mailId: Id, mail: Option<Mail>)

  /** Request identifiers are generated and therefore new. */
  predicate Enabled(t: Tables, step: Step) {
    step.Submit? ==> step.newId !in t.rows
  }

  /** One whole call.  `Execute` may be stopped after any number of its commits. */
  function After(t: Tables, step: Step): Tables {
    match step
    case Submit(req, id, no) => Stored(t, id, Submission(t, req, no)).0
    case Review(id, reviewer, decision, note) =>
      if id in t.rows then Stored(t, id, Reviewed(t.rows[id], reviewer, decision, note)).0 else t
    case Withdraw(id, actor, reason) =>
      if id in t.rows then Stored(t, id, Retracted(t.rows[id], actor, reason)).0 else t
    case Execute(id, commits) =>
      var cs := ExecuteCommits(t, id);
      ApplyAll(t, if commits <= |cs| then cs[..commits] else cs)
    case ChangeMail(m, mail) =>
      t.(mails := if mail.Some? then t.mails[m := mail.value] else t.mails - {m})
  }

  predicate Feasible(t: Tables, steps: seq<Step>)
    decreases steps
  {
    steps == [] || (Enabled(t, steps[0]) && Feasible(After(t, steps[0]), steps[1..]))
  }

  function Final(t: Tables, steps: seq<Step>): Tables
    decreases steps
  {
    if steps == [] then t else Final(After(t, steps[0]), steps[1..])
  }

  // ---------------------------------------------------------------- agreement of the index with the rows

  predicate ActiveFor(t: Tables, m: Id, id: Id) {
    id in t.rows && t.rows[id].mailId == m && IsDispositionActive(t.rows[id].state)
  }

  predicate Indexed(t: Tables, m: Id, id: Id) {
    m in t.active && t.active[m] == id
  }

  ghost predicate Agrees(t: Tables) {
    forall m, id :: Indexed(t, m, id) <==> ActiveFor(t, m, id)
  }

  ghost predicate UniqueNumbers(t: Tables) {
    forall a, b :: a in t.rows && b in t.rows && a != b ==> t.rows[a].requestNo != t.rows[b].requestNo
  }

  /** The save of an active request that keeps the agreement: the mail is free, or indexed for this very request. */
  predicate Timely(t: Tables, id: Id, d: Disp) {
    IsDispositionActive(d.state) ==> d.mailId !in t.active || t.active[d.mailId] == id
  }

  /**
   A save that does not move a request to another mail keeps the index in full agreement with
   the rows exactly when it is timely.
   */
  lemma SaveKeepsAgreement(t: Tables, id: Id, d: Disp)
    requires Agrees(t) && (id in t.rows ==> t.rows[id].mailId == d.mailId)
    ensures Agrees(Saved(t, id, d)) <==> Timely(t, id, d)
  {
    var u := Saved(t, id, d);
    forall m, x | m != d.mailId ensures Indexed(u, m, x) <==> ActiveFor(u, m, x) {
      assert Indexed(t, m, x) <==> ActiveFor(t, m, x);
    }
    if Timely(t, id, d) {
      forall x ensures Indexed(u, d.mailId, x) <==> ActiveFor(u, d.mailId, x) {
        assert Indexed(t, d.mailId, x) <==> ActiveFor(t, d.mailId, x);
        assert Indexed(t, d.mailId, id) <==> ActiveFor(t, d.mailId, id);
      }
    } else {
      assert ActiveFor(u, d.mailId, id) && !Indexed(u, d.mailId, id);
    }
  }

  /** A call on a current row saves a timely request. */
  lemma CurrentIsTimely(t: Tables, id: Id, d: Disp)
    requires Agrees(t) && id in t.rows && t.rows[id].mailId == d.mailId
    requires IsDispositionActive(d.state) ==> IsDispositionActive(t.rows[id].state)
    ensures Timely(t, id, d)
  {
    assert Indexed(t, d.mailId, id) <==> ActiveFor(t, d.mailId, id);
  }

  lemma StoredKeeps(t: Tables, id: Id, r: Outcome)
    requires Agrees(t) && UniqueNumbers(t)
    requires r.Ok? ==> (id in t.rows ==> t.rows[id].mailId == r.value.mailId) && Timely(t, id, r.value)
    ensures Agrees(Stored(t, id, r).0) && UniqueNumbers(Stored(t, id, r).0)
  {
    if r.Ok? {
      SaveKeepsAgreement(t, id, r.value);
      hide Agrees;
    }
  }

  lemma MailsApart(t: Tables, mails: map<Id, Mail>)
    requires Agrees(t) && UniqueNumbers(t)
    ensures Agrees(t.(mails := mails)) && UniqueNumbers(t.(mails := mails))
  {
    var u := t.(mails := mails);
    forall m, id ensures Indexed(u, m, id) <==> ActiveFor(u, m, id) {
      assert Indexed(t, m, id) <==> ActiveFor(t, m, id);
    }
  }

  lemma ExecuteKeeps(t: Tables, id: Id, commits: nat)
    requires Agrees(t) && UniqueNumbers(t)
    ensures Agrees(After(t, Execute(id, commits))) && UniqueNumbers(After(t, Execute(id, commits)))
  {
    hide Agrees, UniqueNumbers, Duplicate, Saved, Timely;
    var cs := ExecuteCommits(t, id);
    if cs != [] {
      ExecuteStages(t, id, commits);
      var d := Started(t.rows[id]).value;
      CurrentIsTimely(t, id, d);
      StoredKeeps(t, id, Ok(d));
      SavedIs(t, id, d);
      var u := Saved(t, id, d);
      if |cs| == 3 {
        var mails := u.mails[d.mailId := cs[1].mail];
        MailsApart(u, mails);
        var v := u.(mails := mails);
        CurrentIsTimely(v, id, Finished(d));
        StillUnique(v, id, Finished(d));
      }
    }
  }

  lemma SavedIs(t: Tables, id: Id, d: Disp)
    ensures Saved(t, id, d).rows == t.rows[id := d] && Saved(t, id, d).mails == t.mails
  {
  }

  lemma StillUnique(t: Tables, id: Id, d: Disp)
    requires Agrees(t) && UniqueNumbers(t) && id in t.rows && t.rows[id].mailId == d.mailId
    requires t.rows[id].requestNo == d.requestNo && Timely(t, id, d)
    ensures Agrees(Saved(t, id, d)) && UniqueNumbers(Saved(t, id, d))
  {
    SaveKeepsAgreement(t, id, d);
    hide Agrees;
  }

  /** The tables after each possible number of commits of an execution. */
  lemma ExecuteStages(t: Tables, id: Id, commits: nat)
    requires ExecuteCommits(t, id) != []
    ensures id in t.rows && Started(t.rows[id]).Ok?
    ensures var cs := ExecuteCommits(t, id);
            var d := Started(t.rows[id]).value;
            var u := Saved(t, id, d);
            var v := if |cs| == 3 then u.(mails := u.mails[d.mailId := cs[1].mail]) else u;
            && (|cs| == 1 || (|cs| == 3 && cs[1].PutMail?))
            && (|cs| == 3 <==> d.mailId in t.mails)
            && After(t, Execute(id, commits)) ==
                 if commits == 0 then t
                 else if commits == 1 || |cs| == 1 then u
                 else if commits == 2 then v
                 else Saved(v, id, Finished(d))
  {
    hide Saved, Duplicate, Started, Finished, MailAfter;
    var cs := ExecuteCommits(t, id);
    var done := if commits <= |cs| then cs[..commits] else cs;
    ApplyShort(t, done);
    hide ApplyAll, ExecuteCommits;
  }

  lemma {:induction false} ApplyShort(t: Tables, cs: seq<Commit>)
    ensures |cs| == 0 ==> ApplyAll(t, cs) == t
    ensures |cs| == 1 ==> ApplyAll(t, cs) == Apply(t, cs[0])
    ensures |cs| == 2 ==> ApplyAll(t, cs) == Apply(Apply(t, cs[0]), cs[1])
    ensures |cs| == 3 ==> ApplyAll(t, cs) == Apply(Apply(Apply(t, cs[0]), cs[1]), cs[2])
    decreases cs
  {
    hide Apply;
    if |cs| > 0 {
      ApplyShort(Apply(t, cs[0]), cs[1..]);
    }
  }

  lemma StepKeepsAgreement(t: Tables, step: Step)
    requires Agrees(t) && UniqueNumbers(t) && Enabled(t, step)
    ensures Agrees(After(t, step)) && UniqueNumbers(After(t, step))
  {
    hide Agrees, UniqueNumbers, Stored, ApplyAll, ExecuteCommits;
    match step
    case Submit(req, id, no) =>
      StoredKeeps(t, id, Submission(t, req, no));
    case Review(id, reviewer, decision, note) =>
      if id in t.rows {
        var r := Reviewed(t.rows[id], reviewer, decision, note);
        if r.Ok? {
          CurrentIsTimely(t, id, r.value);
        }
        StoredKeeps(t, id, r);
      }
    case Withdraw(id, actor, reason) =>
      if id in t.rows {
        StoredKeeps(t, id, Retracted(t.rows[id], actor, reason));
      }
    case Execute(id, commits) =>
      ExecuteKeeps(t, id, commits);
    case ChangeMail(m, mail) =>
      MailsApart(t, After(t, step).mails);
  }

  /**
   Over any run of whole calls, executions stopped after any of their commits included, the
   index maps a mail to a request exactly when that request names the mail and is active.
   */
  lemma {:induction false} AgreementForever(t: Tables, steps: seq<Step>)
    requires Agrees(t) && UniqueNumbers(t) && Feasible(t, steps)
    ensures Agrees(Final(t, steps)) && UniqueNumbers(Final(t, steps))
    decreases steps
  {
    if steps == [] {
    } else {
      StepKeepsAgreement(t, steps[0]);
      hide Agrees, UniqueNumbers, After;
      AgreementForever(After(t, steps[0]), steps[1..]);
    }
  }

  lemma AtMostOneActive(t: Tables, m: Id, a: Id, b: Id)
    requires Agrees(t) && ActiveFor(t, m, a) && ActiveFor(t, m, b)
    ensures a == b
  {
    assert Indexed(t, m, a) && Indexed(t, m, b);
  }

  /**
   With an index that agrees with the rows, an accepted submission is lost exactly if some stored
   request for its mail is pending, under review, issued or executing.
   */
  lemma SubmissionLosesExactly(t: Tables, req: Request, no: string)
    requires Agrees(t) && Submission(t, req, no).Ok?
    ensures Submission(t, req, no).value.state == Lost <==>
            exists id :: id in t.rows && t.rows[id].mailId == req.mailId &&
                         t.rows[id].state in {Pending, UnderReview, Issued, Executing}
    ensures Submission(t, req, no).value.state == Pending || Submission(t, req, no).value.state == Lost
  {
    if req.mailId in t.active {
      var id := t.active[req.mailId];
      assert Indexed(t, req.mailId, id);
      assert ActiveFor(t, req.mailId, id);
    } else {
      forall id | id in t.rows && t.rows[id].mailId == req.mailId
        ensures t.rows[id].state !in {Pending, UnderReview, Issued, Executing}
      {
        assert !Indexed(t, req.mailId, id);
        assert !ActiveFor(t, req.mailId, id);
      }
    }
  }

  /** The join of the two tables that answers which requests of a mail are active. */
  function ActiveByMail(t: Tables, m: Id): set<Id> {
    set id | id in t.rows && Indexed(t, m, id)
  }

  lemma JoinAnswersExactly(t: Tables, m: Id, id: Id)
    requires Agrees(t)
    ensures id in ActiveByMail(t, m) <==> ActiveFor(t, m, id)
    ensures ActiveByMail(t, m) == {} <==> m !in t.active
  {
    assert Indexed(t, m, id) <==> ActiveFor(t, m, id);
    if m in t.active {
      assert Indexed(t, m, t.active[m]);
      assert t.active[m] in ActiveByMail(t, m);
    }
  }

  // ---------------------------------------------------------------- races for a free mail

  datatype Entry = Entry(req: Request, newId: Id, generatedNo: string)

  predicate NewIds(t: Tables, entries: seq<Entry>)
    decreases entries
  {
    entries == [] || (entries[0].newId !in t.rows && NewIds(AfterEntry(t, entries[0]), entries[1..]))
  }

  function AfterEntry(t: Tables, e: Entry): Tables {
    Stored(t, e.newId, Submission(t, e.req, e.generatedNo)).0
  }

  /** What each of a sequence of submissions returns. */
  function Answers(t: Tables, entries: seq<Entry>): (r: seq<Outcome>)
    ensures |r| == |entries|
    decreases entries
  {
    if entries == [] then []
    else
      var e := entries[0];
      [Stored(t, e.newId, Submission(t, e.req, e.generatedNo)).1] + Answers(AfterEntry(t, e), entries[1..])
  }

  /** Every index entry names a stored request. */
  ghost predicate Grounded(t: Tables) {
    forall m :: m in t.active ==> t.active[m] in t.rows
  }

  /** Some earlier submission for the same mail was accepted. */
  predicate Beaten(t: Tables, entries: seq<Entry>, i: nat)
    requires i < |entries|
  {
    exists j :: 0 <= j < i && entries[j].req.mailId == entries[i].req.mailId && Answers(t, entries)[j].Ok?
  }

  /** Beaten by the first submission, or by one after it. */
  lemma BeatenShift(t: Tables, entries: seq<Entry>, i: nat)
    requires 0 < i < |entries|
    ensures var u := AfterEntry(t, entries[0]);
            && Answers(t, entries)[i] == Answers(u, entries[1..])[i - 1]
            && (Beaten(t, entries, i) <==>
                  (entries[0].req.mailId == entries[i].req.mailId && Answers(t, entries)[0].Ok?) ||
                  Beaten(u, entries[1..], i - 1))
  {
    var u, m := AfterEntry(t, entries[0]), entries[i].req.mailId;
    assert forall j :: 0 < j < |entries| ==> Answers(t, entries)[j] == Answers(u, entries[1..])[j - 1];
    hide AfterEntry, Answers;
    if Beaten(u, entries[1..], i - 1) {
      var j :| 0 <= j < i - 1 && entries[1..][j].req.mailId == m && Answers(u, entries[1..])[j].Ok?;
      assert Answers(t, entries)[j + 1].Ok? && entries[j + 1].req.mailId == m;
    }
    if Beaten(t, entries, i) {
      var j :| 0 <= j < i && entries[j].req.mailId == m && Answers(t, entries)[j].Ok?;
      assert j > 0 ==> Answers(u, entries[1..])[j - 1].Ok? && entries[1..][j - 1].req.mailId == m;
    }
  }

  /**
   Of any submissions, on any mails, exactly those are pending that find their mail free and
   are the first accepted for it; every other accepted one is lost.
   */
  lemma {:induction false} FirstSubmissionWins(t: Tables, entries: seq<Entry>, i: nat)
    requires Grounded(t) && NewIds(t, entries) && i < |entries| && Answers(t, entries)[i].Ok?
    ensures Answers(t, entries)[i].value.state ==
            if entries[i].req.mailId in t.active || Beaten(t, entries, i) then Lost else Pending
    decreases entries
  {
    if i > 0 {
      SubmissionIndexes(t, entries[0], entries[i].req.mailId);
      BeatenShift(t, entries, i);
      FirstSubmissionWins(AfterEntry(t, entries[0]), entries[1..], i - 1);
      hide Beaten, AfterEntry;
    }
  }

  lemma SubmissionIndexes(t: Tables, e: Entry, m: Id)
    requires e.newId !in t.rows && Grounded(t)
    ensures Grounded(AfterEntry(t, e))
    ensures m in AfterEntry(t, e).active <==>
            m in t.active || (m == e.req.mailId && Stored(t, e.newId, Submission(t, e.req, e.generatedNo)).1.Ok?)
  {
  }
}
