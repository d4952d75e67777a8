/**
 The disposition service as it runs: a request is fetched, changed in memory and saved in its
 own transaction.  `log` records the commits, so that those of an execution can be compared
 with `ExecuteCommits`; each stopped execution is a prefix of them.
 */
module DispositionService {
  import opened Domain
  import opened DispositionModel

  class DispositionService {
    var mails: map<Id, Mail>
    var rows: map<Id, Disp>
    var active: map<Id, Id>
    ghost var log: seq<Commit>

    ghost function Value(): Tables
      reads this
    {
      Tables(mails, rows, active)
    }

    constructor (mails: map<Id, Mail>)
      ensures Value() == Tables(mails, map[], map[]) && log == []
    {
      this.mails, rows, active, log := mails, map[], map[], [];
    }

    method UpsertActive(mailId: Id, id: Id)
      modifies this`active
      ensures active == if mailId in old(active) then old(active) else old(active)[mailId := id]
    {
      if mailId !in active {
        active := active[mailId := id];
      }
    }

    method RemoveActive(mailId: Id, id: Id)
      modifies this`active
      ensures active ==
              if mailId in old(active) && old(active)[mailId] == id then old(active) - {mailId} else old(active)
    {
      if mailId in active && active[mailId] == id {
        active := active - {mailId};
      }
    }

    /** One transaction: the row, then its index entry; a number already taken rolls it back. */
    method Save(id: Id, d: Disp) returns (saved: bool)
      modifies this
      ensures saved == !Duplicate(old(Value()), id, d.requestNo)
      ensures saved ==> Value() == Saved(old(Value()), id, d) && log == old(log) + [PutDisp(id, d)]
      ensures !saved ==> Value() == old(Value()) && log == old(log)
    {
      if exists other :: other in rows && other != id && rows[other].requestNo == d.requestNo {
        return false;
      }
      rows := rows[id := d];
      if IsDispositionActive(d.state) {
        UpsertActive(d.mailId, id);
      } else {
        RemoveActive(d.mailId, id);
      }
      log := log + [PutDisp(id, d)];
      return true;
    }

    method CountActiveByMail(mailId: Id) returns (count: nat)
      ensures count == |set m | m in active && m == mailId|
    {
      if mailId in active {
        assert (set m | m in active && m == mailId) == {mailId};
        count := 1;
      } else {
        assert (set m | m in active && m == mailId) == {};
        count := 0;
      }
    }

    /** Submitting under a new identifier: pending if the mail has no index entry, lost otherwise. */
    method Submit(req: Request, newId: Id, generatedNo: string) returns (result: Outcome)
      modifies this
      ensures (Value(), result) == Stored(old(Value()), newId, Submission(old(Value()), req, generatedNo))
      ensures result.Ok? ==>
                && req.mailId in old(mails) && newId in rows && result.value == rows[newId]
                && var mailNo := old(mails)[req.mailId].mailNo;
                   var lost := req.mailId in old(active);
                   rows[newId] == Disp(if req.requestNo == "" then generatedNo else req.requestNo, req.mailId, mailNo,
                                       req.kind, req.target, if lost then Lost else Pending, req.submittedBy,
                                       "", "", "", "", "",
                                       if lost then "another active disposition already exists for mail " + mailNo
                                       else "", 1)
      ensures result.Ok? ==>
                && mails == old(mails) && rows == old(rows)[newId := rows[newId]]
                && (req.mailId !in old(active) ==> active == old(active)[req.mailId := newId])
      ensures result.Err? ==> Value() == old(Value())
      ensures result == Err(RequiredFieldsMissing) <==> req.mailId.text == "" || req.kind == "" || req.submittedBy == ""
      ensures result == Err(MailNotFound) <==>
                req.mailId.text != "" && req.kind != "" && req.submittedBy != "" && req.mailId !in old(mails)
    {
      if req.mailId.text == "" || req.kind == "" || req.submittedBy == "" {
        return Err(RequiredFieldsMissing);
      }
      if req.mailId !in mails {
        return Err(MailNotFound);
      }
      var mail := mails[req.mailId];
      var requestNo := req.requestNo;
      if requestNo == "" {
        requestNo := generatedNo;
      }
      var d := Disp(requestNo, req.mailId, mail.mailNo, req.kind, req.target, Pending, req.submittedBy,
                    "", "", "", "", "", "", 1);
      var count := CountActiveByMail(req.mailId);
      CountIsZero(active, req.mailId);
      if count > 0 {
        d := d.(state := Lost, conflictReason := CONFLICT + mail.mailNo);
      }
      var saved := Save(newId, d);
      return if saved then Ok(d) else Err(DuplicateRequestNo);
    }

    method Review(id: Id, reviewer: string, decision: string, note: string) returns (result: Outcome)
      modifies this
      ensures id !in old(rows) ==> Value() == old(Value()) && result == Err(DispositionNotFound)
      ensures id in old(rows) ==>
                (Value(), result) == Stored(old(Value()), id, Reviewed(old(rows)[id], reviewer, decision, note))
      ensures result.Ok? ==>
                && id in old(rows) && (decision == "approve" || decision == "reject")
                && var d := old(rows)[id];
                   var target := if decision == "approve" then Issued else DispositionState.Rejected;
                   && (d.state == target || d.state == Pending || d.state == UnderReview)
                   && result.value ==
                        d.(state := target, reviewedBy := reviewer, reviewNote := note, version := d.version + 1,
                           issuedBy := if decision == "approve" then reviewer else d.issuedBy)
                   && rows == old(rows)[id := result.value] && mails == old(mails)
      ensures result.Err? ==> Value() == old(Value())
      ensures result == Err(BadDecision) <==> id in old(rows) && decision != "approve" && decision != "reject"
      ensures result.Err? && result.error.InvalidTransition? <==>
                && id in old(rows)
                && ((decision == "approve" && old(rows)[id].state !in {Pending, UnderReview, Issued}) ||
                    (decision == "reject" && old(rows)[id].state !in {Pending, UnderReview, DispositionState.Rejected}))
    {
      hide Index, Duplicate;
      if id !in rows {
        return Err(DispositionNotFound);
      }
      var d := rows[id];
      var target;
      if decision == "approve" {
        target := Issued;
      } else if decision == "reject" {
        target := Rejected;
      } else {
        return Err(BadDecision);
      }
      if !Validate(DISPOSITION_EDGES, d.state, target) {
        return Err(InvalidTransition(d.state, target));
      }
      d := d.(state := target, reviewedBy := reviewer, reviewNote := note, version := d.version + 1);
      if target == Issued {
        d := d.(issuedBy := reviewer);
      }
      var saved := Save(id, d);
      return if saved then Ok(d) else Err(DuplicateRequestNo);
    }

    method Withdraw(id: Id, actor: string, reason: string) returns (result: Outcome)
      modifies this
      ensures id !in old(rows) ==> Value() == old(Value()) && result == Err(DispositionNotFound)
      ensures id in old(rows) ==> (Value(), result) == Stored(old(Value()), id, Retracted(old(rows)[id], actor, reason))
      ensures result.Ok? ==>
                && id in old(rows)
                && var d := old(rows)[id];
                   && result.value ==
                        d.(state := Withdrawn, withdrawnBy := actor, withdrawnReason := reason,
                           version := d.version + 1)
                   && rows == old(rows)[id := result.value] && mails == old(mails)
      ensures result.Err? ==> Value() == old(Value())
      ensures result.Err? && result.error.InvalidTransition? <==>
                id in old(rows) && old(rows)[id].state !in {Pending, Issued, Executing, Withdrawn}
    {
      if id !in rows {
        return Err(DispositionNotFound);
      }
      var d := rows[id];
      if !Validate(DISPOSITION_EDGES, d.state, Withdrawn) {
        return Err(InvalidTransition(d.state, Withdrawn));
      }
      d := d.(state := Withdrawn, withdrawnBy := actor, withdrawnReason := reason, version := d.version + 1);
      var saved := Save(id, d);
      return if saved then Ok(d) else Err(DuplicateRequestNo);
    }

    method SaveMail(id: Id, mail: Mail)
      modifies this
      ensures Value() == Apply(old(Value()), PutMail(id, mail)) && log == old(log) + [PutMail(id, mail)]
    {
      mails := mails[id := mail];
      log := log + [PutMail(id, mail)];
    }

    /** Carries the request out on its mail, and saves it. */
    method CarryOut(id: Id, d: Disp)
      requires d.mailId in mails
      modifies this
      ensures var w := PutMail(d.mailId, MailAfter(id, d, old(mails)[d.mailId]));
              Value() == Apply(old(Value()), w) && log == old(log) + [w]
    {
      var mail := mails[d.mailId];
      if d.kind == INTERCEPT {
        mail := mail.(state := Intercepted);
      } else if d.kind == REDIRECT {
        mail := mail.(state := Redirected);
        if d.target != "" {
          mail := mail.(receiverAddr := d.target);
        }
      } else if d.kind == RETURN {
        mail := mail.(state := ReturnedToSender);
      }
      mail := mail.(dispositionId := id.text, version := mail.version + 1);
      SaveMail(d.mailId, mail);
    }

    /** The commits made are those of `ExecuteCommits`; the call succeeds exactly if it makes all three. */
    method ExecuteInternal(id: Id) returns (result: Outcome)
      modifies this
      ensures log == old(log) + ExecuteCommits(old(Value()), id)
      ensures Value() == ApplyAll(old(Value()), ExecuteCommits(old(Value()), id))
      ensures result.Ok? <==> |ExecuteCommits(old(Value()), id)| == 3
      ensures result.Ok? ==> ExecuteCommits(old(Value()), id)[2] == PutDisp(id, result.value)
      ensures result == Err(MailNotFound) <==> |ExecuteCommits(old(Value()), id)| == 1
      ensures id !in old(rows) ==> result == Err(DispositionNotFound)
      ensures id in old(rows) && Started(old(rows)[id]).Err? ==> result == Started(old(rows)[id])
      ensures result.Err? && result.error.InvalidTransition? ==> id in old(rows) && Started(old(rows)[id]).Err?
    {
      hide ApplyAll, ExecuteCommits, Duplicate;
      ghost var start := Value();
      CommitsAre(start, id);
      if id !in rows {
        return Err(DispositionNotFound);
      }
      var d := rows[id];
      if !Validate(DISPOSITION_EDGES, d.state, Executing) {
        return Err(InvalidTransition(d.state, Executing));
      }
      d := d.(state := Executing, version := d.version + 1);
      var saved := Save(id, d);
      if !saved {
        return Err(DuplicateRequestNo);
      }
      if d.mailId !in mails {
        return Err(MailNotFound);
      }
      assert rows == start.rows[id := d];
      hide MailAfter, Saved, Validate;
      CarryOut(id, d);
      StillNotTaken(start, Value(), id, d, Finished(d));
      d := d.(state := Completed, version := d.version + 1);
      saved := Save(id, d);
      return if saved then Ok(d) else Err(DuplicateRequestNo);
    }

    /**
     A successful execution has carried the request out on its mail and completed it, two
     versions later; one whose mail is missing leaves it executing, and any other failure
     changes nothing.
     */
    method Execute(id: Id) returns (result: Outcome)
      modifies this
      ensures log == old(log) + ExecuteCommits(old(Value()), id)
      ensures Value() == ApplyAll(old(Value()), ExecuteCommits(old(Value()), id))
      ensures result.Ok? <==> |ExecuteCommits(old(Value()), id)| == 3
      ensures id !in old(rows) ==> result == Err(DispositionNotFound)
      ensures result.Ok? ==>
                && id in old(rows) && (old(rows)[id].state == Issued || old(rows)[id].state == Executing)
                && old(rows)[id].mailId in old(mails)
                && var d := old(rows)[id];
                   && result.value == d.(state := Completed, version := d.version + 2)
                   && rows == old(rows)[id := result.value]
                   && CarriedOut(id, d, old(mails), mails)
      ensures result.Err? && result.error.InvalidTransition? <==>
                id in old(rows) && old(rows)[id].state != Issued && old(rows)[id].state != Executing
      ensures result == Err(MailNotFound) ==>
                && id in old(rows) && mails == old(mails)
                && rows == old(rows)[id := old(rows)[id].(state := Executing, version := old(rows)[id].version + 1)]
      ensures result.Err? && result != Err(MailNotFound) ==> Value() == old(Value())
    {
      hide ApplyAll, ExecuteCommits, CarriedOut;
      ghost var start := Value();
      ExecutionMeans(start, id);
      StartedMeans(start, id);
      hide Validate;
      result := ExecuteInternal(id);
    }

    /** The requests the index names for this mail. */
    method GetActiveByMail(mailId: Id) returns (found: seq<Disp>)
      ensures |found| == |ActiveByMail(Value(), mailId)|
      ensures forall d :: d in found <==> exists id :: id in ActiveByMail(Value(), mailId) && rows[id] == d
    {
      if mailId in active && active[mailId] in rows {
        assert ActiveByMail(Value(), mailId) == {active[mailId]};
        found := [rows[active[mailId]]];
      } else {
        assert ActiveByMail(Value(), mailId) == {};
        found := [];
      }
    }
  }

  lemma CountIsZero(active: map<Id, Id>, mailId: Id)
    ensures |set m | m in active && m == mailId| == 0 <==> mailId !in active
  {
    var counted := set m | m in active && m == mailId;
    assert mailId in counted <==> mailId in active;
    assert |counted| == 0 <==> counted == {};
  }

  /** The commits of an execution and what they leave, case by case. */
  lemma CommitsAre(t: Tables, id: Id)
    ensures id !in t.rows || Started(t.rows[id]).Err? || Duplicate(t, id, t.rows[id].requestNo) ==>
              ExecuteCommits(t, id) == [] && ApplyAll(t, []) == t
    ensures id in t.rows && Started(t.rows[id]).Ok? && !Duplicate(t, id, t.rows[id].requestNo) ==>
              var d := Started(t.rows[id]).value;
              var begun := Saved(t, id, d);
              if d.mailId !in t.mails then
                ExecuteCommits(t, id) == [PutDisp(id, d)] && ApplyAll(t, [PutDisp(id, d)]) == begun
              else
                var mail := PutMail(d.mailId, MailAfter(id, d, t.mails[d.mailId]));
                && ExecuteCommits(t, id) == [PutDisp(id, d), mail, PutDisp(id, Finished(d))]
                && ApplyAll(t, ExecuteCommits(t, id)) == Saved(Apply(begun, mail), id, Finished(d))
  {
    ApplyShort(t, ExecuteCommits(t, id));
    hide ApplyAll, Saved, MailAfter, Finished, Duplicate, Validate;
  }

  lemma StartedMeans(t: Tables, id: Id)
    ensures id in t.rows ==> (Started(t.rows[id]).Ok? <==> t.rows[id].state == Issued || t.rows[id].state == Executing)
    ensures id in t.rows && Started(t.rows[id]).Err? ==> Started(t.rows[id]).error.InvalidTransition?
  {
  }

  /** What an execution leaves, by how many commits it could make. */
  lemma ExecutionMeans(t: Tables, id: Id)
    ensures var cs := ExecuteCommits(t, id);
            var u := ApplyAll(t, cs);
            && (|cs| == 0 || |cs| == 1 || |cs| == 3)
            && (|cs| == 0 ==> u == t)
            && (|cs| > 0 ==> id in t.rows && Started(t.rows[id]).Ok?)
            && (|cs| == 1 ==>
                  u.mails == t.mails &&
                  u.rows == t.rows[id := t.rows[id].(state := Executing, version := t.rows[id].version + 1)])
            && (|cs| == 3 ==>
                  var d := t.rows[id];
                  && d.mailId in t.mails && CarriedOut(id, d, t.mails, u.mails)
                  && u.rows == t.rows[id := d.(state := Completed, version := d.version + 2)]
                  && cs[2] == PutDisp(id, d.(state := Completed, version := d.version + 2)))
  {
    hide ApplyAll, ExecuteCommits, Duplicate, CarriedOut, MailAfter, Index, Validate;
    CommitsAre(t, id);
    if |ExecuteCommits(t, id)| == 3 {
      var d := t.rows[id];
      MailAfterCarriesOut(id, d, d.(state := Executing, version := d.version + 1), t.mails);
    }
  }

  /** A number that was free for the first save of an execution is free for the last. */
  lemma StillNotTaken(t: Tables, u: Tables, id: Id, begun: Disp, d: Disp)
    requires id in t.rows && d.requestNo == t.rows[id].requestNo && !Duplicate(t, id, d.requestNo)
    requires u.rows == t.rows[id := begun]
    ensures !Duplicate(u, id, d.requestNo)
  {
  }
}
