/**
 Service calls split where the program lets other callers in: each call fetches a request and
 saves it, possibly stale, later on.  Submissions stay atomic, being one transaction on the
 only connection.
 */
module DispositionRaces {
  import opened Domain
  import opened DispositionModel

  /** What a caller holds between two of its accesses to the tables. */
  datatype Client =
    | Holding(id: Id, disp: Disp)
    | Begun(id: Id, disp: Disp)
    | WithMail(id: Id, disp: Disp, mail: Mail)
    | MailSaved(id: Id, disp: Disp)

  datatype World = World(tables: Tables, clients: map<nat, Client>)

  datatype Step =
    | Submitting(req: Request, newId: Id, generatedNo: string)
    | Fetch(c: nat, id: Id)
    | SaveReview(c: nat, reviewer: string, decision: string, note: string)
    | SaveWithdrawal(c: nat, actor: string, reason: string)
    | SaveExecuting(c: nat)
    | FetchMail(c: nat)
    | SaveMail(c: nat)
    | SaveCompleted(c: nat)
    | Abandon(c: nat)
    | ChangeMail(mailId: Id, mail: Option<Mail>)

  predicate Enabled(w: World, step: Step) {
    match step
    case Submitting(_, id, _) => id !in w.tables.rows
    case Fetch(c, _) => c !in w.clients
    case SaveReview(c, _, _, _) => c in w.clients && w.clients[c].Holding?
    case SaveWithdrawal(c, _, _) => c in w.clients && w.clients[c].Holding?
    case SaveExecuting(c) => c in w.clients && w.clients[c].Holding?
    case FetchMail(c) => c in w.clients && w.clients[c].Begun?
    case SaveMail(c) => c in w.clients && w.clients[c].WithMail?
    case SaveCompleted(c) => c in w.clients && w.clients[c].MailSaved?
    case Abandon(c) => true
    case ChangeMail(_, _) => true
  }

  /** The request that a step tries to save, and what it would save. */
  function Saves(w: World, step: Step): Option<(Id, Outcome)>
    requires Enabled(w, step)
  {
    match step
    case Submitting(req, id, no) => Some((id, Submission(w.tables, req, no)))
    case SaveReview(c, reviewer, decision, note) =>
      Some((w.clients[c].id, Reviewed(w.clients[c].disp, reviewer, decision, note)))
    case SaveWithdrawal(c, actor, reason) => Some((w.clients[c].id, Retracted(w.clients[c].disp, actor, reason)))
    case SaveExecuting(c) => Some((w.clients[c].id, Started(w.clients[c].disp)))
    case SaveCompleted(c) => Some((w.clients[c].id, Ok(Finished(w.clients[c].disp))))
    case _ => None
  }

  function TablesAfter(w: World, step: Step): Tables
    requires Enabled(w, step)
  {
    match Saves(w, step)
    case Some(save) => Stored(w.tables, save.0, save.1).0
    case None =>
      match step
      case SaveMail(c) =>
        var k := w.clients[c];
        w.tables.(mails := w.tables.mails[k.disp.mailId := MailAfter(k.id, k.disp, k.mail)])
      case ChangeMail(m, mail) =>
        w.tables.(mails := if mail.Some? then w.tables.mails[m := mail.value] else w.tables.mails - {m})
      case _ => w.tables
  }

  /** A call that fails, or has saved for the last time, holds nothing any more. */
  function ClientsAfter(w: World, step: Step): map<nat, Client>
    requires Enabled(w, step)
  {
    match step
    case Submitting(_, _, _) => w.clients
    case Fetch(c, id) => if id in w.tables.rows then w.clients[c := Holding(id, w.tables.rows[id])] else w.clients
    case SaveReview(c, _, _, _) => w.clients - {c}
    case SaveWithdrawal(c, _, _) => w.clients - {c}
    case SaveExecuting(c) =>
      var save := Saves(w, step).value;
      var r := Stored(w.tables, save.0, save.1).1;
      if r.Ok? then w.clients[c := Begun(save.0, r.value)] else w.clients - {c}
    case FetchMail(c) =>
      var k := w.clients[c];
      if k.disp.mailId in w.tables.mails then w.clients[c := WithMail(k.id, k.disp, w.tables.mails[k.disp.mailId])]
      else w.clients - {c}
    case SaveMail(c) => w.clients[c := MailSaved(w.clients[c].id, w.clients[c].disp)]
    case SaveCompleted(c) => w.clients - {c}
    case Abandon(c) => w.clients - {c}
    case ChangeMail(_, _) => w.clients
  }

  function After(w: World, step: Step): World
    requires Enabled(w, step)
  {
    World(TablesAfter(w, step), ClientsAfter(w, step))
  }

  predicate Feasible(w: World, steps: seq<Step>)
    decreases steps
  {
    steps == [] || (Enabled(w, steps[0]) && Feasible(After(w, steps[0]), steps[1..]))
  }

  function Final(w: World, steps: seq<Step>): World
    requires Feasible(w, steps)
    decreases steps
  {
    if steps == [] then w else Final(After(w, steps[0]), steps[1..])
  }

  // ---------------------------------------------------------------- calls that nothing interrupts

  /** A fetched request is reviewed, or withdrawn, at once: the whole call. */
  lemma UninterruptedSave(w: World, c: nat, id: Id, reviewer: string, decision: string, note: string)
    requires c !in w.clients && id in w.tables.rows
    ensures var v := After(w, Fetch(c, id));
            && Enabled(v, SaveReview(c, reviewer, decision, note))
            && After(v, SaveReview(c, reviewer, decision, note)) ==
                 World(DispositionModel.After(w.tables, Review(id, reviewer, decision, note)), w.clients)
            && Enabled(v, SaveWithdrawal(c, reviewer, note))
            && After(v, SaveWithdrawal(c, reviewer, note)) ==
                 World(DispositionModel.After(w.tables, Withdraw(id, reviewer, note)), w.clients)
  {
    hide Stored, Reviewed, Retracted;
    assert After(w, Fetch(c, id)).clients - {c} == w.clients;
  }

  /** An execution that nothing interrupts; a step that fails ends it. */
  function Executed(w: World, c: nat, id: Id): World
    requires c !in w.clients && id in w.tables.rows
  {
    var begun := After(After(w, Fetch(c, id)), SaveExecuting(c));
    if c !in begun.clients then begun
    else
      var held := After(begun, FetchMail(c));
      if c !in held.clients then held else After(After(held, SaveMail(c)), SaveCompleted(c))
  }

  lemma UninterruptedExecution(w: World, c: nat, id: Id)
    requires c !in w.clients && id in w.tables.rows
    ensures Executed(w, c, id) == World(DispositionModel.After(w.tables, Execute(id, 3)), w.clients)
  {
    var t, d := w.tables, w.tables.rows[id];
    var cs := ExecuteCommits(t, id);
    var fetched := After(w, Fetch(c, id));
    assert fetched == World(t, w.clients[c := Holding(id, d)]);
    assert fetched.clients - {c} == w.clients;
    if cs == [] {
      ApplyShort(t, []);
      assert After(fetched, SaveExecuting(c)) == World(t, w.clients);
    } else {
      ExecuteStages(t, id, 3);
      var begun := Started(d).value;
      var saved := Saved(t, id, begun);
      SavedIs(t, id, begun);
      hide Saved, MailAfter, Finished;
      var v := After(fetched, SaveExecuting(c));
      assert v == World(saved, w.clients[c := Begun(id, begun)]);
      assert v.clients - {c} == w.clients;
      if begun.mailId in t.mails {
        CompletesAtOnce(World(saved, w.clients), c, id, begun, t);
      } else {
        assert After(v, FetchMail(c)) == World(saved, w.clients);
      }
    }
  }

  lemma CompletesAtOnce(w: World, c: nat, id: Id, begun: Disp, t: Tables)
    requires c !in w.clients && begun.mailId in w.tables.mails && w.tables.rows == t.rows[id := begun]
    requires id in t.rows && t.rows[id].requestNo == begun.requestNo && !Duplicate(t, id, begun.requestNo)
    ensures var v := World(w.tables, w.clients[c := Begun(id, begun)]);
            var held := After(v, FetchMail(c));
            var mail := MailAfter(id, begun, w.tables.mails[begun.mailId]);
            && c in held.clients && held.clients[c].WithMail?
            && After(After(held, SaveMail(c)), SaveCompleted(c)) ==
                 World(Saved(w.tables.(mails := w.tables.mails[begun.mailId := mail]), id, Finished(begun)), w.clients)
  {
    hide Saved, MailAfter;
    var v := World(w.tables, w.clients[c := Begun(id, begun)]);
    var held := After(v, FetchMail(c));
    var mail := w.tables.mails[begun.mailId];
    assert held == World(w.tables, w.clients[c := WithMail(id, begun, mail)]);
    var sent := After(held, SaveMail(c));
    assert sent.clients == w.clients[c := MailSaved(id, begun)];
    assert sent.clients - {c} == w.clients;
    assert !Duplicate(sent.tables, id, Finished(begun).requestNo);
  }

  // ---------------------------------------------------------------- what every interleaving keeps

  /** Every index entry points at an active request for that mail. */
  ghost predicate IndexSound(t: Tables) {
    forall m, id :: Indexed(t, m, id) ==> ActiveFor(t, m, id)
  }

  /** What a caller holds still names a stored request of the same mail. */
  ghost predicate Rooted(w: World) {
    forall c :: c in w.clients ==>
      var k := w.clients[c];
      k.id in w.tables.rows && w.tables.rows[k.id].mailId == k.disp.mailId
  }

  lemma SaveKeepsSoundness(t: Tables, id: Id, d: Disp)
    requires IndexSound(t) && (id in t.rows ==> t.rows[id].mailId == d.mailId)
    ensures IndexSound(Saved(t, id, d))
  {
    var u := Saved(t, id, d);
    forall m, x | Indexed(u, m, x) ensures ActiveFor(u, m, x) {
      assert m in t.active ==> ActiveFor(t, m, t.active[m]) by {
        if m in t.active { assert Indexed(t, m, t.active[m]); }
      }
    }
  }

  /** A step never moves a stored request to another mail, and never removes one. */
  lemma SavesSameMail(w: World, step: Step)
    requires Rooted(w) && Enabled(w, step) && Saves(w, step).Some?
    ensures var save := Saves(w, step).value;
            save.0 in w.tables.rows && save.1.Ok? ==> save.1.value.mailId == w.tables.rows[save.0].mailId
  {
    hide Submission;
  }

  lemma RowsStay(w: World, step: Step, id: Id)
    requires Rooted(w) && Enabled(w, step) && id in w.tables.rows
    ensures id in TablesAfter(w, step).rows && TablesAfter(w, step).rows[id].mailId == w.tables.rows[id].mailId
  {
    hide Duplicate, Index, MailAfter, Saves, Rooted, Enabled;
    if Saves(w, step).Some? {
      SavesSameMail(w, step);
    }
  }

  lemma StepKeepsSound(w: World, step: Step)
    requires IndexSound(w.tables) && Rooted(w) && Enabled(w, step)
    ensures IndexSound(After(w, step).tables) && Rooted(After(w, step))
  {
    var v := After(w, step);
    forall c | c in v.clients
      ensures v.clients[c].id in v.tables.rows && v.tables.rows[v.clients[c].id].mailId == v.clients[c].disp.mailId
    {
      ClientStays(w, step, c);
    }
    if Saves(w, step).Some? {
      var save := Saves(w, step).value;
      hide Stored, Saved, IndexSound;
      StoredSound(w.tables, save.0, save.1) by {
        if save.1.Ok? && save.0 in w.tables.rows { SavedMail(w, step); }
      }
    } else {
      assert v.tables.rows == w.tables.rows && v.tables.active == w.tables.active;
      SoundApart(w.tables, v.tables);
    }
  }

  lemma SoundApart(t: Tables, u: Tables)
    requires IndexSound(t) && u.rows == t.rows && u.active == t.active
    ensures IndexSound(u)
  {
    forall m, id | Indexed(u, m, id) ensures ActiveFor(u, m, id) {
      assert Indexed(t, m, id);
    }
  }

  lemma SavedMail(w: World, step: Step)
    requires Rooted(w) && Enabled(w, step) && Saves(w, step).Some? && Saves(w, step).value.1.Ok?
    requires Saves(w, step).value.0 in w.tables.rows
    ensures w.tables.rows[Saves(w, step).value.0].mailId == Saves(w, step).value.1.value.mailId
  {
  }

  lemma StoredSound(t: Tables, id: Id, r: Outcome)
    requires IndexSound(t) && (r.Ok? && id in t.rows ==> t.rows[id].mailId == r.value.mailId)
    ensures IndexSound(Stored(t, id, r).0)
  {
    if r.Ok? {
      SaveKeepsSoundness(t, id, r.value);
    }
  }

  lemma ClientFrom(w: World, step: Step, c: nat)
    requires Enabled(w, step) && c in ClientsAfter(w, step)
    ensures var k := ClientsAfter(w, step)[c];
            if c in w.clients && !step.Fetch? then
              k.id == w.clients[c].id && k.disp.mailId == w.clients[c].disp.mailId
            else if step.Fetch? && step.c == c && step.id in w.tables.rows then
              k.id == step.id && k.disp == w.tables.rows[step.id]
            else c in w.clients && k == w.clients[c]
  {
    hide TablesAfter;
  }

  lemma ClientStays(w: World, step: Step, c: nat)
    requires Rooted(w) && Enabled(w, step) && c in After(w, step).clients
    ensures var v := After(w, step);
            v.clients[c].id in v.tables.rows && v.tables.rows[v.clients[c].id].mailId == v.clients[c].disp.mailId
  {
    hide TablesAfter, ClientsAfter, Enabled;
    ClientFrom(w, step, c);
    RowsStay(w, step, ClientsAfter(w, step)[c].id);
  }

  /**
   Under any interleaving of reads and stale saves, every index entry still points at an active
   request for its mail.
   */
  lemma {:induction false} SoundForever(w: World, steps: seq<Step>)
    requires IndexSound(w.tables) && Rooted(w) && Feasible(w, steps)
    ensures IndexSound(Final(w, steps).tables) && Rooted(Final(w, steps))
    decreases steps
  {
    if steps == [] {
    } else {
      StepKeepsSound(w, steps[0]);
      hide IndexSound, Rooted, After;
      SoundForever(After(w, steps[0]), steps[1..]);
    }
  }

  /** So a submission is answered lost only while a rival for the same mail is active. */
  lemma LostOnlyToARival(w: World, steps: seq<Step>, req: Request, no: string)
    requires IndexSound(w.tables) && Rooted(w) && Feasible(w, steps)
    requires var r := Submission(Final(w, steps).tables, req, no); r.Ok? && r.value.state == Lost
    ensures exists rival :: ActiveFor(Final(w, steps).tables, req.mailId, rival)
  {
    SoundForever(w, steps);
    var t := Final(w, steps).tables;
    hide Final;
    assert Indexed(t, req.mailId, t.active[req.mailId]);
  }

  // ---------------------------------------------------------------- when full agreement survives

  /** The step saves nothing, is refused, or saves a timely request. */
  predicate TimelyStep(w: World, step: Step)
    requires Enabled(w, step)
  {
    match Saves(w, step)
    case None => true
    case Some(save) =>
      Stored(w.tables, save.0, save.1).1.Ok? ==> Timely(w.tables, save.0, save.1.value)
  }

  lemma StepKeepsAgreementIff(w: World, step: Step)
    requires Agrees(w.tables) && Rooted(w) && Enabled(w, step)
    ensures Agrees(After(w, step).tables) <==> TimelyStep(w, step)
  {
    var t := w.tables;
    if Saves(w, step).Some? {
      var save := Saves(w, step).value;
      if Stored(t, save.0, save.1).1.Ok? {
        if save.0 in t.rows { SavedMail(w, step); }
        SaveKeepsAgreement(t, save.0, save.1.value);
      }
      hide Agrees, Timely;
    } else {
      AgreesApart(t, TablesAfter(w, step));
    }
  }

  lemma AgreesApart(t: Tables, u: Tables)
    requires Agrees(t) && u.rows == t.rows && u.active == t.active
    ensures Agrees(u)
  {
    forall m, id ensures Indexed(u, m, id) <==> ActiveFor(u, m, id) {
      assert Indexed(t, m, id) <==> ActiveFor(t, m, id);
    }
  }

  ghost predicate AlwaysAgrees(w: World, steps: seq<Step>)
    requires Feasible(w, steps)
    decreases steps
  {
    Agrees(w.tables) && (steps == [] || AlwaysAgrees(After(w, steps[0]), steps[1..]))
  }

  ghost predicate AlwaysTimely(w: World, steps: seq<Step>)
    requires Feasible(w, steps)
    decreases steps
  {
    steps == [] || (TimelyStep(w, steps[0]) && AlwaysTimely(After(w, steps[0]), steps[1..]))
  }

  /**
   An interleaving keeps the index in full agreement throughout exactly when every active
   request it saves finds its mail free, or indexed for that request.
   */
  lemma {:induction false} AgreementExactlyWhenTimely(w: World, steps: seq<Step>)
    requires Agrees(w.tables) && Rooted(w) && Feasible(w, steps)
    ensures AlwaysAgrees(w, steps) <==> AlwaysTimely(w, steps)
    decreases steps
  {
    if steps == [] {
    } else {
      StepKeepsAgreementIff(w, steps[0]);
      AgreesIsSound(w.tables);
      StepKeepsSound(w, steps[0]);
      hide Agrees, Rooted, After, TimelyStep, IndexSound;
      if TimelyStep(w, steps[0]) {
        AgreementExactlyWhenTimely(After(w, steps[0]), steps[1..]);
      } else {
        assert !AlwaysAgrees(After(w, steps[0]), steps[1..]);
      }
    }
  }

  lemma AgreesIsSound(t: Tables)
    requires Agrees(t)
    ensures IndexSound(t)
  {
  }

  /** A caller whose copy is still current saves in time: only stale copies break the agreement. */
  lemma CurrentCopiesAreTimely(w: World, step: Step)
    requires Agrees(w.tables) && Rooted(w) && Enabled(w, step)
    requires Saves(w, step).Some? && !step.Submitting? ==>
               w.clients[step.c].disp == w.tables.rows[w.clients[step.c].id]
    ensures TimelyStep(w, step)
  {
    if Saves(w, step).Some? {
      var save := Saves(w, step).value;
      if save.1.Ok? && !step.Submitting? {
        SavedMail(w, step);
        CurrentIsTimely(w.tables, save.0, save.1.value);
      }
    }
  }

  // ---------------------------------------------------------------- two active requests for one mail

  const M: Id := Id("mail")
  const A: Id := Id("a")
  const B: Id := Id("b")

  /** A mail and no requests at all. */
  function Fresh(mail: Mail): World {
    World(Tables(map[M := mail], map[], map[]), map[])
  }

  /** Two reviewers fetch the same request; it is withdrawn, a rival takes the mail, and the stale approval is saved. */
  function StaleApproval(): seq<Step> {
    [Submitting(Request("1", M, RETURN, "", "op"), A, ""),
     Fetch(1, A),
     Fetch(2, A),
     SaveWithdrawal(2, "op", ""),
     Submitting(Request("2", M, INTERCEPT, "", "op"), B, ""),
     SaveReview(1, "adjudicator", "approve", "")]
  }

  /** The worlds that this run passes through. */
  function Stages(mail: Mail): seq<World> {
    var mails := map[M := mail];
    var a := Disp("1", M, mail.mailNo, RETURN, "", Pending, "op", "", "", "", "", "", "", 1);
    var gone := a.(state := Withdrawn, withdrawnBy := "op", version := 2);
    var b := Disp("2", M, mail.mailNo, INTERCEPT, "", Pending, "op", "", "", "", "", "", "", 1);
    var revived := a.(state := Issued, reviewedBy := "adjudicator", issuedBy := "adjudicator", version := 2);
    [Fresh(mail),
     World(Tables(mails, map[A := a], map[M := A]), map[]),
     World(Tables(mails, map[A := a], map[M := A]), map[1 := Holding(A, a)]),
     World(Tables(mails, map[A := a], map[M := A]), map[1 := Holding(A, a), 2 := Holding(A, a)]),
     World(Tables(mails, map[A := gone], map[]), map[1 := Holding(A, a)]),
     World(Tables(mails, map[A := gone, B := b], map[M := B]), map[1 := Holding(A, a)]),
     World(Tables(mails, map[A := revived, B := b], map[M := B]), map[])]
  }

  lemma StageEarly(mail: Mail, i: nat)
    requires i < 3
    ensures Enabled(Stages(mail)[i], StaleApproval()[i]) &&
        After(Stages(mail)[i], StaleApproval()[i]) == Stages(mail)[i + 1]
  {
    var v := After(Stages(mail)[i], StaleApproval()[i]);
    assert v.tables == Stages(mail)[i + 1].tables;
  }

  lemma StageWithdrawn(mail: Mail)
    ensures Enabled(Stages(mail)[3], StaleApproval()[3]) &&
        After(Stages(mail)[3], StaleApproval()[3]) == Stages(mail)[4]
  {
    var w := Stages(mail)[3];
    assert !Duplicate(w.tables, A, "1");
    var v := After(w, StaleApproval()[3]);
    assert v.tables.active == map[] && v.tables.rows == Stages(mail)[4].tables.rows;
    assert v.clients == Stages(mail)[4].clients;
  }

  lemma StageRival(mail: Mail)
    ensures Enabled(Stages(mail)[4], StaleApproval()[4]) &&
        After(Stages(mail)[4], StaleApproval()[4]) == Stages(mail)[5]
  {
    var w := Stages(mail)[4];
    assert "1"[0] != "2"[0];
    assert !Duplicate(w.tables, B, "2");
    var v := After(w, StaleApproval()[4]);
    assert v.tables.active == map[M := B] && v.tables.rows == Stages(mail)[5].tables.rows;
  }

  lemma StageStale(mail: Mail)
    ensures Enabled(Stages(mail)[5], StaleApproval()[5]) &&
        After(Stages(mail)[5], StaleApproval()[5]) == Stages(mail)[6]
  {
    var w := Stages(mail)[5];
    assert "1"[0] != "2"[0];
    assert !Duplicate(w.tables, A, "1");
    var v := After(w, StaleApproval()[5]);
    assert v.tables.rows == Stages(mail)[6].tables.rows && v.clients == map[];
  }

  lemma {:induction false} Traced(stages: seq<World>, steps: seq<Step>)
    requires |stages| == |steps| + 1
    requires forall i :: 0 <= i < |steps| ==>
        Enabled(stages[i], steps[i]) && After(stages[i], steps[i]) == stages[i + 1]
    ensures Feasible(stages[0], steps) && Final(stages[0], steps) == stages[|steps|]
    decreases steps
  {
    if steps == [] {
    } else {
      hide Enabled, After;
      assert forall i :: 0 <= i < |steps| - 1 ==> steps[1..][i] == steps[i + 1] && stages[1..][i] == stages[i + 1];
      Traced(stages[1..], steps[1..]);
    }
  }

  /**
   The agreement does fail: after this run both requests are active for the mail, and the index
   knows only the rival.
   */
  lemma StaleApprovalLeavesTwoActive(mail: Mail)
    ensures Agrees(Fresh(mail).tables) && Rooted(Fresh(mail)) && Feasible(Fresh(mail), StaleApproval())
    ensures var t := Final(Fresh(mail), StaleApproval()).tables;
            ActiveFor(t, M, A) && ActiveFor(t, M, B) && Indexed(t, M, B) && !Indexed(t, M, A)
  {
    hide After, Final, Feasible;
    forall i | 0 <= i < 6
      ensures Enabled(Stages(mail)[i], StaleApproval()[i]) &&
          After(Stages(mail)[i], StaleApproval()[i]) == Stages(mail)[i + 1]
    {
      if i < 3 { StageEarly(mail, i); }
      StageWithdrawn(mail);
      StageRival(mail);
      StageStale(mail);
    }
    Traced(Stages(mail), StaleApproval());
  }
}
