/**
 The hazard workflow under optimistic concurrency: every change is guarded on a copy of the row
 read earlier, and committed only if the row still has the version that was read.
 */
module HazardWorkflow {
  import opened Domain
  import Auth

  datatype HazardState = Open | Assigned | Rectified | Verified | Rejected

  datatype Hazard = Hazard(stationId: Id, kind: string, severity: string, description: string, state: HazardState,
                           reportedBy: string, assignedTo: string, evidence: string, dueAt: Option<int>, version: int)

  predicate CanTransition(h: Hazard, next: HazardState) {
    h.state == next ||
    match h.state
    case Open => next == Assigned
    case Assigned => next == Rectified
    case Rectified => next == Verified || next == HazardState.Rejected
    case Rejected => next == Assigned
    case Verified => false
  }

  datatype Error = Forbidden | MissingEvidence | NotFound | InvalidState | Conflict | AlreadyStored

  // ---------------------------------------------------------------- the operations, on a copy

  datatype Op = Assign(operator: string) | Rectify(evidence: string) | Verify(evidence: string)

  predicate MayCall(role: Auth.Role, op: Op) {
    match op
    case Assign(_) => role == Auth.Regulator || role == Auth.Prosecutor
    case Rectify(_) => role == Auth.Operator
    case Verify(_) => role == Auth.Inspector || role == Auth.Regulator
  }

  function Target(op: Op): HazardState {
    match op
    case Assign(_) => Assigned
    case Rectify(_) => Rectified
    case Verify(_) => Verified
  }

  /** The first reason to refuse the call, given the copy of the row that was read. */
  function Refusal(user: string, role: Auth.Role, op: Op, found: Option<Hazard>): Option<Error> {
    if !MayCall(role, op) then Some(Forbidden)
    else if !op.Assign? && op.evidence == "" then Some(MissingEvidence)
    else if found.None? then Some(NotFound)
    else if op.Rectify? && found.value.assignedTo != user && found.value.assignedTo != "" then Some(Forbidden)
    else if !CanTransition(found.value, Target(op)) then Some(InvalidState)
    else None
  }

  /** The update: an empty assignee or evidence keeps what is stored. */
  function Updated(h: Hazard, next: HazardState, assignee: string, evidence: string): Hazard {
    h.(state := next, assignedTo := if assignee == "" then h.assignedTo else assignee,
       evidence := if evidence == "" then h.evidence else evidence, version := h.version + 1)
  }

  function Assignee(user: string, op: Op): string {
    match op
    case Assign(operator) => operator
    case Rectify(_) => user
    case Verify(_) => ""
  }

  function Evidence(op: Op): string { if op.Assign? then "" else op.evidence }

  function Changed(h: Hazard, user: string, op: Op): Hazard {
    Updated(h, Target(op), Assignee(user, op), Evidence(op))
  }

  // ---------------------------------------------------------------- clients interleaving reads and commits

  /** One version of a row, and the call that made it; the first is made by the report. */
  datatype Version = Version(row: Hazard, cause: Option<(string, Op)>)

  datatype Client = Client(user: string, op: Op, id: Id, copy: Hazard)

  /** Every row with its past, newest last, and the calls between their read and their commit. */
  datatype World = World(pasts: map<Id, seq<Version>>, clients: map<nat, Client>)

  function Row(past: seq<Version>): Hazard
    requires past != []
  {
    past[|past| - 1].row
  }

  function FindRow(w: World, id: Id): Option<Hazard> {
    if id in w.pasts && w.pasts[id] != [] then Some(Row(w.pasts[id])) else None
  }

  datatype Step =
    | Report(id: Id, hazard: Hazard)
    | Read(c: nat, user: string, role: Auth.Role, op: Op, id: Id)
    | Commit(c: nat)
    | Abandon(c: nat)

  predicate Enabled(w: World, step: Step) {
    match step
    case Report(id, hazard) => id !in w.pasts && hazard.state == Open && hazard.version == 1
    case Read(c, _, _, _, _) => c !in w.clients
    case Commit(c) => c in w.clients
    case Abandon(_) => true
  }

  /** The compare-and-swap finds its row at the version the client has read. */
  predicate Wins(w: World, c: nat) {
    c in w.clients && w.clients[c].id in w.pasts && w.pasts[w.clients[c].id] != []
    && Row(w.pasts[w.clients[c].id]).version == w.clients[c].copy.version
  }

  function After(w: World, step: Step): World
    requires Enabled(w, step)
  {
    match step
    case Report(id, hazard) => w.(pasts := w.pasts[id := [Version(hazard, None)]])
    case Read(c, user, role, op, id) =>
      var found := FindRow(w, id);
      if Refusal(user, role, op, found).Some? then w
      else w.(clients := w.clients[c := Client(user, op, id, found.value)])
    case Commit(c) =>
      var k := w.clients[c];
      var clients := w.clients - {c};
      if !Wins(w, c) then w.(clients := clients)
      else
        var next := Version(Changed(Row(w.pasts[k.id]), k.user, k.op), Some((k.user, k.op)));
        World(w.pasts[k.id := w.pasts[k.id] + [next]], clients)
    case Abandon(c) => w.(clients := w.clients - {c})
  }

  predicate Feasible(w: World, steps: seq<Step>)
    decreases steps
  {
    steps == [] || (Enabled(w, steps[0]) && Feasible(After(w, steps[0]), steps[1..]))
  }

  function Final(w: World, steps: seq<Step>): World
    requires Feasible(w, steps)
    decreases steps
  {
    if steps == [] then w else Final(After(w, steps[0]), steps[1..])
  }

  const EMPTY: World := World(map[], map[])

  // ---------------------------------------------------------------- the invariant

  /** The call that made a version was allowed on, and applied to, the version before it. */
  predicate Follows(before: Hazard, v: Version) {
    && v.cause.Some?
    && var (user, op) := v.cause.value;
    && CanTransition(before, Target(op))
    && (op.Rectify? ==> before.assignedTo == user || before.assignedTo == "")
    && (!op.Assign? ==> op.evidence != "")
    && v.row == Changed(before, user, op)
  }

  /** A linear past: it starts open at version one, and each version follows the one before. */
  ghost predicate Linear(past: seq<Version>) {
    && past != [] && past[0].row.state == Open && past[0].row.version == 1 && past[0].cause.None?
    && forall i :: 0 < i < |past| ==> Follows(past[i - 1].row, past[i])
  }

  /** Numbered from one: version n is the n-th. */
  ghost predicate Numbered(past: seq<Version>) {
    forall i :: 0 <= i < |past| ==> past[i].row.version == i + 1
  }

  /** A client's copy is one of the row's versions, and its call is allowed on it. */
  ghost predicate Faithful(past: seq<Version>, k: Client) {
    && 0 < k.copy.version <= |past| && past[k.copy.version - 1].row == k.copy
    && CanTransition(k.copy, Target(k.op))
    && (k.op.Rectify? ==> k.copy.assignedTo == k.user || k.copy.assignedTo == "")
    && (!k.op.Assign? ==> k.op.evidence != "")
  }

  ghost predicate Invariant(w: World) {
    && (forall id :: id in w.pasts ==> Linear(w.pasts[id]) && Numbered(w.pasts[id]))
    && (forall c :: c in w.clients ==> w.clients[c].id in w.pasts && Faithful(w.pasts[w.clients[c].id], w.clients[c]))
  }

  lemma Extends(past: seq<Version>, v: Version, k: Client)
    requires past != [] && Numbered(past)
    ensures Faithful(past, k) ==> Faithful(past + [v], k)
    ensures v.row.version == Row(past).version + 1 ==> Numbered(past + [v])
    ensures Linear(past) && Follows(Row(past), v) ==> Linear(past + [v])
  {
    hide Follows, CanTransition;
  }

  /**
   A copy that still has the row's version still equals the row: winning the swap proves the guards
   on the row itself.
   */
  lemma CurrentCopyIsTheRow(w: World, c: nat)
    requires Invariant(w) && Wins(w, c)
    ensures w.clients[c].copy == Row(w.pasts[w.clients[c].id])
  {
    var past := w.pasts[w.clients[c].id];
    assert Numbered(past) && Faithful(past, w.clients[c]);
    assert past[|past| - 1].row.version == |past|;
  }

  lemma CommitKeeps(w: World, c: nat)
    requires Invariant(w) && Wins(w, c)
    ensures Invariant(After(w, Commit(c)))
  {
    CurrentCopyIsTheRow(w, c);
    var k := w.clients[c];
    var past := w.pasts[k.id];
    var next := Version(Changed(Row(past), k.user, k.op), Some((k.user, k.op)));
    assert Follows(Row(past), next);
    Extends(past, next, k);
    var v := After(w, Commit(c));
    hide Linear, Numbered, Faithful, Follows, Changed;
    forall d | d in v.clients ensures v.clients[d].id in v.pasts && Faithful(v.pasts[v.clients[d].id], v.clients[d]) {
      Extends(past, next, w.clients[d]);
    }
  }

  lemma StepKeeps(w: World, step: Step)
    requires Invariant(w) && Enabled(w, step)
    ensures Invariant(After(w, step))
  {
    match step
    case Report(id, hazard) =>
    case Read(c, user, role, op, id) =>
      if id in w.pasts {
        assert Numbered(w.pasts[id]) && Linear(w.pasts[id]);
        var past := w.pasts[id];
        assert past[|past| - 1].row.version == |past|;
      }
      hide Linear, Numbered, Target;
    case Commit(c) =>
      if Wins(w, c) { CommitKeeps(w, c); }
    case Abandon(c) =>
  }

  lemma {:induction false} InvariantForever(w: World, steps: seq<Step>)
    requires Invariant(w) && Feasible(w, steps)
    ensures Invariant(Final(w, steps))
    decreases steps
  {
    if steps == [] {
    } else {
      StepKeeps(w, steps[0]);
      hide Invariant, After, Enabled;
      InvariantForever(After(w, steps[0]), steps[1..]);
    }
  }

  /**
   For any number of clients interleaving reads and commits, the past of every row is linear:
   each version is what an allowed call makes of the version just before it, and the version
   number is one plus the number of commits.
   */
  lemma HistoriesAreLinear(steps: seq<Step>, id: Id)
    requires Feasible(EMPTY, steps) && id in Final(EMPTY, steps).pasts
    ensures var past := Final(EMPTY, steps).pasts[id]; Linear(past) && Row(past).version == 1 + (|past| - 1)
  {
    InvariantForever(EMPTY, steps);
    var past := Final(EMPTY, steps).pasts[id];
    assert Linear(past) && Numbered(past);
    hide Linear, Final, Feasible;
    assert past[|past| - 1].row.version == |past|;
  }

  // ---------------------------------------------------------------- one winner per version

  lemma {:induction false} PastsGrow(w: World, steps: seq<Step>, id: Id)
    requires Invariant(w) && Feasible(w, steps) && id in w.pasts
    ensures id in Final(w, steps).pasts && |w.pasts[id]| <= |Final(w, steps).pasts[id]|
    decreases steps
  {
    if steps == [] {
    } else {
      StepKeeps(w, steps[0]);
      assert id in After(w, steps[0]).pasts && |w.pasts[id]| <= |After(w, steps[0]).pasts[id]|;
      hide Invariant, After, Enabled;
      PastsGrow(After(w, steps[0]), steps[1..], id);
    }
  }

  /** Once a client has committed over a version, no later commit over the same version wins. */
  lemma OneWinnerPerVersion(before: seq<Step>, c: nat, between: seq<Step>, d: nat)
    requires Feasible(EMPTY, before) && Wins(Final(EMPTY, before), c)
    requires Feasible(After(Final(EMPTY, before), Commit(c)), between)
    requires var k := Final(EMPTY, before).clients[c];
             var w := Final(After(Final(EMPTY, before), Commit(c)), between);
             d in w.clients && w.clients[d].id == k.id && w.clients[d].copy.version == k.copy.version
    ensures !Wins(Final(After(Final(EMPTY, before), Commit(c)), between), d)
  {
    InvariantForever(EMPTY, before);
    var v := Final(EMPTY, before);
    var k := v.clients[c];
    CommitKeeps(v, c);
    var u := After(v, Commit(c));
    assert |u.pasts[k.id]| == |v.pasts[k.id]| + 1;
    PastsGrow(u, between, k.id);
    InvariantForever(u, between);
    var w := Final(u, between);
    VersionIsLength(v, k.id);
    VersionIsLength(w, k.id);
    hide Invariant, Final, Feasible;
  }

  lemma VersionIsLength(w: World, id: Id)
    requires Invariant(w) && id in w.pasts
    ensures w.pasts[id] != [] && Row(w.pasts[id]).version == |w.pasts[id]|
  {
    assert Numbered(w.pasts[id]) && Linear(w.pasts[id]);
  }

  // ---------------------------------------------------------------- what a linear past guarantees

  function Rank(s: HazardState): int {
    match s
    case Open => 0
    case Assigned => 1
    case Rectified => 2
    case Verified => 3
    case Rejected => 4
  }

  lemma {:induction false} RanksClimb(past: seq<Version>, i: nat)
    requires Linear(past) && i < |past|
    ensures past[i].row.state != HazardState.Rejected
    ensures i > 0 ==> Rank(past[i - 1].row.state) <= Rank(past[i].row.state) <= Rank(past[i - 1].row.state) + 1
  {
    if i > 0 {
      RanksClimb(past, i - 1);
      assert Follows(past[i - 1].row, past[i]);
    }
  }

  lemma {:induction false} RanksStay(past: seq<Version>, i: nat, j: nat)
    requires Linear(past) && i <= j < |past|
    ensures Rank(past[i].row.state) <= Rank(past[j].row.state) <= 3
    decreases j
  {
    RanksClimb(past, j);
    if i < j {
      RanksStay(past, i, j - 1);
    }
  }

  /** Every state of a lower rank occurred earlier. */
  lemma {:induction false} PassesThrough(past: seq<Version>, i: nat, s: HazardState) returns (j: nat)
    requires Linear(past) && i < |past| && Rank(s) <= Rank(past[i].row.state)
    ensures j <= i && past[j].row.state == s
    decreases i
  {
    RanksClimb(past, i);
    if past[i].row.state == s {
      j := i;
    } else {
      j := PassesThrough(past, i - 1, s);
    }
  }

  /** Verified is reached only by way of assigned and then rectified, and is never left. */
  lemma VerifiedOnlyInOrder(past: seq<Version>, n: nat)
    requires Linear(past) && n < |past| && past[n].row.state == Verified
    ensures exists a, r :: 0 < a < r < n && past[a].row.state == Assigned && past[r].row.state == Rectified
    ensures forall m :: n <= m < |past| ==> past[m].row.state == Verified
  {
    var r := PassesThrough(past, n, Rectified);
    var a := PassesThrough(past, r, Assigned);
    forall m | n <= m < |past| ensures past[m].row.state == Verified {
      RanksStay(past, n, m);
    }
    assert 0 < a < r < n;
  }

  /** The operator of the last assignment that named one. */
  function LastNamed(past: seq<Version>): Option<string>
    decreases past
  {
    if past == [] then None
    else
      var v := past[|past| - 1];
      if v.cause.Some? && v.cause.value.1.Assign? && v.cause.value.1.operator != "" then Some(v.cause.value.1.operator)
      else LastNamed(past[..|past| - 1])
  }

  /**
   Until it is rectified, a hazard is assigned to the operator whom the last naming assignment
   named, and otherwise to whomever its report named.
   */
  lemma {:induction false} AssignedAsLastNamed(past: seq<Version>, n: nat)
    requires Linear(past) && n < |past| && Rank(past[n].row.state) <= 1
    ensures past[n].row.assignedTo ==
            match LastNamed(past[..n + 1]) case Some(operator) => operator case None => past[0].row.assignedTo
    decreases n
  {
    assert past[..n + 1][..n] == past[..n];
    if n == 0 {
      assert LastNamed(past[..0]) == None;
    } else {
      assert Follows(past[n - 1].row, past[n]);
      RanksClimb(past, n);
      hide Linear;
      AssignedAsLastNamed(past, n - 1);
    }
  }

  /** The first rectification is by the operator whom the last naming assignment named, if one did. */
  lemma RectifiedByTheAssignee(past: seq<Version>, n: nat)
    requires Linear(past) && 0 < n < |past|
    requires past[n - 1].row.state == Assigned && past[n].row.state == Rectified
    ensures past[n].cause.Some? && past[n].cause.value.1.Rectify?
    ensures LastNamed(past[..n]).Some? ==> past[n].cause.value.0 == LastNamed(past[..n]).value
    ensures past[n].row.assignedTo == past[n].cause.value.0 || past[n].cause.value.0 == ""
    ensures past[n].row.evidence == past[n].cause.value.1.evidence != ""
  {
    AssignedAsLastNamed(past, n - 1);
    assert Follows(past[n - 1].row, past[n]);
    LastNamedIsNamed(past[..n]);
    hide Linear;
  }

  lemma {:induction false} LastNamedIsNamed(past: seq<Version>)
    ensures LastNamed(past) != Some("")
    decreases past
  {
    if past == [] {
    } else {
      LastNamedIsNamed(past[..|past| - 1]);
    }
  }

  /** The user of the last rectification, if there was one. */
  function LastRectifier(past: seq<Version>): Option<string>
    decreases past
  {
    if past == [] then None
    else
      var v := past[|past| - 1];
      if v.cause.Some? && v.cause.value.1.Rectify? then Some(v.cause.value.0) else LastRectifier(past[..|past| - 1])
  }

  /** A rectified or verified hazard has evidence and is assigned to whoever rectified it last. */
  lemma {:induction false} RectifiedIsAccountedFor(past: seq<Version>, n: nat)
    requires Linear(past) && n < |past| && (past[n].row.state == Rectified || past[n].row.state == Verified)
    ensures past[n].row.evidence != ""
    ensures LastRectifier(past[..n + 1]) == Some(past[n].row.assignedTo)
    decreases n
  {
    assert n > 0 && Follows(past[n - 1].row, past[n]);
    assert past[..n + 1][..n] == past[..n];
    RanksClimb(past, n);
    hide Linear;
    if !past[n].cause.value.1.Rectify? {
      RectifiedIsAccountedFor(past, n - 1);
    }
  }

  /** No call that is allowed now changes the assignee. */
  ghost predicate AssigneeFixed(h: Hazard) {
    forall user, role, op :: Refusal(user, role, op, Some(h)).None? ==> Changed(h, user, op).assignedTo == h.assignedTo
  }

  /** Once rectified, a hazard keeps its assignee whatever call comes next exactly if it names one or is verified. */
  lemma FixedExactlyWhen(h: Hazard)
    requires h.state == Rectified || h.state == Verified
    ensures AssigneeFixed(h) <==> h.assignedTo != "" || h.state == Verified
  {
    if h.assignedTo == "" && h.state == Rectified {
      assert Refusal("u-operator", Auth.Operator, Rectify("photo"), Some(h)).None?;
      assert Changed(h, "u-operator", Rectify("photo")).assignedTo == "u-operator";
    }
  }

  /** So from there on the assignee never changes, over any later versions. */
  lemma {:induction false} AssigneeIsFixed(past: seq<Version>, n: nat, m: nat)
    requires Linear(past) && n <= m < |past| && Rank(past[n].row.state) >= 2
    requires past[n].row.assignedTo != "" || past[n].row.state == Verified
    ensures past[m].row.assignedTo == past[n].row.assignedTo
    decreases m
  {
    if n < m {
      AssigneeIsFixed(past, n, m - 1);
      RanksStay(past, n, m - 1);
      assert Follows(past[m - 1].row, past[m]);
    }
  }

  /** Every rectification so far was by a user with an identifier. */
  predicate NamedRectifiers(past: seq<Version>) {
    forall i :: 0 <= i < |past| && past[i].cause.Some? && past[i].cause.value.1.Rectify? ==> past[i].cause.value.0 != ""
  }

  lemma {:induction false} LastRectifierNamed(past: seq<Version>)
    requires NamedRectifiers(past)
    ensures LastRectifier(past) != Some("")
    decreases past
  {
    if past == [] {
    } else {
      LastRectifierNamed(past[..|past| - 1]);
    }
  }

  /** When every user has an identifier, the assignee of a rectified or verified hazard never changes again. */
  lemma RectifiedAssigneeNeverChanges(past: seq<Version>, n: nat, m: nat)
    requires Linear(past) && NamedRectifiers(past) && n <= m < |past|
    requires past[n].row.state == Rectified || past[n].row.state == Verified
    ensures past[m].row.assignedTo == past[n].row.assignedTo != ""
  {
    RectifiedIsAccountedFor(past, n);
    LastRectifierNamed(past[..n + 1]);
    AssigneeIsFixed(past, n, m);
  }

  // ---------------------------------------------------------------- a rectifier without an identifier

  const H: Id := Id("hz")

  function TakeOver(): seq<Step> {
    [Report(H, Reported()),
     Read(1, "u-regulator", Auth.Regulator, Assign(""), H), Commit(1),
     Read(1, "", Auth.Operator, Rectify("photo"), H), Commit(1),
     Read(1, "u-operator", Auth.Operator, Rectify("photo"), H), Commit(1)]
  }

  function Reported(): Hazard {
    Hazard(Id("st"), "barrier", "medium", "no crash barrier", Open, "u-inspector", "", "", None, 1)
  }

  function Pasts(): seq<seq<Version>> {
    var v0 := Version(Reported(), None);
    var v1 := Version(Reported().(state := Assigned, version := 2), Some(("u-regulator", Assign(""))));
    var v2 := Version(v1.row.(state := Rectified, evidence := "photo", version := 3), Some(("", Rectify("photo"))));
    var v3 := Version(v2.row.(assignedTo := "u-operator", version := 4), Some(("u-operator", Rectify("photo"))));
    [[v0], [v0, v1], [v0, v1, v2], [v0, v1, v2, v3]]
  }

  /** A read that is not refused, and the commit that follows it at once. */
  lemma ReadAndCommit(past: seq<Version>, user: string, role: Auth.Role, op: Op)
    requires past != [] && Refusal(user, role, op, Some(Row(past))).None?
    ensures var w := World(map[H := past], map[]);
            var held := World(map[H := past], map[1 := Client(user, op, H, Row(past))]);
            && Enabled(w, Read(1, user, role, op, H)) && After(w, Read(1, user, role, op, H)) == held
            && Enabled(held, Commit(1))
            && After(held, Commit(1)) ==
                 World(map[H := past + [Version(Changed(Row(past), user, op), Some((user, op)))]], map[])
  {
    hide Refusal, Changed;
    var held := World(map[H := past], map[1 := Client(user, op, H, Row(past))]);
    var next := Version(Changed(Row(past), user, op), Some((user, op)));
    assert held.clients - {1} == map[];
    assert held.pasts[H := past + [next]] == map[H := past + [next]];
  }

  lemma {:induction false} FeasibleNext(w: World, step: Step, rest: seq<Step>)
    requires Enabled(w, step) && Feasible(After(w, step), rest)
    ensures Feasible(w, [step] + rest) && Final(w, [step] + rest) == Final(After(w, step), rest)
  {
    assert ([step] + rest)[1..] == rest;
  }

  lemma ReadCommitThen(past: seq<Version>, user: string, role: Auth.Role, op: Op, rest: seq<Step>)
    requires past != [] && Refusal(user, role, op, Some(Row(past))).None?
    requires Feasible(World(map[H := past + [Version(Changed(Row(past), user, op), Some((user, op)))]], map[]), rest)
    ensures var w := World(map[H := past], map[]);
            var steps := [Read(1, user, role, op, H), Commit(1)] + rest;
            && Feasible(w, steps)
            && Final(w, steps) ==
                 Final(World(map[H := past + [Version(Changed(Row(past), user, op), Some((user, op)))]], map[]), rest)
  {
    ReadAndCommit(past, user, role, op);
    hide Refusal, Changed, Enabled, After, Feasible, Final;
    var w := World(map[H := past], map[]);
    var held := World(map[H := past], map[1 := Client(user, op, H, Row(past))]);
    FeasibleNext(held, Commit(1), rest);
    FeasibleNext(w, Read(1, user, role, op, H), [Commit(1)] + rest);
    assert [Read(1, user, role, op, H), Commit(1)] + rest == [Read(1, user, role, op, H)] + ([Commit(1)] + rest);
  }

  /** Without identifiers it does change: assigned to nobody and rectified by such a user, a hazard is taken over. */
  lemma UnnamedAssigneeIsTakenOver()
    ensures Feasible(EMPTY, TakeOver()) && H in Final(EMPTY, TakeOver()).pasts
    ensures var past := Final(EMPTY, TakeOver()).pasts[H];
            && |past| == 4 && past[2].row.state == past[3].row.state == Rectified
            && past[2].row.assignedTo == "" && past[3].row.assignedTo == "u-operator"
  {
    var pasts := Pasts();
    var last := World(map[H := pasts[3]], map[]);
    assert Feasible(last, []) && Final(last, []) == last;
    var third := [Read(1, "u-operator", Auth.Operator, Rectify("photo"), H), Commit(1)];
    var second := [Read(1, "", Auth.Operator, Rectify("photo"), H), Commit(1)];
    var first := [Read(1, "u-regulator", Auth.Regulator, Assign(""), H), Commit(1)];
    assert After(EMPTY, Report(H, Reported())) == World(map[H := pasts[0]], map[]);
    assert third + [] == third;
    assert TakeOver() == [Report(H, Reported())] + (first + (second + third));
    assert pasts[3] == pasts[2] + [pasts[3][3]] && pasts[2] == pasts[1] + [pasts[2][2]] &&
        pasts[1] == pasts[0] + [pasts[1][1]];
    assert pasts[3][3] == Version(Changed(Row(pasts[2]), "u-operator", Rectify("photo")),
        Some(("u-operator", Rectify("photo"))));
    assert pasts[2][2] == Version(Changed(Row(pasts[1]), "", Rectify("photo")), Some(("", Rectify("photo"))));
    assert pasts[1][1] == Version(Changed(Row(pasts[0]), "u-regulator", Assign("")), Some(("u-regulator", Assign(""))));
    assert Refusal("u-operator", Auth.Operator, Rectify("photo"), Some(Row(pasts[2]))).None?;
    assert Refusal("", Auth.Operator, Rectify("photo"), Some(Row(pasts[1]))).None?;
    assert Refusal("u-regulator", Auth.Regulator, Assign(""), Some(Row(pasts[0]))).None?;
    hide Refusal, Changed, After, Feasible, Final, TakeOver;
    ReadCommitThen(pasts[2], "u-operator", Auth.Operator, Rectify("photo"), []);
    ReadCommitThen(pasts[1], "", Auth.Operator, Rectify("photo"), third);
    ReadCommitThen(pasts[0], "u-regulator", Auth.Regulator, Assign(""), second + third);
    FeasibleNext(EMPTY, Report(H, Reported()), first + (second + third));
  }

  // ---------------------------------------------------------------- the store and the service

  /** The outcome of one uninterrupted call. */
  function Called(rows: map<Id, Hazard>, user: string, role: Auth.Role, op: Op, id: Id)
    : (map<Id, Hazard>, Option<Error>)
  {
    var found := if id in rows then Some(rows[id]) else None;
    var refusal := Refusal(user, role, op, found);
    if refusal.Some? then (rows, refusal) else (rows[id := Changed(rows[id], user, op)], None)
  }

  class HazardStore {
    var stations: set<Id>
    var rows: map<Id, Hazard>

    constructor (stations: set<Id>)
      ensures this.stations == stations && rows == map[]
    {
      this.stations, rows := stations, map[];
    }

    method CreateHazard(id: Id, h: Hazard) returns (created: bool)
      modifies this`rows
      ensures created == (id !in old(rows)) && rows == if created then old(rows)[id := h] else old(rows)
    {
      created := id !in rows;
      if created {
        rows := rows[id := h];
      }
    }

    method GetHazard(id: Id) returns (found: Option<Hazard>)
      ensures found == if id in rows then Some(rows[id]) else None
    {
      found := if id in rows then Some(rows[id]) else None;
    }

    /** Compare-and-swap on the version of the copy; only state, assignee, evidence and version are written. */
    method TransitionHazard(id: Id, copy: Hazard, next: HazardState, assignee: string, evidence: string)
      returns (error: Option<Error>)
      modifies this`rows
      ensures error == (if id in old(rows) && old(rows)[id].version == copy.version then None else Some(Conflict))
      ensures error.None? ==>
                var row := old(rows)[id];
                rows == old(rows)[id := row.(state := next, version := row.version + 1,
                                             assignedTo := if assignee != "" then assignee else row.assignedTo,
                                             evidence := if evidence != "" then evidence else row.evidence)]
      ensures error.Some? ==> rows == old(rows)
    {
      if id !in rows || rows[id].version != copy.version {
        return Some(Conflict);
      }
      var row := rows[id].(state := next, version := rows[id].version + 1);
      if assignee != "" {
        row := row.(assignedTo := assignee);
      }
      if evidence != "" {
        row := row.(evidence := evidence);
      }
      rows := rows[id := row];
      return None;
    }
  }

  const TWO_DAYS := 48 * 60 * 60

  class ChargingService {
    const repo: HazardStore

    constructor (repo: HazardStore)
      ensures this.repo == repo
    {
      this.repo := repo;
    }

    /**
     A report opens the hazard at version one in the reporter's name, due in two days unless it
     says otherwise; what else the caller sent is stored as it is.
     */
    method ReportHazard(session: Auth.Session, id: Id, hazard: Hazard, now: int) returns (result: Result<Hazard, Error>)
      modifies repo`rows
      ensures result.Ok? ==>
                && id !in old(repo.rows) && repo.rows == old(repo.rows)[id := result.value]
                && var due := if hazard.dueAt.Some? then hazard.dueAt else Some(now + 48 * 60 * 60);
                   result.value == hazard.(reportedBy := session.user, state := Open, version := 1, dueAt := due)
      ensures result.Err? ==> repo.rows == old(repo.rows)
      ensures result == Err(Forbidden) <==> session.role != Auth.Inspector && session.role != Auth.Prosecutor
      ensures result == Err(NotFound) <==>
                (session.role == Auth.Inspector || session.role == Auth.Prosecutor) &&
                    hazard.stationId !in repo.stations
      ensures result.Ok? || result == Err(AlreadyStored) <==>
                && (session.role == Auth.Inspector || session.role == Auth.Prosecutor) &&
                     hazard.stationId in repo.stations
                && id.text != "" && hazard.kind != "" && hazard.description != ""
      ensures result == Err(AlreadyStored) ==> id in old(repo.rows)
    {
      if session.role != Auth.Inspector && session.role != Auth.Prosecutor {
        return Err(Forbidden);
      }
      if hazard.stationId !in repo.stations {
        return Err(NotFound);
      }
      if id.text == "" || hazard.kind == "" || hazard.description == "" {
        return Err(InvalidState);
      }
      var h := hazard.(reportedBy := session.user, state := Open, version := 1);
      if h.dueAt.None? {
        h := h.(dueAt := Some(now + TWO_DAYS));
      }
      var created := repo.CreateHazard(id, h);
      return if created then Ok(h) else Err(AlreadyStored);
    }

    /** A regulator or prosecutor names the operator; an assignment that names nobody leaves the assignee as it is. */
    method AssignHazard(session: Auth.Session, id: Id, operator: string) returns (error: Option<Error>)
      modifies repo`rows
      ensures var allowed := session.role == Auth.Regulator || session.role == Auth.Prosecutor;
              && (error == Some(Forbidden) <==> !allowed)
              && (error == Some(NotFound) <==> allowed && id !in old(repo.rows))
              && (error == Some(InvalidState) <==>
                    allowed && id in old(repo.rows) &&
                    (old(repo.rows)[id].state == Rectified || old(repo.rows)[id].state == Verified))
              && (error.None? || error == Some(Forbidden) || error == Some(NotFound) || error == Some(InvalidState))
      ensures error.None? ==>
                && id in old(repo.rows)
                && var row := old(repo.rows)[id];
                   repo.rows ==
                   old(repo.rows)[id := row.(state := Assigned, version := row.version + 1,
                                             assignedTo := if operator != "" then operator else row.assignedTo)]
      ensures error.Some? ==> repo.rows == old(repo.rows)
      ensures (repo.rows, error) == Called(old(repo.rows), session.user, session.role, Assign(operator), id)
    {
      if session.role != Auth.Regulator && session.role != Auth.Prosecutor {
        return Some(Forbidden);
      }
      var found := repo.GetHazard(id);
      if found.None? {
        return Some(NotFound);
      }
      if !CanTransition(found.value, Assigned) {
        return Some(InvalidState);
      }
      error := repo.TransitionHazard(id, found.value, Assigned, operator, "");
    }

    /** An operator, with evidence, rectifies an assigned hazard that is theirs or nobody's, and it becomes theirs. */
    method RectifyHazard(session: Auth.Session, id: Id, evidence: string) returns (error: Option<Error>)
      modifies repo`rows
      ensures error.None? <==>
                && session.role == Auth.Operator && evidence != "" && id in old(repo.rows)
                && (old(repo.rows)[id].assignedTo == session.user || old(repo.rows)[id].assignedTo == "")
                && (old(repo.rows)[id].state == Assigned || old(repo.rows)[id].state == Rectified)
      ensures error.None? ==>
                var row := old(repo.rows)[id];
                repo.rows ==
                old(repo.rows)[id := row.(state := Rectified, version := row.version + 1, evidence := evidence,
                                          assignedTo := if session.user != "" then session.user else row.assignedTo)]
      ensures error.Some? ==> repo.rows == old(repo.rows)
      ensures error == Some(MissingEvidence) <==> session.role == Auth.Operator && evidence == ""
      ensures error == Some(NotFound) <==> session.role == Auth.Operator && evidence != "" && id !in old(repo.rows)
      ensures (repo.rows, error) == Called(old(repo.rows), session.user, session.role, Rectify(evidence), id)
    {
      if session.role != Auth.Operator {
        return Some(Forbidden);
      }
      if evidence == "" {
        return Some(MissingEvidence);
      }
      var found := repo.GetHazard(id);
      if found.None? {
        return Some(NotFound);
      }
      if found.value.assignedTo != session.user && found.value.assignedTo != "" {
        return Some(Forbidden);
      }
      if !CanTransition(found.value, Rectified) {
        return Some(InvalidState);
      }
      error := repo.TransitionHazard(id, found.value, Rectified, session.user, evidence);
    }

    /** An inspector or regulator verifies a rectified hazard; the evidence is from then on the verification's own. */
    method VerifyHazard(session: Auth.Session, id: Id, evidence: string) returns (error: Option<Error>)
      modifies repo`rows
      ensures var allowed := session.role == Auth.Inspector || session.role == Auth.Regulator;
              && (error == Some(Forbidden) <==> !allowed)
              && (error == Some(MissingEvidence) <==> allowed && evidence == "")
              && (error == Some(NotFound) <==> allowed && evidence != "" && id !in old(repo.rows))
              && (error.None? <==>
                    allowed && evidence != "" && id in old(repo.rows) &&
                    (old(repo.rows)[id].state == Rectified || old(repo.rows)[id].state == Verified))
      ensures error.None? ==>
                var row := old(repo.rows)[id];
                repo.rows ==
                old(repo.rows)[id := row.(state := Verified, version := row.version + 1, evidence := evidence)]
      ensures error.Some? ==> repo.rows == old(repo.rows)
      ensures (repo.rows, error) == Called(old(repo.rows), session.user, session.role, Verify(evidence), id)
    {
      if session.role != Auth.Inspector && session.role != Auth.Regulator {
        return Some(Forbidden);
      }
      if evidence == "" {
        return Some(MissingEvidence);
      }
      var found := repo.GetHazard(id);
      if found.None? {
        return Some(NotFound);
      }
      if !CanTransition(found.value, Verified) {
        return Some(InvalidState);
      }
      error := repo.TransitionHazard(id, found.value, Verified, "", evidence);
    }
  }

  /** An uninterrupted call is a read immediately followed by its commit. */
  lemma CallIsReadThenCommit(w: World, c: nat, user: string, role: Auth.Role, op: Op, id: Id)
    requires Invariant(w) && c !in w.clients && id in w.pasts && Refusal(user, role, op, FindRow(w, id)).None?
    ensures var v := After(w, Read(c, user, role, op, id));
            && Enabled(v, Commit(c)) && Wins(v, c)
            && FindRow(After(v, Commit(c)), id) == Some(Called(map[id := Row(w.pasts[id])], user, role, op, id).0[id])
  {
    VersionIsLength(w, id);
    hide Invariant, Refusal, Updated;
  }
}
