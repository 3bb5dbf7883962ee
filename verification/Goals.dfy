/** The goal state machine and its saved record (legacy/experimental/core/goal.ts:16-277). */
module Goals {
  import opened Basics

  datatype Status = Active | Paused | Blocked | UsageLimited | BudgetLimited | Complete

  predicate CanTransition(from: Status, to: Status) {
    match from
    case Active => !to.Active?
    case Complete => false
    case _ => to.Active? || to.Complete?
  }

  datatype Checkpoint = Checkpoint(turnCount: nat, tokensUsed: nat, createdAt: string, data: Option<string>)

  /** A goal's fields. */
  datatype GoalState = GoalState(
    id: string, description: string, parentId: Option<string>, createdAt: string,
    status: Status, tokenBudget: Option<nat>, costBudget: Option<real>, tokensUsed: nat, costUsed: real,
    turnCount: nat, updatedAt: string, checkpoints: seq<Checkpoint>)

  datatype Limit = Usage | Budget

  /** An operation, with the clock's reading when it runs. */
  datatype Op =
    | Transition(to: Status, now: string)
    | Block(reason: Option<string>, now: string)
    | RecordUsage(input: nat, output: nat, now: string)
    | RecordCost(cost: real, now: string)
    | Check
    | Enforce(now: string)
    | TakeCheckpoint(data: Option<string>, now: string)

  /** What the caller sees: nothing, a refused transition, or a budget check. */
  datatype Answer = Done | Refused | Checked(limit: Option<Limit>)

  datatype Outcome = Outcome(goal: GoalState, answer: Answer)

  function Exceeded(g: GoalState): Option<Limit> {
    if g.tokenBudget.Some? && g.tokensUsed >= g.tokenBudget.value then Some(Usage)
    else if g.costBudget.Some? && g.costUsed >= g.costBudget.value then Some(Budget)
    else None
  }

  function Moved(g: GoalState, to: Status, now: string): Outcome {
    if CanTransition(g.status, to) then Outcome(g.(status := to, updatedAt := now), Done) else Outcome(g, Refused)
  }

  function Marked(g: GoalState, data: Option<string>, now: string): GoalState {
    g.(checkpoints := g.checkpoints + [Checkpoint(g.turnCount, g.tokensUsed, now, data)])
  }

  function Apply(g: GoalState, op: Op): Outcome {
    match op
    case Transition(to, now) => Moved(g, to, now)
    case Block(reason, now) =>
      var moved := Moved(g, Blocked, now);
      if moved.answer.Done? && reason.Some? && reason.value != "" then Outcome(Marked(moved.goal, reason, now), Done) else moved
    case RecordUsage(input, output, now) =>
      var used := g.(tokensUsed := g.tokensUsed + input + output, turnCount := g.turnCount + 1, updatedAt := now);
      Outcome(used, Checked(Exceeded(used)))
    case RecordCost(cost, now) => Outcome(g.(costUsed := g.costUsed + cost, updatedAt := now), Done)
    case Check => Outcome(g, Checked(Exceeded(g)))
    case Enforce(now) =>
      if Exceeded(g).None? then Outcome(g, Done)
      else Moved(g, if Exceeded(g).value.Usage? then UsageLimited else BudgetLimited, now)
    case TakeCheckpoint(data, now) => Outcome(Marked(g, data, now), Done)
  }

  // ---------- the object ----------

  class Goal {
    const id: string
    const description: string
    const parentId: Option<string>
    const createdAt: string
    const tokenBudget: Option<nat>
    const costBudget: Option<real>
    var status: Status
    var tokensUsed: nat
    var costUsed: real
    var turnCount: nat
    var updatedAt: string
    var checkpoints: seq<Checkpoint>

    ghost function Abstract(): GoalState
      reads this
    {
      GoalState(id, description, parentId, createdAt, status, tokenBudget, costBudget, tokensUsed, costUsed,
                turnCount, updatedAt, checkpoints)
    }

    constructor (id: string, description: string, parentId: Option<string>, tokenBudget: Option<nat>,
                 costBudget: Option<real>, now: string)
      ensures Abstract() == GoalState(id, description, parentId, now, Active, tokenBudget, costBudget, 0, 0.0, 0, now, [])
    {
      this.id, this.description, this.parentId, this.createdAt := id, description, parentId, now;
      this.tokenBudget, this.costBudget := tokenBudget, costBudget;
      status, tokensUsed, costUsed, turnCount, updatedAt, checkpoints := Active, 0, 0.0, 0, now, [];
    }

    constructor Load(r: Record)
      ensures Abstract() == FromRecord(r)
    {
      id, description, parentId, createdAt := r.id, r.description, r.parentId, r.createdAt;
      tokenBudget, costBudget := r.tokenBudget, None;
      status, tokensUsed, costUsed, turnCount, updatedAt := r.status, r.tokensUsed, 0.0, r.turnCount, r.updatedAt;
      checkpoints := r.checkpoint.GetOr([]);
    }

    method Save(sessionId: string) returns (r: Record)
      ensures r == ToRecord(Abstract(), sessionId)
    {
      r := Record(id, sessionId, parentId, status, description, tokenBudget, tokensUsed, turnCount, createdAt, updatedAt,
                  if |checkpoints| > 0 then Some(checkpoints) else None);
    }

    method TransitionTo(to: Status, now: string) returns (a: Answer)
      modifies this
      ensures Outcome(Abstract(), a) == Moved(old(Abstract()), to, now)
    {
      if !CanTransition(status, to) { return Refused; }
      status, updatedAt := to, now;
      return Done;
    }

    method AddCheckpoint(data: Option<string>, now: string)
      modifies this
      ensures Abstract() == Marked(old(Abstract()), data, now)
    {
      checkpoints := checkpoints + [Checkpoint(turnCount, tokensUsed, now, data)];
    }

    method CheckBudget() returns (limit: Option<Limit>)
      ensures limit == Exceeded(Abstract())
    {
      if tokenBudget.Some? && tokensUsed >= tokenBudget.value { return Some(Usage); }
      if costBudget.Some? && costUsed >= costBudget.value { return Some(Budget); }
      return None;
    }

    method EnforceBudget(now: string) returns (a: Answer)
      modifies this
      ensures Outcome(Abstract(), a) == Apply(old(Abstract()), Enforce(now))
      ensures status == if a.Done? && UsedUp(old(Abstract())) then UsageLimited
                        else if a.Done? && Spent(old(Abstract())) then BudgetLimited else old(status)
      ensures a.Refused? <==> (UsedUp(old(Abstract())) || Spent(old(Abstract()))) && old(status) != Active
    {
      var limit := CheckBudget();
      if limit.None? { return Done; }
      a := TransitionTo(if limit.value.Usage? then UsageLimited else BudgetLimited, now);
    }

    method BlockOn(reason: Option<string>, now: string) returns (a: Answer)
      modifies this
      ensures Outcome(Abstract(), a) == Apply(old(Abstract()), Block(reason, now))
    {
      a := TransitionTo(Blocked, now);
      if a.Done? && reason.Some? && reason.value != "" { AddCheckpoint(reason, now); }
    }

    method Use(input: nat, output: nat, now: string) returns (limit: Option<Limit>)
      modifies this
      ensures Outcome(Abstract(), Checked(limit)) == Apply(old(Abstract()), RecordUsage(input, output, now))
    {
      tokensUsed, turnCount, updatedAt := tokensUsed + (input + output), turnCount + 1, now;
      limit := CheckBudget();
    }

    method Spend(cost: real, now: string)
      modifies this
      ensures Abstract() == Apply(old(Abstract()), RecordCost(cost, now)).goal
    {
      costUsed, updatedAt := costUsed + cost, now;
    }
  }

  // ---------- operation sequences ----------

  datatype History = History(goal: GoalState, answers: seq<Answer>)

  function After(g: GoalState, ops: seq<Op>): History {
    if ops == [] then History(g, [])
    else
      var before := After(g, Init(ops));
      var o := Apply(before.goal, Last(ops));
      History(o.goal, before.answers + [o.answer])
  }

  /** Completion is absorbing: nothing moves a completed goal. */
  lemma {:induction false} CompleteIsFinal(g: GoalState, ops: seq<Op>)
    requires g.status == Complete
    ensures After(g, ops).goal.status == Complete
  {
    if ops != [] {
      CompleteIsFinal(g, Init(ops));
    }
  }

  /** Checkpoints record turns and tokens in rising order, none ahead of the goal. */
  ghost predicate Rising(g: GoalState) {
    && (forall i, j :: 0 <= i < j < |g.checkpoints| ==>
          g.checkpoints[i].turnCount <= g.checkpoints[j].turnCount && g.checkpoints[i].tokensUsed <= g.checkpoints[j].tokensUsed)
    && (forall i :: 0 <= i < |g.checkpoints| ==>
          g.checkpoints[i].turnCount <= g.turnCount && g.checkpoints[i].tokensUsed <= g.tokensUsed)
  }

  lemma {:induction false} CheckpointsRise(g: GoalState, ops: seq<Op>)
    requires Rising(g)
    ensures Rising(After(g, ops).goal)
  {
    if ops != [] {
      CheckpointsRise(g, Init(ops));
      RisesOnce(After(g, Init(ops)).goal, Last(ops));
    }
  }

  lemma RisesOnce(g: GoalState, op: Op)
    requires Rising(g)
    ensures Rising(Apply(g, op).goal)
  {
  }

  // ---------- what use and limits come to ----------

  predicate UsedUp(g: GoalState) {
    g.tokenBudget.Some? && g.tokensUsed >= g.tokenBudget.value
  }

  predicate Spent(g: GoalState) {
    g.costBudget.Some? && g.costUsed >= g.costBudget.value
  }

  function Tokens(ops: seq<Op>): nat {
    if ops == [] then 0 else Tokens(Init(ops)) + if Last(ops).RecordUsage? then Last(ops).input + Last(ops).output else 0
  }

  function Turns(ops: seq<Op>): nat {
    if ops == [] then 0 else Turns(Init(ops)) + if Last(ops).RecordUsage? then 1 else 0
  }

  function Costs(ops: seq<Op>): real {
    if ops == [] then 0.0 else Costs(Init(ops)) + if Last(ops).RecordCost? then Last(ops).cost else 0.0
  }

  /** Whatever else happens, all use is counted, once, and the budgets stay. */
  lemma {:induction false} UseAddsUp(g: GoalState, ops: seq<Op>)
    ensures var h := After(g, ops).goal;
            && h.tokensUsed == g.tokensUsed + Tokens(ops) && h.turnCount == g.turnCount + Turns(ops) && h.costUsed == g.costUsed + Costs(ops)
            && h.tokenBudget == g.tokenBudget && h.costBudget == g.costBudget
  {
    if ops != [] {
      UseAddsUp(g, Init(ops));
    }
  }

  /** A budget check names the limit that was passed, tokens first, after counting the turn. */
  lemma ChecksByUse(g: GoalState, input: nat, output: nat, now: string)
    ensures Apply(g, Check) == Outcome(g, Checked(if UsedUp(g) then Some(Usage) else if Spent(g) then Some(Budget) else None))
    ensures var h := Apply(g, RecordUsage(input, output, now)).goal;
            Apply(g, RecordUsage(input, output, now)).answer
            == Checked(if UsedUp(h) then Some(Usage) else if Spent(h) then Some(Budget) else None)
  {
  }

  /** Limits are set by enforcing them only. */
  ghost predicate NoOneSetsLimits(ops: seq<Op>) {
    forall i :: 0 <= i < |ops| && ops[i].Transition? ==> ops[i].to != UsageLimited && ops[i].to != BudgetLimited
  }

  /** A limited goal has passed the limit that it is held by. */
  predicate Earned(g: GoalState) {
    (g.status == UsageLimited ==> UsedUp(g)) && (g.status == BudgetLimited ==> Spent(g))
  }

  lemma {:induction false} LimitsAreEarned(g: GoalState, ops: seq<Op>)
    requires Earned(g) && NoOneSetsLimits(ops) && RealCosts(ops)
    ensures Earned(After(g, ops).goal)
  {
    if ops != [] {
      LimitsAreEarned(g, Init(ops));
      EarnedOnce(After(g, Init(ops)).goal, Last(ops));
    }
  }

  lemma EarnedOnce(g: GoalState, op: Op)
    requires Earned(g) && (op.RecordCost? ==> op.cost >= 0.0)
    requires op.Transition? ==> op.to != UsageLimited && op.to != BudgetLimited
    ensures Earned(Apply(g, op).goal)
  {
  }

  /** Enforcing holds an active goal by the limit that it has passed, and refuses to hold any other. */
  lemma EnforcedByUse(g: GoalState, now: string)
    ensures var o := Apply(g, Enforce(now));
            && (o.answer == Refused <==> (UsedUp(g) || Spent(g)) && g.status != Active)
            && o.goal.status == (if g.status != Active then g.status
                                 else if UsedUp(g) then UsageLimited else if Spent(g) then BudgetLimited else Active)
  {
  }

  /** Blocking an active goal keeps its reason, if there is one, with the turns and tokens so far. */
  lemma BlockKeepsReason(g: GoalState, reason: Option<string>, now: string)
    ensures var o := Apply(g, Block(reason, now));
            && (o.answer == Done <==> g.status == Active) && (o.answer == Refused <==> g.status != Active)
            && (g.status == Active ==>
                  && o.goal.status == Blocked
                  && o.goal.checkpoints == g.checkpoints
                     + if reason.Some? && reason.value != "" then [Checkpoint(g.turnCount, g.tokensUsed, now, reason)] else [])
            && (g.status != Active ==> o.goal == g)
  {
  }

  /** The clock is taken by what moves or uses a goal, and by nothing else. */
  lemma ClockTaken(g: GoalState, op: Op)
    ensures var o := Apply(g, op);
            o.goal.updatedAt == match op
              case Transition(_, now) => (if o.answer == Done then now else g.updatedAt)
              case Block(_, now) => (if o.answer == Done then now else g.updatedAt)
              case RecordUsage(_, _, now) => now
              case RecordCost(_, now) => now
              case Check => g.updatedAt
              case Enforce(now) => (if g.status == Active && (UsedUp(g) || Spent(g)) then now else g.updatedAt)
              case TakeCheckpoint(_, _) => g.updatedAt
  {
  }

  /** A checkpoint holds the turns and tokens so far, and changes nothing else. */
  lemma CheckpointTaken(g: GoalState, data: Option<string>, now: string)
    ensures Apply(g, TakeCheckpoint(data, now))
         == Outcome(g.(checkpoints := g.checkpoints + [Checkpoint(g.turnCount, g.tokensUsed, now, data)]), Done)
  {
  }

  ghost predicate AllDone(answers: seq<Answer>) {
    forall i :: 0 <= i < |answers| ==> answers[i] == Done
  }

  lemma OneMove(g: GoalState, to: Status, now: string)
    ensures After(g, [Transition(to, now)]) == History(Moved(g, to, now).goal, [Moved(g, to, now).answer])
  {
    assert Init([Transition(to, now)]) == [];
  }

  /** From any status but completion every other one is reached, directly or by way of being active, and completion directly. */
  lemma EveryStatusIsNear(g: GoalState, to: Status, now: string) returns (ops: seq<Op>)
    requires g.status != Complete && g.status != to
    ensures |ops| <= 2 && After(g, ops).goal.status == to && AllDone(After(g, ops).answers)
    ensures |ops| == if g.status == Active || to == Active || to == Complete then 1 else 2
  {
    if g.status == Active || to == Active || to == Complete {
      ops := [Transition(to, now)];
      OneMove(g, to, now);
    } else {
      ops := [Transition(Active, now), Transition(to, now)];
      TwoSteps(g, ops[0], ops[1]);
      assert Init(ops) == [ops[0]];
      OneMove(g, Active, now);
    }
  }

  /** No goal is held in another way without being active in between, and none moves to where it is. */
  lemma NotDirectly(g: GoalState, to: Status, now: string)
    requires g.status == to || g.status == Complete || (g.status != Active && to != Active && to != Complete)
    ensures Apply(g, Transition(to, now)) == Outcome(g, Refused)
  {
  }

  // ---------- saving and loading ----------

  /** What is stored: no cost, and checkpoints only when there are some. */
  datatype Record = Record(
    id: string, sessionId: string, parentId: Option<string>, status: Status, description: string,
    tokenBudget: Option<nat>, tokensUsed: nat, turnCount: nat, createdAt: string, updatedAt: string,
    checkpoint: Option<seq<Checkpoint>>)

  function ToRecord(g: GoalState, sessionId: string): Record {
    Record(g.id, sessionId, g.parentId, g.status, g.description, g.tokenBudget, g.tokensUsed, g.turnCount,
           g.createdAt, g.updatedAt, if |g.checkpoints| > 0 then Some(g.checkpoints) else None)
  }

  function FromRecord(r: Record): GoalState {
    GoalState(r.id, r.description, r.parentId, r.createdAt, r.status, r.tokenBudget, None, r.tokensUsed, 0.0,
              r.turnCount, r.updatedAt, r.checkpoint.GetOr([]))
  }

  /** What is saved, field by field: the goal's own, its session, and its checkpoints when there are some; no cost. */
  lemma SavedByField(g: GoalState, sessionId: string)
    ensures var r := ToRecord(g, sessionId);
            && r.id == g.id && r.sessionId == sessionId && r.parentId == g.parentId && r.status == g.status
            && r.description == g.description && r.tokenBudget == g.tokenBudget && r.tokensUsed == g.tokensUsed
            && r.turnCount == g.turnCount && r.createdAt == g.createdAt && r.updatedAt == g.updatedAt
            && (r.checkpoint.None? <==> g.checkpoints == []) && (r.checkpoint.Some? ==> r.checkpoint.value == g.checkpoints)
  {
  }

  /** Everything but the cost and its budget. */
  function Costless(g: GoalState): GoalState {
    g.(costUsed := 0.0, costBudget := None)
  }

  /** Costs that a caller can record. */
  ghost predicate RealCosts(ops: seq<Op>) {
    forall i :: 0 <= i < |ops| && ops[i].RecordCost? ==> ops[i].cost >= 0.0
  }

  /** The loaded goal answers and ends up like the saved one, whatever is done to both, but for the cost. */
  ghost predicate Survives(g: GoalState, sessionId: string) {
    forall ops :: RealCosts(ops) ==> SameAfter(g, FromRecord(ToRecord(g, sessionId)), ops)
  }

  ghost predicate SameAfter(g: GoalState, h: GoalState, ops: seq<Op>) {
    After(g, ops).answers == After(h, ops).answers && Costless(After(g, ops).goal) == Costless(After(h, ops).goal)
  }

  /** The cost budget can have no effect: there is none, or the tokens are used up already. */
  predicate CostIsMoot(g: GoalState) {
    g.costBudget.None? || (g.tokenBudget.Some? && g.tokensUsed >= g.tokenBudget.value)
  }

  lemma LoadedIsCostless(g: GoalState, sessionId: string)
    ensures FromRecord(ToRecord(g, sessionId)) == Costless(g)
  {
  }

  lemma SameOnce(g: GoalState, h: GoalState, op: Op)
    requires Costless(g) == Costless(h) && CostIsMoot(g) && CostIsMoot(h)
    ensures Apply(g, op).answer == Apply(h, op).answer
    ensures Costless(Apply(g, op).goal) == Costless(Apply(h, op).goal)
    ensures CostIsMoot(Apply(g, op).goal) && CostIsMoot(Apply(h, op).goal)
  {
    assert g.status == Costless(g).status && h.status == Costless(h).status;
    assert Exceeded(g) == Exceeded(h);
  }

  lemma {:induction false} SameAlways(g: GoalState, h: GoalState, ops: seq<Op>)
    requires Costless(g) == Costless(h) && CostIsMoot(g) && CostIsMoot(h)
    ensures SameAfter(g, h, ops) && CostIsMoot(After(g, ops).goal) && CostIsMoot(After(h, ops).goal)
  {
    if ops != [] {
      SameAlways(g, h, Init(ops));
      SameOnce(After(g, Init(ops)).goal, After(h, Init(ops)).goal, Last(ops));
    }
  }

  lemma TwoSteps(g: GoalState, one: Op, two: Op)
    ensures After(g, [one, two]).answers == [Apply(g, one).answer, Apply(Apply(g, one).goal, two).answer]
  {
    assert Init([one, two]) == [one] && Init([one]) == [];
    assert After(g, [one]) == History(Apply(g, one).goal, [] + [Apply(g, one).answer]);
  }

  /** With a live cost budget, spending it shows the difference. */
  lemma CostIsLost(g: GoalState, sessionId: string)
    requires !CostIsMoot(g)
    ensures !Survives(g, sessionId)
  {
    var h := FromRecord(ToRecord(g, sessionId));
    var spend := RecordCost(if g.costUsed < g.costBudget.value then g.costBudget.value - g.costUsed else 0.0, "");
    var ops := [spend, Check];
    LoadedIsCostless(g, sessionId);
    TwoSteps(g, spend, Check);
    TwoSteps(h, spend, Check);
    assert After(g, ops).answers[1] != After(h, ops).answers[1];
    assert RealCosts(ops) && !SameAfter(g, h, ops);
  }

  /** Main result: a saved goal comes back the same, for every later sequence of operations, exactly when its cost budget is moot. */
  lemma SurvivesIff(g: GoalState, sessionId: string)
    ensures Survives(g, sessionId) <==> CostIsMoot(g)
    ensures CostIsMoot(g) ==> forall ops :: SameAfter(g, FromRecord(ToRecord(g, sessionId)), ops)
  {
    if CostIsMoot(g) {
      LoadedIsCostless(g, sessionId);
      forall ops ensures SameAfter(g, FromRecord(ToRecord(g, sessionId)), ops) {
        SameAlways(g, FromRecord(ToRecord(g, sessionId)), ops);
      }
    } else {
      CostIsLost(g, sessionId);
    }
  }
}
