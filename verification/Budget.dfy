/** Budget enforcement of budget/limiter.go over the cost log of budget/tracker.go. */
module Budget {
  import opened Common

  type Session = string
  type Agent = string
  type Model = string

  datatype Cost = Cost(session: Session, agent: Agent, model: Model, total: real, time: real)

  // ---- The cost log ----

  /** Empty filters and missing bounds let everything through. */
  predicate Matches(c: Cost, session: Session, agent: Agent, start: Option<real>, end: Option<real>) {
    && (session != "" ==> c.session == session)
    && (agent != "" ==> c.agent == agent)
    && (start.Some? ==> c.time >= start.value)
    && (end.Some? ==> c.time <= end.value)
  }

  function Select(costs: seq<Cost>, session: Session, agent: Agent, start: Option<real>, end: Option<real>): seq<Cost> {
    if costs == [] then []
    else
      var rest, c := Select(costs[..|costs| - 1], session, agent, start, end), costs[|costs| - 1];
      if Matches(c, session, agent, start, end) then rest + [c] else rest
  }

  /** A record passes the filters: an empty name and a missing bound let everything through. */
  ghost predicate Passes(c: Cost, session: Session, agent: Agent, start: Option<real>, end: Option<real>) {
    && (session == "" || session == c.session)
    && (agent == "" || agent == c.agent)
    && (start == None || start.value <= c.time)
    && (end == None || c.time <= end.value)
  }

  /** `r` holds the records at the positions `at` of the log, in log order, and these are all that pass. */
  ghost predicate PicksAt(
    costs: seq<Cost>, session: Session, agent: Agent, start: Option<real>, end: Option<real>, r: seq<Cost>, at: seq<nat>)
  {
    && |at| == |r|
    && (forall j :: 0 <= j < |at| ==> at[j] < |costs| && r[j] == costs[at[j]] && Passes(r[j], session, agent, start, end))
    && (forall j, k :: 0 <= j < k < |at| ==> at[j] < at[k])
    && (forall i :: 0 <= i < |costs| && Passes(costs[i], session, agent, start, end) ==> i in at)
  }

  lemma PickLast(
    costs: seq<Cost>, session: Session, agent: Agent, start: Option<real>, end: Option<real>, r: seq<Cost>, at: seq<nat>, c: Cost)
    requires PicksAt(costs, session, agent, start, end, r, at) && Passes(c, session, agent, start, end)
    ensures PicksAt(costs + [c], session, agent, start, end, r + [c], at + [|costs|])
  {
    var costs', at' := costs + [c], at + [|costs|];
    forall i | 0 <= i < |costs'| && Passes(costs'[i], session, agent, start, end) ensures i in at' {
      if i < |costs| {
        assert costs'[i] == costs[i];
        assert i in at;
      } else {
        assert at'[|at|] == i;
      }
    }
  }

  lemma PassLast(
    costs: seq<Cost>, session: Session, agent: Agent, start: Option<real>, end: Option<real>, r: seq<Cost>, at: seq<nat>, c: Cost)
    requires PicksAt(costs, session, agent, start, end, r, at) && !Passes(c, session, agent, start, end)
    ensures PicksAt(costs + [c], session, agent, start, end, r, at)
  {
    var costs' := costs + [c];
    forall i | 0 <= i < |costs'| && Passes(costs'[i], session, agent, start, end) ensures i in at {
      assert costs'[i] == costs[i];
    }
  }

  lemma SelectLast(costs: seq<Cost>, session: Session, agent: Agent, start: Option<real>, end: Option<real>)
    requires costs != []
    ensures
      var rest, c := Select(costs[..|costs| - 1], session, agent, start, end), costs[|costs| - 1];
      Select(costs, session, agent, start, end) == if Passes(c, session, agent, start, end) then rest + [c] else rest
  {
  }

  /** One more record: `rest` and `r` are the selections before and after it. */
  lemma PickStep(
    costs: seq<Cost>, session: Session, agent: Agent, start: Option<real>, end: Option<real>,
    rest: seq<Cost>, at: seq<nat>, r: seq<Cost>)
    returns (at': seq<nat>)
    requires costs != [] && PicksAt(costs[..|costs| - 1], session, agent, start, end, rest, at)
    requires r == if Passes(costs[|costs| - 1], session, agent, start, end) then rest + [costs[|costs| - 1]] else rest
    ensures PicksAt(costs, session, agent, start, end, r, at')
  {
    var front, c := costs[..|costs| - 1], costs[|costs| - 1];
    assert front + [c] == costs;
    if Passes(c, session, agent, start, end) {
      PickLast(front, session, agent, start, end, rest, at, c);
      at' := at + [|front|];
    } else {
      PassLast(front, session, agent, start, end, rest, at, c);
      at' := at;
    }
  }

  /** A query returns exactly the records that pass, in log order. */
  lemma {:induction false} SelectMeans(costs: seq<Cost>, session: Session, agent: Agent, start: Option<real>, end: Option<real>)
    returns (at: seq<nat>)
    ensures PicksAt(costs, session, agent, start, end, Select(costs, session, agent, start, end), at)
  {
    if costs == [] {
      return [];
    }
    var front := costs[..|costs| - 1];
    at := SelectMeans(front, session, agent, start, end);
    SelectLast(costs, session, agent, start, end);
    at := PickStep(costs, session, agent, start, end,
      Select(front, session, agent, start, end), at, Select(costs, session, agent, start, end));
  }

  function Total(costs: seq<Cost>): real {
    if costs == [] then 0.0 else Total(costs[..|costs| - 1]) + costs[|costs| - 1].total
  }

  /** Which records a budget is about. */
  datatype Scope = BySession(session: Session) | ByAgent(agent: Agent) | ByModel(model: Model) | Everything

  predicate Covers(scope: Scope, c: Cost) {
    match scope
    case BySession(s) => c.session == s
    case ByAgent(a) => c.agent == a
    case ByModel(m) => c.model == m
    case Everything => true
  }

  /** The money recorded within a scope. */
  function Spent(costs: seq<Cost>, scope: Scope): real {
    if costs == [] then 0.0
    else Spent(costs[..|costs| - 1], scope) + (if Covers(scope, costs[|costs| - 1]) then costs[|costs| - 1].total else 0.0)
  }

  lemma {:induction false} SpentOnEverything(costs: seq<Cost>)
    ensures Spent(costs, Everything) == Total(costs)
  {
    if costs != [] {
      SpentOnEverything(costs[..|costs| - 1]);
    }
  }

  /** The scope that a query with a single filter reads; the empty filter reads the whole log. */
  function OneFilter(session: Session, agent: Agent): Scope {
    if session != "" then BySession(session) else if agent != "" then ByAgent(agent) else Everything
  }

  lemma FilterCovers(c: Cost, session: Session, agent: Agent)
    requires session == "" || agent == ""
    ensures Matches(c, session, agent, None, None) <==> Covers(OneFilter(session, agent), c)
  {
  }

  lemma TotalLast(costs: seq<Cost>, c: Cost)
    ensures Total(costs + [c]) == Total(costs) + c.total
  {
    assert (costs + [c])[..|costs|] == costs;
  }

  lemma SelectStep(costs: seq<Cost>, session: Session, agent: Agent)
    requires costs != [] && (session == "" || agent == "")
    ensures
      var rest, c := Select(costs[..|costs| - 1], session, agent, None, None), costs[|costs| - 1];
      Select(costs, session, agent, None, None) == if Covers(OneFilter(session, agent), c) then rest + [c] else rest
  {
    FilterCovers(costs[|costs| - 1], session, agent);
  }

  lemma SpentStep(costs: seq<Cost>, scope: Scope)
    requires costs != []
    ensures Spent(costs, scope) ==
      Spent(costs[..|costs| - 1], scope) + if Covers(scope, costs[|costs| - 1]) then costs[|costs| - 1].total else 0.0
  {
  }

  /** One more record: `picked` and `more` are the selections before and after, `spent` and `spent'` the sums. */
  lemma TotalStep(picked: seq<Cost>, more: seq<Cost>, spent: real, spent': real, c: Cost, covered: bool)
    requires Total(picked) == spent
    requires more == (if covered then picked + [c] else picked) && spent' == spent + if covered then c.total else 0.0
    ensures Total(more) == spent'
  {
    if covered {
      TotalLast(picked, c);
    }
  }

  /** What a query with a single filter adds up to. */
  lemma {:induction false} SelectedTotal(costs: seq<Cost>, session: Session, agent: Agent)
    requires session == "" || agent == ""
    ensures Total(Select(costs, session, agent, None, None)) == Spent(costs, OneFilter(session, agent))
  {
    if costs != [] {
      var rest, c, scope := costs[..|costs| - 1], costs[|costs| - 1], OneFilter(session, agent);
      SelectedTotal(rest, session, agent);
      SelectStep(costs, session, agent);
      SpentStep(costs, scope);
      TotalStep(Select(rest, session, agent, None, None), Select(costs, session, agent, None, None),
        Spent(rest, scope), Spent(costs, scope), c, Covers(scope, c));
    }
  }

  /** One entry per model that occurs, holding what was spent on it. */
  ghost predicate IsBreakdown(costs: seq<Cost>, b: map<Model, real>) {
    && (forall m :: m in b <==> exists i :: 0 <= i < |costs| && costs[i].model == m)
    && (forall m :: m in b ==> b[m] == Spent(costs, ByModel(m)))
  }

  lemma {:induction false} NothingSpent(costs: seq<Cost>, m: Model)
    requires forall i :: 0 <= i < |costs| ==> costs[i].model != m
    ensures Spent(costs, ByModel(m)) == 0.0
  {
    if costs != [] {
      NothingSpent(costs[..|costs| - 1], m);
    }
  }

  lemma {:induction false} BreakdownStep(costs: seq<Cost>, b: map<Model, real>, c: Cost)
    requires IsBreakdown(costs, b)
    ensures IsBreakdown(costs + [c], b[c.model := (if c.model in b then b[c.model] else 0.0) + c.total])
  {
    var costs', b' := costs + [c], b[c.model := (if c.model in b then b[c.model] else 0.0) + c.total];
    assert costs'[..|costs|] == costs;
    if c.model !in b {
      NothingSpent(costs, c.model);
    }
    forall m ensures m in b' <==> exists i :: 0 <= i < |costs'| && costs'[i].model == m {
      if m in b {
        var i :| 0 <= i < |costs| && costs[i].model == m;
        assert costs'[i].model == m;
      }
      assert costs'[|costs|] == c;
    }
  }

  class Tracker {
    var costs: seq<Cost>

    constructor ()
      ensures costs == []
    {
      costs := [];
    }

    method Store(c: Cost)
      modifies this
      ensures costs == old(costs) + [c]
    {
      costs := costs + [c];
    }

    method Query(session: Session, agent: Agent, start: Option<real>, end: Option<real>) returns (r: seq<Cost>)
      ensures r == Select(costs, session, agent, start, end)
      ensures exists at :: PicksAt(costs, session, agent, start, end, r, at)
    {
      ghost var at := SelectMeans(costs, session, agent, start, end);
      r := [];
      for i := 0 to |costs|
        invariant r == Select(costs[..i], session, agent, start, end)
      {
        assert costs[..i + 1][..i] == costs[..i];
        if session != "" && costs[i].session != session {
          continue;
        }
        if agent != "" && costs[i].agent != agent {
          continue;
        }
        if start.Some? && costs[i].time < start.value {
          continue;
        }
        if end.Some? && costs[i].time > end.value {
          continue;
        }
        r := r + [costs[i]];
      }
      assert costs[..|costs|] == costs;
    }

    method GetSessionCost(session: Session, start: Option<real>, end: Option<real>) returns (total: real)
      ensures total == Total(Select(costs, session, "", start, end))
      ensures start.None? && end.None? ==> total == Spent(costs, SessionRead(session))
    {
      var selected := Query(session, "", start, end);
      SelectedTotal(costs, session, "");
      total := AddUp(selected);
    }

    method GetAgentCost(agent: Agent, start: Option<real>, end: Option<real>) returns (total: real)
      ensures total == Total(Select(costs, "", agent, start, end))
      ensures start.None? && end.None? ==> total == Spent(costs, AgentRead(agent))
    {
      var selected := Query("", agent, start, end);
      SelectedTotal(costs, "", agent);
      total := AddUp(selected);
    }

    method GetGlobalCost(start: Option<real>, end: Option<real>) returns (total: real)
      ensures total == Total(Select(costs, "", "", start, end))
      ensures start.None? && end.None? ==> total == Spent(costs, Everything)
    {
      var selected := Query("", "", start, end);
      SelectedTotal(costs, "", "");
      total := AddUp(selected);
    }

    method GetBreakdown(session: Session, agent: Agent) returns (b: map<Model, real>)
      ensures IsBreakdown(Select(costs, session, agent, None, None), b)
    {
      var selected := Query(session, agent, None, None);
      b := map[];
      for i := 0 to |selected|
        invariant IsBreakdown(selected[..i], b)
      {
        var c := selected[i];
        assert selected[..i + 1] == selected[..i] + [c];
        BreakdownStep(selected[..i], b, c);
        b := b[c.model := (if c.model in b then b[c.model] else 0.0) + c.total];
      }
      assert selected[..|selected|] == selected;
    }
  }

  method AddUp(costs: seq<Cost>) returns (total: real)
    ensures total == Total(costs)
  {
    total := 0.0;
    for i := 0 to |costs|
      invariant total == Total(costs[..i])
    {
      assert costs[..i + 1][..i] == costs[..i];
      total := total + costs[i].total;
    }
    assert costs[..|costs|] == costs;
  }

  // ---- Conservation ----

  /** The shares of the given scopes together. */
  function SpentAcross(costs: seq<Cost>, scopes: seq<Scope>): real {
    if scopes == [] then 0.0 else Spent(costs, scopes[0]) + SpentAcross(costs, scopes[1..])
  }

  ghost predicate OnlyAt(c: Cost, scopes: seq<Scope>, i: nat) {
    i < |scopes| && forall j :: 0 <= j < |scopes| ==> (Covers(scopes[j], c) <==> j == i)
  }

  ghost predicate CoveredOnce(c: Cost, scopes: seq<Scope>) {
    exists i :: OnlyAt(c, scopes, i)
  }

  function Share(c: Cost, scopes: seq<Scope>): real {
    if scopes == [] then 0.0 else (if Covers(scopes[0], c) then c.total else 0.0) + Share(c, scopes[1..])
  }

  lemma {:induction false} ShareOfNone(c: Cost, scopes: seq<Scope>)
    requires forall j :: 0 <= j < |scopes| ==> !Covers(scopes[j], c)
    ensures Share(c, scopes) == 0.0
  {
    if scopes != [] {
      ShareOfNone(c, scopes[1..]);
    }
  }

  lemma {:induction false} ShareOfOne(c: Cost, scopes: seq<Scope>, i: nat)
    requires OnlyAt(c, scopes, i)
    ensures Share(c, scopes) == c.total
  {
    if i == 0 {
      ShareOfNone(c, scopes[1..]);
    } else {
      ShareOfOne(c, scopes[1..], i - 1);
    }
  }

  lemma {:induction false} SpentAcrossLast(costs: seq<Cost>, scopes: seq<Scope>)
    requires costs != []
    ensures SpentAcross(costs, scopes) == SpentAcross(costs[..|costs| - 1], scopes) + Share(costs[|costs| - 1], scopes)
  {
    if scopes != [] {
      SpentAcrossLast(costs, scopes[1..]);
    }
  }

  lemma {:induction false} NothingAcrossNothing(scopes: seq<Scope>)
    ensures SpentAcross([], scopes) == 0.0
  {
    if scopes != [] {
      NothingAcrossNothing(scopes[1..]);
    }
  }

  /** Scopes that split the log without overlap add up to the global cost. */
  lemma {:induction false} SharesAddUp(costs: seq<Cost>, scopes: seq<Scope>)
    requires forall i :: 0 <= i < |costs| ==> CoveredOnce(costs[i], scopes)
    ensures SpentAcross(costs, scopes) == Total(costs)
  {
    if costs == [] {
      NothingAcrossNothing(scopes);
    } else {
      var c := costs[|costs| - 1];
      SharesAddUp(costs[..|costs| - 1], scopes);
      SpentAcrossLast(costs, scopes);
      assert CoveredOnce(c, scopes);
      var i :| OnlyAt(c, scopes, i);
      ShareOfOne(c, scopes, i);
    }
  }

  function SessionScopes(sessions: seq<Session>): seq<Scope> {
    seq(|sessions|, i requires 0 <= i < |sessions| => BySession(sessions[i]))
  }

  function ModelScopes(models: seq<Model>): seq<Scope> {
    seq(|models|, i requires 0 <= i < |models| => ByModel(models[i]))
  }

  lemma SessionCoveredOnce(c: Cost, sessions: seq<Session>)
    requires Distinct(sessions) && c.session in sessions
    ensures CoveredOnce(c, SessionScopes(sessions))
  {
    var i :| 0 <= i < |sessions| && sessions[i] == c.session;
    forall j | 0 <= j < |sessions| ensures Covers(SessionScopes(sessions)[j], c) <==> j == i {
      assert j < i ==> sessions[j] != sessions[i];
      assert i < j ==> sessions[i] != sessions[j];
    }
    assert OnlyAt(c, SessionScopes(sessions), i);
  }

  lemma ModelCoveredOnce(c: Cost, models: seq<Model>)
    requires Distinct(models) && c.model in models
    ensures CoveredOnce(c, ModelScopes(models))
  {
    var i :| 0 <= i < |models| && models[i] == c.model;
    forall j | 0 <= j < |models| ensures Covers(ModelScopes(models)[j], c) <==> j == i {
      assert j < i ==> models[j] != models[i];
      assert i < j ==> models[i] != models[j];
    }
    assert OnlyAt(c, ModelScopes(models), i);
  }

  /** In every state the session totals sum to the global cost, whatever order the sessions are listed in. */
  lemma {:induction false} SessionsAddUp(costs: seq<Cost>, sessions: seq<Session>)
    requires Distinct(sessions) && forall i :: 0 <= i < |costs| ==> costs[i].session in sessions
    ensures SpentAcross(costs, SessionScopes(sessions)) == Total(costs)
  {
    forall k | 0 <= k < |costs| ensures CoveredOnce(costs[k], SessionScopes(sessions)) {
      SessionCoveredOnce(costs[k], sessions);
    }
    SharesAddUp(costs, SessionScopes(sessions));
  }

  lemma {:induction false} ModelsAddUp(costs: seq<Cost>, models: seq<Model>)
    requires Distinct(models) && forall i :: 0 <= i < |costs| ==> costs[i].model in models
    ensures SpentAcross(costs, ModelScopes(models)) == Total(costs)
  {
    forall k | 0 <= k < |costs| ensures CoveredOnce(costs[k], ModelScopes(models)) {
      ModelCoveredOnce(costs[k], models);
    }
    SharesAddUp(costs, ModelScopes(models));
  }

  /** The values of a map, added up in the given order of its keys. */
  function ValuesTotal(b: map<Model, real>, order: seq<Model>): real
    requires forall m :: m in order ==> m in b
  {
    if order == [] then 0.0 else b[order[0]] + ValuesTotal(b, order[1..])
  }

  lemma {:induction false} ValuesAreShares(costs: seq<Cost>, b: map<Model, real>, order: seq<Model>)
    requires IsBreakdown(costs, b) && forall m :: m in order ==> m in b
    ensures ValuesTotal(b, order) == SpentAcross(costs, ModelScopes(order))
  {
    if order != [] {
      ValuesAreShares(costs, b, order[1..]);
      assert ModelScopes(order)[1..] == ModelScopes(order[1..]);
    }
  }

  /** The breakdown sums to the total of the records it was made from, in whatever order its keys are visited. */
  lemma {:induction false} BreakdownAddsUp(costs: seq<Cost>, b: map<Model, real>, order: seq<Model>)
    requires IsBreakdown(costs, b) && Distinct(order) && forall m :: m in order <==> m in b
    ensures ValuesTotal(b, order) == Total(costs)
  {
    ValuesAreShares(costs, b, order);
    forall i | 0 <= i < |costs| ensures costs[i].model in order {
      assert costs[i].model in b;
    }
    ModelsAddUp(costs, order);
  }

  // ---- The limiter ----

  /** The configured action on a spent budget; any other word is refused when it is needed. */
  datatype Action = Error | Warning | SwitchModel | Other(word: string)

  datatype Limits = Limits(session: Option<real>, agent: Option<real>, everything: Option<real>, action: Action)

  datatype Request = Request(session: Session, agent: Agent)

  datatype BudgetError = BudgetExceeded(scope: Scope) | UnknownAction(action: Action)

  /** The budget that applies to a scope. */
  function BudgetOf(limits: Limits, scope: Scope): Option<real> {
    match scope
    case BySession(_) => limits.session
    case ByAgent(_) => limits.agent
    case ByModel(_) => None
    case Everything => limits.everything
  }

  predicate Concerns(scope: Scope, r: Request) {
    match scope
    case BySession(s) => r.session == s
    case ByAgent(a) => r.agent == a
    case ByModel(_) => false
    case Everything => true
  }

  /** These two actions only write a log line, and skip the budgets not yet looked at. */
  predicate Lenient(action: Action) {
    action.Warning? || action.SwitchModel?
  }

  function SessionRead(session: Session): Scope {
    if session != "" then BySession(session) else Everything
  }

  function AgentRead(agent: Agent): Scope {
    if agent != "" then ByAgent(agent) else Everything
  }

  predicate Exceeded(costs: seq<Cost>, read: Scope, budget: Option<real>) {
    budget.Some? && Spent(costs, read) >= budget.value
  }

  predicate AnyExceeded(limits: Limits, costs: seq<Cost>, r: Request) {
    || Exceeded(costs, SessionRead(r.session), limits.session)
    || Exceeded(costs, AgentRead(r.agent), limits.agent)
    || Exceeded(costs, Everything, limits.everything)
  }

  /** The budget an error names: session before agent before the whole log. */
  function FirstExceeded(limits: Limits, costs: seq<Cost>, r: Request): (scope: Option<Scope>)
    ensures scope.Some? <==> AnyExceeded(limits, costs, r)
    ensures scope.Some? ==> Concerns(scope.value, r) && BudgetOf(limits, scope.value).Some?
  {
    if Exceeded(costs, SessionRead(r.session), limits.session) then Some(BySession(r.session))
    else if Exceeded(costs, AgentRead(r.agent), limits.agent) then Some(ByAgent(r.agent))
    else if Exceeded(costs, Everything, limits.everything) then Some(Everything)
    else None
  }

  predicate Admits(limits: Limits, costs: seq<Cost>, r: Request) {
    Lenient(limits.action) || !AnyExceeded(limits, costs, r)
  }

  /** What the agent's response says it used; nothing is recorded without a known price. */
  datatype Charge = Charge(model: Model, price: Option<real>, time: real)

  datatype State = State(costs: seq<Cost>, inFlight: seq<Request>)

  datatype Event = Begin(request: Request) | Refuse(request: Request) | Finish(i: nat, charge: Option<Charge>)

  function Without(inFlight: seq<Request>, i: nat): seq<Request>
    requires i < |inFlight|
  {
    inFlight[..i] + inFlight[i + 1..]
  }

  predicate Legal(limits: Limits, s: State, e: Event) {
    match e
    case Begin(r) => Admits(limits, s.costs, r)
    case Refuse(r) => !Admits(limits, s.costs, r)
    case Finish(i, _) => i < |s.inFlight|
  }

  function Recorded(costs: seq<Cost>, r: Request, charge: Option<Charge>): seq<Cost> {
    if charge.Some? && charge.value.price.Some?
    then costs + [Cost(r.session, r.agent, charge.value.model, charge.value.price.value, charge.value.time)]
    else costs
  }

  function Step(s: State, e: Event): State
    requires e.Finish? ==> e.i < |s.inFlight|
  {
    match e
    case Begin(r) => s.(inFlight := s.inFlight + [r])
    case Refuse(_) => s
    case Finish(i, charge) => State(Recorded(s.costs, s.inFlight[i], charge), Without(s.inFlight, i))
  }

  class Limiter {
    const tracker: Tracker
    const limits: Limits
    ghost var inFlight: seq<Request>

    constructor (tracker: Tracker, limits: Limits)
      ensures this.tracker == tracker && this.limits == limits && inFlight == []
    {
      this.tracker, this.limits := tracker, limits;
      inFlight := [];
    }

    ghost function Snapshot(): State
      reads this, tracker
    {
      State(tracker.costs, inFlight)
    }

    method HandleBudgetExceeded(scope: Scope) returns (r: Result<(), BudgetError>)
      ensures r.Ok? <==> Lenient(limits.action)
      ensures r.Err? ==>
        r.error == if limits.action.Error? then BudgetExceeded(scope) else UnknownAction(limits.action)
    {
      match limits.action
      case Error => r := Err(BudgetExceeded(scope));
      case Warning => r := Ok(());
      case SwitchModel => r := Ok(());
      case Other(_) => r := Err(UnknownAction(limits.action));
    }

    method CheckBudgets(request: Request) returns (r: Result<(), BudgetError>)
      ensures r.Ok? <==> Admits(limits, tracker.costs, request)
      ensures r.Err? && limits.action.Error? ==>
        r.error.BudgetExceeded? && FirstExceeded(limits, tracker.costs, request) == Some(r.error.scope)
      ensures r.Err? && !limits.action.Error? ==> r.error == UnknownAction(limits.action)
      ensures r.Ok? <==>
        || limits.action.Warning? || limits.action.SwitchModel?
        || (&& (limits.session.Some? ==> Spent(tracker.costs, SessionRead(request.session)) < limits.session.value)
            && (limits.agent.Some? ==> Spent(tracker.costs, AgentRead(request.agent)) < limits.agent.value)
            && (limits.everything.Some? ==> Spent(tracker.costs, Everything) < limits.everything.value))
      ensures r.Err? && limits.action.Error? ==>
        && (r.error.scope.BySession? <==> Exceeded(tracker.costs, SessionRead(request.session), limits.session))
        && (r.error.scope == Everything <==>
            && !Exceeded(tracker.costs, SessionRead(request.session), limits.session)
            && !Exceeded(tracker.costs, AgentRead(request.agent), limits.agent))
    {
      if limits.session.Some? {
        var cost := tracker.GetSessionCost(request.session, None, None);
        assert cost == Spent(tracker.costs, SessionRead(request.session));
        if cost >= limits.session.value {
          r := HandleBudgetExceeded(BySession(request.session));
          return;
        }
      }
      assert !Exceeded(tracker.costs, SessionRead(request.session), limits.session);
      if limits.agent.Some? {
        var cost := tracker.GetAgentCost(request.agent, None, None);
        assert cost == Spent(tracker.costs, AgentRead(request.agent));
        if cost >= limits.agent.value {
          r := HandleBudgetExceeded(ByAgent(request.agent));
          return;
        }
      }
      assert !Exceeded(tracker.costs, AgentRead(request.agent), limits.agent);
      if limits.everything.Some? {
        var cost := tracker.GetGlobalCost(None, None);
        if cost >= limits.everything.value {
          r := HandleBudgetExceeded(Everything);
          return;
        }
      }
      r := Ok(());
    }

    /** The first half of Process, up to the call of the wrapped agent. */
    method BeginRequest(request: Request) returns (r: Result<(), BudgetError>)
      modifies this
      ensures var e := if r.Ok? then Begin(request) else Refuse(request);
        Legal(limits, old(Snapshot()), e) && Snapshot() == Step(old(Snapshot()), e)
    {
      r := CheckBudgets(request);
      if r.Ok? {
        inFlight := inFlight + [request];
      }
    }

    /** The second half: `charge` is absent when the agent failed or reported no usage. */
    method FinishRequest(request: Request, charge: Option<Charge>, ghost i: nat)
      requires i < |inFlight| && inFlight[i] == request
      modifies this, tracker
      ensures Snapshot() == Step(old(Snapshot()), Finish(i, charge))
      ensures charge.Some? && charge.value.price.Some? ==>
        var paid := Cost(request.session, request.agent, charge.value.model, charge.value.price.value, charge.value.time);
        tracker.costs == old(tracker.costs) + [paid]
      ensures charge.None? || charge.value.price.None? ==> tracker.costs == old(tracker.costs)
    {
      inFlight := Without(inFlight, i);
      if charge.Some? && charge.value.price.Some? {
        tracker.Store(Cost(request.session, request.agent, charge.value.model, charge.value.price.value, charge.value.time));
      }
    }
  }

  // ---- Overshoot ----

  function Busy(inFlight: seq<Request>, scope: Scope): nat {
    if inFlight == [] then 0
    else Busy(inFlight[..|inFlight| - 1], scope) + (if Concerns(scope, inFlight[|inFlight| - 1]) then 1 else 0)
  }

  lemma {:induction false} BusyConcat(a: seq<Request>, b: seq<Request>, scope: Scope)
    ensures Busy(a + b, scope) == Busy(a, scope) + Busy(b, scope)
  {
    if b == [] {
      assert a + b == a;
    } else {
      assert (a + b)[..|a + b| - 1] == a + b[..|b| - 1];
      BusyConcat(a, b[..|b| - 1], scope);
    }
  }

  lemma BusyWithout(inFlight: seq<Request>, i: nat, scope: Scope)
    requires i < |inFlight|
    ensures Busy(inFlight, scope) == Busy(Without(inFlight, i), scope) + (if Concerns(scope, inFlight[i]) then 1 else 0)
  {
    assert inFlight == inFlight[..i] + ([inFlight[i]] + inFlight[i + 1..]);
    BusyConcat(inFlight[..i], [inFlight[i]] + inFlight[i + 1..], scope);
    BusyConcat([inFlight[i]], inFlight[i + 1..], scope);
    BusyConcat(inFlight[..i], inFlight[i + 1..], scope);
  }

  ghost predicate NonNegative(costs: seq<Cost>) {
    forall i :: 0 <= i < |costs| ==> costs[i].total >= 0.0
  }

  /** With no negative records the whole log never costs less than a part of it. */
  lemma {:induction false} PartAtMostWhole(costs: seq<Cost>, scope: Scope)
    requires NonNegative(costs)
    ensures Spent(costs, scope) <= Spent(costs, Everything)
  {
    if costs != [] {
      PartAtMostWhole(costs[..|costs| - 1], scope);
    }
  }

  /** Every charge lies between zero and `c`. */
  ghost predicate Charged(e: Event, c: real) {
    e.Finish? && e.charge.Some? && e.charge.value.price.Some? ==> 0.0 <= e.charge.value.price.value <= c
  }

  /** A run of interleaved requests, never more than `k` of the scope in flight, none charging more than `c`. */
  ghost predicate RunsTo(limits: Limits, scope: Scope, k: nat, c: real, s: State, es: seq<Event>, s': State)
    decreases |es|
  {
    if es == [] then s' == s
    else
      && Legal(limits, s, es[0]) && Charged(es[0], c)
      && Busy(Step(s, es[0]).inFlight, scope) <= k
      && RunsTo(limits, scope, k, c, Step(s, es[0]), es[1..], s')
  }

  /** What `n` requests may still add. */
  function Pending(n: nat, c: real): real {
    if n == 0 then 0.0 else Pending(n - 1, c) + c
  }

  lemma {:induction false} PendingIsProduct(n: nat, c: real)
    ensures Pending(n, c) == n as real * c
  {
    if n > 0 {
      PendingIsProduct(n - 1, c);
      assert n as real == (n - 1) as real + 1.0;
      assert n as real * c == (n - 1) as real * c + c;
    }
  }

  lemma {:induction false} PendingGrows(n: nat, k: nat, c: real)
    requires n <= k && c >= 0.0
    ensures 0.0 <= Pending(n, c) <= Pending(k, c)
    decreases k
  {
    if n < k {
      PendingGrows(n, k - 1, c);
    } else if 0 < n {
      PendingGrows(n - 1, n - 1, c);
    }
  }

  /** Money spent plus what the requests in flight may still add. */
  ghost predicate Within(s: State, scope: Scope, budget: real, k: nat, c: real) {
    NonNegative(s.costs) && Spent(s.costs, scope) + Pending(Busy(s.inFlight, scope), c) < budget + Pending(k, c)
  }

  lemma AdmittedBelow(limits: Limits, costs: seq<Cost>, r: Request, scope: Scope)
    requires !Lenient(limits.action) && Admits(limits, costs, r) && NonNegative(costs)
    requires Concerns(scope, r) && BudgetOf(limits, scope).Some?
    ensures Spent(costs, scope) < BudgetOf(limits, scope).value
  {
    PartAtMostWhole(costs, scope);
  }

  lemma BeginWithin(limits: Limits, scope: Scope, k: nat, c: real, s: State, r: Request)
    requires !Lenient(limits.action) && BudgetOf(limits, scope).Some? && c >= 0.0
    requires Admits(limits, s.costs, r) && Busy(s.inFlight + [r], scope) <= k
    requires Within(s, scope, BudgetOf(limits, scope).value, k, c)
    ensures Within(State(s.costs, s.inFlight + [r]), scope, BudgetOf(limits, scope).value, k, c)
  {
    assert (s.inFlight + [r])[..|s.inFlight|] == s.inFlight;
    if Concerns(scope, r) {
      AdmittedBelow(limits, s.costs, r, scope);
      PendingGrows(Busy(s.inFlight + [r], scope), k, c);
    }
  }

  lemma FinishWithin(limits: Limits, scope: Scope, k: nat, c: real, s: State, i: nat, charge: Option<Charge>)
    requires BudgetOf(limits, scope).Some? && c >= 0.0
    requires i < |s.inFlight| && Charged(Finish(i, charge), c)
    requires Within(s, scope, BudgetOf(limits, scope).value, k, c)
    ensures Within(Step(s, Finish(i, charge)), scope, BudgetOf(limits, scope).value, k, c)
  {
    BusyWithout(s.inFlight, i, scope);
    var costs' := Recorded(s.costs, s.inFlight[i], charge);
    if charge.Some? && charge.value.price.Some? {
      assert costs'[..|s.costs|] == s.costs;
    }
  }

  lemma StepWithin(limits: Limits, scope: Scope, k: nat, c: real, s: State, e: Event)
    requires !Lenient(limits.action) && BudgetOf(limits, scope).Some? && c >= 0.0
    requires Legal(limits, s, e) && Charged(e, c) && Busy(Step(s, e).inFlight, scope) <= k
    requires Within(s, scope, BudgetOf(limits, scope).value, k, c)
    ensures Within(Step(s, e), scope, BudgetOf(limits, scope).value, k, c)
  {
    match e
    case Begin(r) => BeginWithin(limits, scope, k, c, s, r);
    case Refuse(r) =>
    case Finish(i, charge) => FinishWithin(limits, scope, k, c, s, i, charge);
  }

  /**
   * Under a strict action a budget is overshot by less than what the requests in flight at one time can charge,
   * in every reachable state, for sessions, agents and the whole log alike.
   */
  lemma {:induction false} OvershootBound(
    limits: Limits, scope: Scope, k: nat, c: real, s: State, es: seq<Event>, s': State)
    requires !Lenient(limits.action) && BudgetOf(limits, scope).Some? && c >= 0.0
    requires Within(s, scope, BudgetOf(limits, scope).value, k, c)
    requires RunsTo(limits, scope, k, c, s, es, s')
    ensures Within(s', scope, BudgetOf(limits, scope).value, k, c)
    ensures Spent(s'.costs, scope) < BudgetOf(limits, scope).value + k as real * c
    decreases |es|
  {
    if es == [] {
      PendingGrows(0, Busy(s.inFlight, scope), c);
      PendingIsProduct(k, c);
    } else {
      StepWithin(limits, scope, k, c, s, es[0]);
      OvershootBound(limits, scope, k, c, Step(s, es[0]), es[1..], s');
    }
  }

  // ---- Three reads as one ----

  /** The check with its three reads, each under its own lock, so that the log may grow in between. */
  predicate AdmitsByReads(limits: Limits, first: seq<Cost>, second: seq<Cost>, third: seq<Cost>, r: Request) {
    || Lenient(limits.action)
    || (&& !Exceeded(first, SessionRead(r.session), limits.session)
        && !Exceeded(second, AgentRead(r.agent), limits.agent)
        && !Exceeded(third, Everything, limits.everything))
  }

  lemma {:induction false} SpendingGrows(costs: seq<Cost>, later: seq<Cost>, scope: Scope)
    requires NonNegative(later) && costs <= later
    ensures Spent(costs, scope) <= Spent(later, scope)
  {
    if |costs| < |later| {
      SpendingGrows(costs, later[..|later| - 1], scope);
    } else {
      assert costs == later;
    }
  }

  /**
   Spending only grows, so a request that the three reads admit would have been admitted at the first of them, and
   one that they refuse would be refused at the last.  It counts as in flight from its first read on.
   */
  lemma ReadsActAsOne(limits: Limits, first: seq<Cost>, second: seq<Cost>, third: seq<Cost>, r: Request)
    requires NonNegative(third) && first <= second <= third
    ensures AdmitsByReads(limits, first, second, third, r) ==> Admits(limits, first, r)
    ensures !AdmitsByReads(limits, first, second, third, r) ==> !Admits(limits, third, r)
  {
    assert NonNegative(second) by {
      assert forall i :: 0 <= i < |second| ==> second[i] == third[i];
    }
    SpendingGrows(first, second, AgentRead(r.agent));
    SpendingGrows(first, third, Everything);
    SpendingGrows(first, third, SessionRead(r.session));
    SpendingGrows(second, third, AgentRead(r.agent));
  }

  // ---- The bound is exact ----

  /** The run starts with nothing spent and nothing in flight. */
  const IDLE := State([], [])

  /** Some run leads from `s` to `s'`. */
  ghost predicate Reaches(limits: Limits, scope: Scope, k: nat, c: real, s: State, s': State) {
    exists es :: RunsTo(limits, scope, k, c, s, es, s')
  }

  ghost predicate AlwaysBelow(limits: Limits, scope: Scope, k: nat, c: real, bound: real) {
    forall s' :: Reaches(limits, scope, k, c, IDLE, s') ==> Spent(s'.costs, scope) < bound
  }

  function RequestIn(scope: Scope): Request {
    match scope
    case BySession(s) => Request(s, "")
    case ByAgent(a) => Request("", a)
    case ByModel(_) => Request("", "")
    case Everything => Request("", "")
  }

  function Paid(c: real): Option<Charge> {
    Some(Charge("unknown", Some(c), 0.0))
  }

  lemma {:induction false} RunsFirst(limits: Limits, scope: Scope, k: nat, c: real, s: State, e: Event, es: seq<Event>, s': State)
    requires Legal(limits, s, e) && Charged(e, c) && Busy(Step(s, e).inFlight, scope) <= k
    requires RunsTo(limits, scope, k, c, Step(s, e), es, s')
    ensures RunsTo(limits, scope, k, c, s, [e] + es, s')
  {
    assert ([e] + es)[1..] == es;
  }

  /** Whatever can be reached from `m` can be reached from `s`. */
  ghost predicate Leads(limits: Limits, scope: Scope, k: nat, c: real, s: State, m: State) {
    forall s' :: Reaches(limits, scope, k, c, m, s') ==> Reaches(limits, scope, k, c, s, s')
  }

  lemma LeadsOn(limits: Limits, scope: Scope, k: nat, c: real, s: State, m: State, s': State)
    requires Leads(limits, scope, k, c, s, m) && Leads(limits, scope, k, c, m, s')
    ensures Leads(limits, scope, k, c, s, s')
  {
  }

  lemma LeadsNext(limits: Limits, scope: Scope, k: nat, c: real, s: State, e: Event)
    requires Legal(limits, s, e) && Charged(e, c) && Busy(Step(s, e).inFlight, scope) <= k
    ensures Leads(limits, scope, k, c, s, Step(s, e))
  {
    forall s' | Reaches(limits, scope, k, c, Step(s, e), s') ensures Reaches(limits, scope, k, c, s, s') {
      var es :| RunsTo(limits, scope, k, c, Step(s, e), es, s');
      RunsFirst(limits, scope, k, c, s, e, es, s');
    }
  }

  lemma LeadsToReached(limits: Limits, scope: Scope, k: nat, c: real, s: State, s': State)
    requires Leads(limits, scope, k, c, s, s')
    ensures Reaches(limits, scope, k, c, s, s')
  {
    assert RunsTo(limits, scope, k, c, s', [], s');
  }

  /** What one more paid request of the scope does to its books. */
  lemma PaidOnce(s: State, scope: Scope, price: real, rest: seq<Request>)
    requires !scope.ByModel? && s.inFlight == [RequestIn(scope)] + rest
    ensures
      var s' := Step(s, Finish(0, Paid(price)));
      && s'.inFlight == rest && Spent(s'.costs, scope) == Spent(s.costs, scope) + price
      && Spent(s'.costs, Everything) == Spent(s.costs, Everything) + price
      && (NonNegative(s.costs) && price >= 0.0 ==> NonNegative(s'.costs))
  {
    var s' := Step(s, Finish(0, Paid(price)));
    assert s'.costs[..|s.costs|] == s.costs;
  }

  lemma {:induction false} BusyAtMost(inFlight: seq<Request>, scope: Scope)
    ensures Busy(inFlight, scope) <= |inFlight|
  {
    if inFlight != [] {
      BusyAtMost(inFlight[..|inFlight| - 1], scope);
    }
  }

  /** The first request in flight, one of the scope, pays. */
  lemma FinishOne(limits: Limits, scope: Scope, k: nat, c: real, s: State, rest: seq<Request>, price: real) returns (s': State)
    requires !scope.ByModel? && 0.0 <= price <= c && |rest| < k && s.inFlight == [RequestIn(scope)] + rest
    ensures Leads(limits, scope, k, c, s, s')
    ensures s'.inFlight == rest && (NonNegative(s.costs) ==> NonNegative(s'.costs))
    ensures Spent(s'.costs, scope) == Spent(s.costs, scope) + price
    ensures Spent(s'.costs, Everything) == Spent(s.costs, Everything) + price
  {
    PaidOnce(s, scope, price, rest);
    BusyAtMost(rest, scope);
    LeadsNext(limits, scope, k, c, s, Finish(0, Paid(price)));
    s' := Step(s, Finish(0, Paid(price)));
  }

  lemma BeginOne(limits: Limits, scope: Scope, k: nat, c: real, s: State) returns (s': State)
    requires Admits(limits, s.costs, RequestIn(scope)) && k >= 1 && s.inFlight == []
    ensures Leads(limits, scope, k, c, s, s') && s'.costs == s.costs && s'.inFlight == [RequestIn(scope)]
  {
    s' := Step(s, Begin(RequestIn(scope)));
    BusyAtMost(s'.inFlight, scope);
    LeadsNext(limits, scope, k, c, s, Begin(RequestIn(scope)));
  }

  /** One request of the scope, from its admission to its payment. */
  lemma PayOne(limits: Limits, scope: Scope, k: nat, c: real, s: State, price: real) returns (s': State)
    requires Admits(limits, s.costs, RequestIn(scope)) && !scope.ByModel? && 0.0 <= price <= c && k >= 1 && s.inFlight == []
    ensures Leads(limits, scope, k, c, s, s')
    ensures s'.inFlight == [] && (NonNegative(s.costs) ==> NonNegative(s'.costs))
    ensures Spent(s'.costs, scope) == Spent(s.costs, scope) + price
    ensures Spent(s'.costs, Everything) == Spent(s.costs, Everything) + price
  {
    var s1 := BeginOne(limits, scope, k, c, s);
    s' := FinishOne(limits, scope, k, c, s1, [], price);
    LeadsOn(limits, scope, k, c, s, s1, s');
  }

  /** Under a lenient action nothing is ever refused: `n` requests one after the other cost `n` times as much. */
  lemma {:induction false} LenientRun(limits: Limits, scope: Scope, k: nat, c: real, s: State, n: nat) returns (s': State)
    requires Lenient(limits.action) && BudgetOf(limits, scope).Some? && c >= 0.0 && k >= 1 && s.inFlight == []
    ensures Leads(limits, scope, k, c, s, s')
    ensures Spent(s'.costs, scope) == Spent(s.costs, scope) + Pending(n, c)
    decreases n
  {
    if n == 0 {
      return s;
    }
    var m := PayOne(limits, scope, k, c, s, c);
    s' := LenientRun(limits, scope, k, c, m, n - 1);
    LeadsOn(limits, scope, k, c, s, m, s');
  }

  lemma Quotient(a: real, b: real, k: real)
    requires a >= 0.0 && b > 0.0
    ensures a / b * b == a && 0.0 <= a / b
    ensures a / b < k ==> a < k * b
    ensures a < b * k ==> a / b < k
  {
    var q := a / b;
    assert q * b == a;
    assert (q - k) * b == a - k * b;
  }

  lemma EnoughRequests(amount: real, c: real) returns (n: nat)
    requires c > 0.0 && amount > 0.0
    ensures Pending(n, c) >= amount
  {
    n := (amount / c).Floor + 1;
    Quotient(amount, c, n as real);
    PendingIsProduct(n, c);
  }

  /** The budget is enforced up to the requests in flight exactly when the action is neither lenient one. */
  lemma EnforcedIff(limits: Limits, scope: Scope, k: nat, c: real)
    requires BudgetOf(limits, scope).Some? && BudgetOf(limits, scope).value > 0.0 && c > 0.0 && k >= 1
    ensures AlwaysBelow(limits, scope, k, c, BudgetOf(limits, scope).value + k as real * c) <==> !Lenient(limits.action)
  {
    var budget := BudgetOf(limits, scope).value;
    var bound := budget + k as real * c;
    PendingIsProduct(k, c);
    PendingGrows(0, k, c);
    if Lenient(limits.action) {
      var n := EnoughRequests(bound, c);
      var s' := LenientRun(limits, scope, k, c, IDLE, n);
      LeadsToReached(limits, scope, k, c, IDLE, s');
      assert Spent(s'.costs, scope) >= bound;
    } else {
      forall s' | Reaches(limits, scope, k, c, IDLE, s') ensures Spent(s'.costs, scope) < bound {
        var es :| RunsTo(limits, scope, k, c, IDLE, es, s');
        OvershootBound(limits, scope, k, c, IDLE, es, s');
      }
    }
  }

  lemma {:induction false} FinishMany(limits: Limits, scope: Scope, k: nat, c: real, s: State, n: nat) returns (s': State)
    requires BudgetOf(limits, scope).Some? && c >= 0.0 && n <= k && s.inFlight == seq(n, i => RequestIn(scope))
    ensures Leads(limits, scope, k, c, s, s')
    ensures Spent(s'.costs, scope) == Spent(s.costs, scope) + Pending(n, c)
    decreases n
  {
    if n == 0 {
      return s;
    }
    var rest := seq(n - 1, i => RequestIn(scope));
    assert s.inFlight == [RequestIn(scope)] + rest;
    var m := FinishOne(limits, scope, k, c, s, rest, c);
    s' := FinishMany(limits, scope, k, c, m, n - 1);
    LeadsOn(limits, scope, k, c, s, m, s');
  }

  /** As long as every budget has room, requests pile up and then all charge. */
  lemma {:induction false} PileUp(limits: Limits, scope: Scope, k: nat, c: real, s: State, j: nat) returns (s': State)
    requires BudgetOf(limits, scope).Some? && c >= 0.0 && j <= k && s.inFlight == seq(j, i => RequestIn(scope))
    requires !AnyExceeded(limits, s.costs, RequestIn(scope))
    ensures Leads(limits, scope, k, c, s, s')
    ensures Spent(s'.costs, scope) == Spent(s.costs, scope) + Pending(k, c)
    decreases k - j
  {
    if j == k {
      s' := FinishMany(limits, scope, k, c, s, k);
    } else {
      var m := Step(s, Begin(RequestIn(scope)));
      assert m.inFlight == seq(j + 1, i => RequestIn(scope));
      BusyAtMost(m.inFlight, scope);
      LeadsNext(limits, scope, k, c, s, Begin(RequestIn(scope)));
      s' := PileUp(limits, scope, k, c, m, j + 1);
      LeadsOn(limits, scope, k, c, s, m, s');
    }
  }

  /** No other budget is smaller than the one of the scope. */
  ghost predicate Tightest(limits: Limits, scope: Scope) {
    && BudgetOf(limits, scope).Some?
    && (limits.session.Some? ==> limits.session.value >= BudgetOf(limits, scope).value)
    && (limits.agent.Some? ==> limits.agent.value >= BudgetOf(limits, scope).value)
    && (limits.everything.Some? ==> limits.everything.value >= BudgetOf(limits, scope).value)
  }

  /** With less in the whole log than the tightest budget, every request is admitted. */
  lemma RoomForAll(limits: Limits, scope: Scope, costs: seq<Cost>, r: Request)
    requires Tightest(limits, scope) && NonNegative(costs) && Spent(costs, Everything) < BudgetOf(limits, scope).value
    ensures !AnyExceeded(limits, costs, r)
  {
    PartAtMostWhole(costs, SessionRead(r.session));
    PartAtMostWhole(costs, AgentRead(r.agent));
  }

  /** Requests of the scope, one after the other, each at the same price. */
  lemma {:induction false} PayUp(limits: Limits, scope: Scope, k: nat, c: real, s: State, price: real, n: nat)
    returns (s': State)
    requires Tightest(limits, scope) && k >= 1 && 0.0 <= price <= c && s.inFlight == [] && NonNegative(s.costs)
    requires Spent(s.costs, Everything) + Pending(n, price) < BudgetOf(limits, scope).value
    ensures Leads(limits, scope, k, c, s, s') && s'.inFlight == [] && NonNegative(s'.costs)
    ensures Spent(s'.costs, scope) == Spent(s.costs, scope) + Pending(n, price)
    ensures Spent(s'.costs, Everything) == Spent(s.costs, Everything) + Pending(n, price)
    decreases n
  {
    if n == 0 {
      return s;
    }
    PendingGrows(0, n, price);
    RoomForAll(limits, scope, s.costs, RequestIn(scope));
    var m := PayOne(limits, scope, k, c, s, price);
    s' := PayUp(limits, scope, k, c, m, price, n - 1);
    LeadsOn(limits, scope, k, c, s, m, s');
  }

  /** An amount split into equal prices that do not exceed `c`. */
  lemma Instalments(amount: real, c: real) returns (n: nat, price: real)
    requires amount >= 0.0 && c > 0.0
    ensures 0.0 <= price <= c && Pending(n, price) == amount
  {
    n := (amount / c).Floor + 1;
    price := amount / n as real;
    Quotient(amount, c, n as real);
    Quotient(amount, n as real, c);
    PendingIsProduct(n, price);
  }

  /** No smaller bound would do: for every largest charge the spending comes as near to it as one likes. */
  lemma BoundIsTight(limits: Limits, scope: Scope, k: nat, c: real, gap: real) returns (s': State)
    requires Tightest(limits, scope) && k >= 1 && c > 0.0 && 0.0 < gap <= BudgetOf(limits, scope).value
    ensures Reaches(limits, scope, k, c, IDLE, s')
    ensures Spent(s'.costs, scope) == BudgetOf(limits, scope).value + k as real * c - gap
  {
    var n, price := Instalments(BudgetOf(limits, scope).value - gap, c);
    var m := PayUp(limits, scope, k, c, IDLE, price, n);
    RoomForAll(limits, scope, m.costs, RequestIn(scope));
    assert m.inFlight == seq(0, i => RequestIn(scope));
    s' := PileUp(limits, scope, k, c, m, 0);
    PendingIsProduct(k, c);
    LeadsOn(limits, scope, k, c, IDLE, m, s');
    LeadsToReached(limits, scope, k, c, IDLE, s');
  }

  /** A request with an empty session id is held against the whole log, whatever its own session spent. */
  lemma EmptySessionReadsAll(limits: Limits, costs: seq<Cost>, r: Request)
    requires r.session == "" && limits.action.Error? && limits.session.Some? && Total(costs) >= limits.session.value
    ensures !Admits(limits, costs, r)
  {
    SpentOnEverything(costs);
  }
}
