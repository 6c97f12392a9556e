/** The intent lifecycle (packages/domain/src/state-machine.ts): the transition graph, `transitionIntent`,
    and what every legal path through the graph obeys. */
module IntentStates {
  import opened Results

  datatype State =
    | Draft | Quoting | AwaitingApproval | ProcurementReady | ProcurementExecuting | AwaitingDeliveries
    | Evaluating | Rejected | ExecutionReady | AwaitingFinalApproval | Executing
    | Succeeded | Failed | Unconfirmed | Expired | Cancelled

  function Allowed(from: State): seq<State> {
    match from
    case Draft => [Quoting]
    case Quoting => [AwaitingApproval, ProcurementReady]
    case AwaitingApproval => [ProcurementReady, Cancelled]
    case ProcurementReady => [ProcurementExecuting]
    case ProcurementExecuting => [AwaitingDeliveries, Failed, Unconfirmed]
    case AwaitingDeliveries => [Evaluating, Expired]
    case Evaluating => [Rejected, ExecutionReady]
    case ExecutionReady => [AwaitingFinalApproval, Executing]
    case AwaitingFinalApproval => [Executing, Cancelled]
    case Executing => [Succeeded, Failed, Unconfirmed]
    case Unconfirmed => [Succeeded, Failed]
    case Rejected | Succeeded | Failed | Expired | Cancelled => []
  }

  predicate IsTerminal(s: State) {
    s.Succeeded? || s.Rejected? || s.Failed? || s.Expired? || s.Cancelled?
  }

  predicate CanTransition(from: State, to: State) {
    to in Allowed(from)
  }

  /** The lifecycle read backwards: the states that lead to a state. */
  function Sources(to: State): set<State> {
    match to
    case Draft => {}
    case Quoting => {Draft}
    case AwaitingApproval => {Quoting}
    case ProcurementReady => {Quoting, AwaitingApproval}
    case ProcurementExecuting => {ProcurementReady}
    case AwaitingDeliveries => {ProcurementExecuting}
    case Evaluating => {AwaitingDeliveries}
    case Rejected => {Evaluating}
    case ExecutionReady => {Evaluating}
    case AwaitingFinalApproval => {ExecutionReady}
    case Executing => {ExecutionReady, AwaitingFinalApproval}
    case Succeeded => {Executing, Unconfirmed}
    case Failed => {ProcurementExecuting, Executing, Unconfirmed}
    case Unconfirmed => {ProcurementExecuting, Executing}
    case Expired => {AwaitingDeliveries}
    case Cancelled => {AwaitingApproval, AwaitingFinalApproval}
  }

  lemma SourcesIff(from: State, to: State)
    ensures CanTransition(from, to) <==> from in Sources(to)
  {
  }

  datatype TransitionError = TerminalState | IllegalTransition | TraceMismatch | TimestampPrecedes

  function AssertTransition(from: State, to: State): (r: Result<(), TransitionError>)
    ensures r.Ok? <==> CanTransition(from, to)
  {
    if IsTerminal(from) then Err(TerminalState)
    else if !CanTransition(from, to) then Err(IllegalTransition)
    else Ok(())
  }

  /** `content` stands for the fields no transition touches. */
  datatype Intent = Intent(id: string, state: State, stateVersion: nat, updatedAt: int, traceId: string, content: string)

  datatype Command = Command(to: State, traceId: string, occurredAt: int)

  datatype Transition = Transition(intentId: string, from: State, to: State, fromVersion: nat, toVersion: nat,
                                   traceId: string, occurredAt: int, beforeHash: string, afterHash: string)

  /** `transitionIntent`, for an intent hash. */
  function TransitionIntent(hash: Intent -> string, i: Intent, c: Command): (r: Result<(Intent, Transition), TransitionError>)
    ensures r.Ok? <==> CanTransition(i.state, c.to) && c.traceId == i.traceId && i.updatedAt <= c.occurredAt
  {
    var _ :- AssertTransition(i.state, c.to);
    if c.traceId != i.traceId then Err(TraceMismatch)
    else if c.occurredAt < i.updatedAt then Err(TimestampPrecedes)
    else
      var next := i.(state := c.to, stateVersion := i.stateVersion + 1, updatedAt := c.occurredAt);
      Ok((next, Transition(i.id, i.state, c.to, i.stateVersion, next.stateVersion, c.traceId, c.occurredAt,
                           hash(i), hash(next))))
  }

  /** The terminal test and the table agree: a state is terminal exactly when it has no successor. */
  lemma TerminalIff(s: State)
    ensures IsTerminal(s) <==> Allowed(s) == []
  {
  }

  // Paths

  /** Why a transition is refused: the first of finality, the graph, the trace and the time that speaks against it. */
  lemma RefusedIff(hash: Intent -> string, i: Intent, c: Command)
    ensures var r := TransitionIntent(hash, i, c);
      var leads := i.state in Sources(c.to);
      && (r == Err(TerminalState) <==> i.state in {Rejected, Succeeded, Failed, Expired, Cancelled})
      && (r == Err(IllegalTransition) <==> i.state !in {Rejected, Succeeded, Failed, Expired, Cancelled} && !leads)
      && (r == Err(TraceMismatch) <==> leads && c.traceId != i.traceId)
      && (r == Err(TimestampPrecedes) <==> leads && c.traceId == i.traceId && c.occurredAt < i.updatedAt)
  {
    hide Sources, CanTransition;
    SourcesIff(i.state, c.to);
    FinalHasNoNext(i.state, c.to);
  }

  lemma FinalHasNoNext(from: State, to: State)
    ensures IsTerminal(from) <==> from in {Rejected, Succeeded, Failed, Expired, Cancelled}
    ensures IsTerminal(from) ==> !CanTransition(from, to)
  {
  }

  predicate LegalPath(p: seq<State>) {
    p != [] && forall k :: 0 <= k < |p| - 1 ==> CanTransition(p[k], p[k + 1])
  }

  /** Transitions left at most. */
  function Rank(s: State): nat {
    match s
    case Draft => 11
    case Quoting => 10
    case AwaitingApproval => 9
    case ProcurementReady => 8
    case ProcurementExecuting => 7
    case AwaitingDeliveries => 6
    case Evaluating => 5
    case ExecutionReady => 4
    case AwaitingFinalApproval => 3
    case Executing => 2
    case Unconfirmed => 1
    case _ => 0
  }

  lemma {:induction false} PathRank(p: seq<State>)
    requires LegalPath(p)
    ensures |p| - 1 + Rank(p[|p| - 1]) <= Rank(p[0])
  {
    if |p| > 1 {
      assert CanTransition(p[0], p[1]);
      PathRank(p[1..]);
    }
  }

  /** No legal path has more than eleven transitions. */
  lemma AtMostElevenTransitions(p: seq<State>)
    requires LegalPath(p)
    ensures |p| <= 12
    ensures |p| == 12 ==> p[0] == Draft && IsTerminal(p[11])
  {
    PathRank(p);
    if |p| == 12 {
      LastIsTerminal(p);
    }
  }

  lemma LastIsTerminal(p: seq<State>)
    requires LegalPath(p) && |p| == 12 && Rank(p[11]) == 0
    ensures IsTerminal(p[11])
  {
  }

  /** The bound is reached. */
  lemma ElevenTransitionsPossible()
    ensures LegalPath([Draft, Quoting, AwaitingApproval, ProcurementReady, ProcurementExecuting, AwaitingDeliveries,
                       Evaluating, ExecutionReady, AwaitingFinalApproval, Executing, Unconfirmed, Succeeded])
  {
    hide LegalPath;
    var p := [Draft, Quoting, AwaitingApproval, ProcurementReady];
    var q := [ProcurementExecuting, AwaitingDeliveries, Evaluating, ExecutionReady];
    var r := [AwaitingFinalApproval, Executing, Unconfirmed, Succeeded];
    FourStates(Draft, Quoting, AwaitingApproval, ProcurementReady);
    FourStates(ProcurementExecuting, AwaitingDeliveries, Evaluating, ExecutionReady);
    FourStates(AwaitingFinalApproval, Executing, Unconfirmed, Succeeded);
    Joined(p, q);
    Joined(p + q, r);
    assert p + q + r == [Draft, Quoting, AwaitingApproval, ProcurementReady, ProcurementExecuting, AwaitingDeliveries,
                         Evaluating, ExecutionReady, AwaitingFinalApproval, Executing, Unconfirmed, Succeeded];
  }

  lemma FourStates(a: State, b: State, c: State, d: State)
    requires CanTransition(a, b) && CanTransition(b, c) && CanTransition(c, d)
    ensures LegalPath([a, b, c, d])
  {
    hide CanTransition;
  }

  lemma Joined(p: seq<State>, q: seq<State>)
    requires LegalPath(p) && LegalPath(q) && CanTransition(p[|p| - 1], q[0])
    ensures LegalPath(p + q)
  {
    hide CanTransition;
    var r := p + q;
    forall k | 0 <= k < |r| - 1 ensures CanTransition(r[k], r[k + 1]) {
      if k >= |p| {
        assert r[k] == q[k - |p|] && r[k + 1] == q[k - |p| + 1];
      }
    }
  }

  /** Nothing follows a terminal state. */
  lemma TerminalIsLast(p: seq<State>, k: nat)
    requires LegalPath(p) && k < |p| && IsTerminal(p[k])
    ensures k == |p| - 1
  {
    assert k < |p| - 1 ==> CanTransition(p[k], p[k + 1]);
  }

  /** A path from DRAFT that reaches EXECUTING went through EVALUATING and then EXECUTION_READY. */
  lemma ExecutingWasEvaluated(p: seq<State>, k: nat)
    requires LegalPath(p) && p[0] == Draft && k < |p| && p[k] == Executing
    ensures exists i, j :: 0 <= i < j < k && p[i] == Evaluating && p[j] == ExecutionReady
  {
    var j := ExecutionReadyBefore(p, k);
    assert CanTransition(p[j - 1], p[j]);
    assert p[j - 1] == Evaluating by { OnlyEvaluating(p[j - 1]); }
  }

  lemma OnlyEvaluating(s: State)
    ensures CanTransition(s, ExecutionReady) <==> s == Evaluating
  {
  }

  lemma ExecutionReadyBefore(p: seq<State>, k: nat) returns (j: nat)
    requires LegalPath(p) && p[0] == Draft && k < |p| && p[k] == Executing
    ensures 0 < j < k && p[j] == ExecutionReady
  {
    assert CanTransition(p[k - 1], p[k]);
    if p[k - 1] == ExecutionReady {
      j := k - 1;
    } else {
      assert CanTransition(p[k - 2], p[k - 1]);
      j := k - 2;
    }
  }

  /** The procurement was left for UNCONFIRMED. */
  predicate ProcurementUnconfirmed(p: seq<State>) {
    exists k | 0 <= k < |p| - 1 :: p[k] == ProcurementExecuting && p[k + 1] == Unconfirmed
  }

  lemma BeforeSuccess(s: State)
    ensures CanTransition(s, Succeeded) <==> s == Executing || s == Unconfirmed
    ensures CanTransition(s, Unconfirmed) <==> s == Executing || s == ProcurementExecuting
  {
  }

  /** How a path ends in success: executed, possibly unconfirmed in between, or straight from the procurement. */
  lemma LastSteps(p: seq<State>)
    requires LegalPath(p) && p[0] == Draft && p[|p| - 1] == Succeeded
    ensures |p| >= 3
    ensures || p[|p| - 2] == Executing
            || (p[|p| - 2] == Unconfirmed && p[|p| - 3] == Executing)
            || (p[|p| - 2] == Unconfirmed && p[|p| - 3] == ProcurementExecuting)
  {
    hide Allowed, CanTransition;
    assert |p| > 1;
    assert CanTransition(p[|p| - 2], p[|p| - 1]);
    BeforeSuccess(p[|p| - 2]);
    assert |p| > 2;
    assert CanTransition(p[|p| - 3], p[|p| - 2]);
    BeforeSuccess(p[|p| - 3]);
  }

  /** Ranks fall along a path. */
  lemma {:induction false} RankFalls(p: seq<State>, i: nat, j: nat)
    requires LegalPath(p) && i < j < |p|
    ensures Rank(p[i]) > Rank(p[j])
  {
    hide Allowed, Rank;
    assert CanTransition(p[j - 1], p[j]);
    StepLowersRank(p[j - 1], p[j]);
    if i < j - 1 {
      RankFalls(p, i, j - 1);
    }
  }

  lemma StepLowersRank(s: State, t: State)
    requires CanTransition(s, t)
    ensures Rank(s) > Rank(t)
  {
  }

  /** When success implies evaluation: a successful path from DRAFT was evaluated exactly when it was executed, and
      that is exactly when its procurement was not left unconfirmed. */
  lemma SuccessEvaluatedIff(p: seq<State>)
    requires LegalPath(p) && p[0] == Draft && p[|p| - 1] == Succeeded
    ensures Evaluating in p <==> Executing in p
    ensures Executing in p <==> !ProcurementUnconfirmed(p)
  {
    hide Allowed, CanTransition, Rank, LegalPath;
    LastSteps(p);
    if p[|p| - 2] == Executing || p[|p| - 3] == Executing {
      var k := if p[|p| - 2] == Executing then |p| - 2 else |p| - 3;
      ExecutingWasEvaluated(p, k);
      NoEarlyExit(p, k);
    } else {
      NothingBetween(p);
    }
  }

  /** On a path that is executed at `k` the procurement was not left unconfirmed. */
  lemma NoEarlyExit(p: seq<State>, k: nat)
    requires LegalPath(p) && k < |p| && p[k] == Executing
    ensures !ProcurementUnconfirmed(p)
  {
    hide Allowed, CanTransition, LegalPath;
    if i :| 0 <= i < |p| - 1 && p[i] == ProcurementExecuting && p[i + 1] == Unconfirmed {
      if i < k { RankFalls(p, i, k); } else if k < i { RankFalls(p, k, i); }
      if i + 1 < k { RankFalls(p, i + 1, k); }
    }
  }

  /** A path that goes from the procurement to UNCONFIRMED was neither evaluated nor executed. */
  lemma NothingBetween(p: seq<State>)
    requires LegalPath(p) && |p| >= 3
    requires p[|p| - 3] == ProcurementExecuting && p[|p| - 2] == Unconfirmed && p[|p| - 1] == Succeeded
    ensures Evaluating !in p && Executing !in p && ProcurementUnconfirmed(p)
  {
    hide Allowed, CanTransition, LegalPath;
    forall i | 0 <= i < |p| ensures p[i] != Evaluating && p[i] != Executing {
      if i < |p| - 3 { RankFalls(p, i, |p| - 3); }
    }
    var k := |p| - 3;
    assert p[k] == ProcurementExecuting && p[k + 1] == Unconfirmed;
  }

  /** A successful path without evaluation. */
  lemma SuccessWithoutEvaluation()
    ensures var p := [Draft, Quoting, ProcurementReady, ProcurementExecuting, Unconfirmed, Succeeded];
      LegalPath(p) && Evaluating !in p
  {
  }
}
