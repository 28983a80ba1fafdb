/**
 * The agent graph of dashboard.py `build_graph`: its nodes, the two routing
 * functions `should_plan_or_finish` and `_should_reflect`, and the edges they
 * select.
 */
module Routing {
  import opened Wrappers
  import opened Json

  datatype Node = DirectAnswer | Planner | Executor | Verifier | Finalizer | MemoryUpdate | End

  /** The labels `should_plan_or_finish` returns. */
  datatype PlanOrFinish = Finish | Plan

  /** The labels `_should_reflect` returns. */
  datatype Reflect = Approved | GiveUp | Replan

  /** `state.get("final")` is truthy. */
  predicate HasFinal(final: Option<Json>)
  {
    final.Some? && Truthy(final.value)
  }

  /** After the direct answer: finish when a truthy final answer exists, else plan. */
  function ShouldPlanOrFinish(final: Option<Json>): (r: PlanOrFinish)
    ensures r == Finish <==> HasFinal(final)
  {
    if HasFinal(final) then Finish else Plan
  }

  /** After the verifier: a truthy final answer wins; otherwise give up once the
      reflection count has reached the maximum; otherwise plan again. */
  function ShouldReflect(final: Option<Json>, reflections: int, maxReflections: int): (r: Reflect)
    ensures r == Approved <==> HasFinal(final)
    ensures r == GiveUp <==> !HasFinal(final) && reflections >= maxReflections
    ensures r == Replan <==> !HasFinal(final) && reflections < maxReflections
  {
    if HasFinal(final) then Approved
    else if reflections >= maxReflections then GiveUp
    else Replan
  }

  /** The edges of the compiled graph. */
  function Successor(n: Node, final: Option<Json>, reflections: int, maxReflections: int): (r: Node)
    ensures r != DirectAnswer
    ensures n == End <==> r == End && n != MemoryUpdate
  {
    match n
    case DirectAnswer =>
      (match ShouldPlanOrFinish(final)
       case Finish => MemoryUpdate
       case Plan => Planner)
    case Planner => Executor
    case Executor => Verifier
    case Verifier =>
      (match ShouldReflect(final, reflections, maxReflections)
       case Replan => Planner
       case Approved => MemoryUpdate
       case GiveUp => Finalizer)
    case Finalizer => MemoryUpdate
    case MemoryUpdate => End
    case End => End
  }

  /** The run ends only after the memory update, and the memory update is reached
      from the direct answer, an approval, or the finalizer. */
  lemma EndOnlyAfterMemoryUpdate(n: Node, final: Option<Json>, reflections: int, maxReflections: int)
    requires n != End
    ensures Successor(n, final, reflections, maxReflections) == End <==> n == MemoryUpdate
    ensures Successor(n, final, reflections, maxReflections) == MemoryUpdate <==>
              (n == DirectAnswer && HasFinal(final)) ||
              (n == Verifier && HasFinal(final)) ||
              n == Finalizer
  {
  }

  /** The only edge back is from the verifier to the planner, and it is taken
      exactly when there is no final answer and the count is below the maximum. */
  lemma ReplanOnlyFromVerifier(n: Node, final: Option<Json>, reflections: int, maxReflections: int)
    ensures Successor(n, final, reflections, maxReflections) == Planner <==>
              (n == DirectAnswer && !HasFinal(final)) ||
              (n == Verifier && !HasFinal(final) && reflections < maxReflections)
  {
  }

  /** The position of a node along the graph's forward edges. */
  function Rank(n: Node): nat
  {
    match n
    case DirectAnswer => 6
    case Planner => 5
    case Executor => 4
    case Verifier => 3
    case Finalizer => 2
    case MemoryUpdate => 1
    case End => 0
  }

  /** Every edge but the replanning one moves forward. */
  lemma ForwardEdges(n: Node, final: Option<Json>, reflections: int, maxReflections: int)
    requires n != End
    requires !(n == Verifier && Successor(n, final, reflections, maxReflections) == Planner)
    ensures Rank(Successor(n, final, reflections, maxReflections)) < Rank(n)
  {
  }
}
