/**
 * The event-type router shared by the calendar's event list and the feed's
 * schedule cards: a plan's `planType` tag picks the detail screen to open and
 * the navigation parameters passed to it.
 */
module PlanRouting {
  import opened Wrappers

  const MOIM_PLAN_TAG: string := "MOIM_PLAN"
  const INDIVIDUAL_PLAN_TAG: string := "INDIVIDUAL_PLAN"

  /** The discriminant of a plan as a closed sum; `Other` is the default branch. */
  datatype PlanType = MoimPlan | IndividualPlan | Other(tag: string)

  /** A plan as the list components receive it (display fields left out). */
  datatype Plan = Plan(planId: int, moimId: Option<int>, planType: string)

  /** The screens of the calendar stack that a press can open. */
  datatype Screen =
    | CalendarParticipantDetail
    | CalendarIndividualDetail
    | CalendarTodoDetail
    | CalendarWrite

  /** Navigation parameters: none, `{id}`, or `{moimId, id}`. */
  datatype Params = NoParams | IdParams(id: int) | MoimIdParams(moimId: Option<int>, id: int)

  /** A `navigation.navigate(screen, params)` call. */
  datatype NavTarget = NavTarget(screen: Screen, params: Params)

  /** Reads the string tag into the sum type. */
  function PlanTypeOf(tag: string): (t: PlanType)
    ensures t == MoimPlan <==> tag == MOIM_PLAN_TAG
    ensures t == IndividualPlan <==> tag == INDIVIDUAL_PLAN_TAG
    ensures t.Other? ==> t.tag == tag
  {
    if tag == MOIM_PLAN_TAG then MoimPlan
    else if tag == INDIVIDUAL_PLAN_TAG then IndividualPlan
    else Other(tag)
  }

  /** Writes the sum type back as the tag the server sends. */
  function TagOf(t: PlanType): string
  {
    match t
    case MoimPlan => MOIM_PLAN_TAG
    case IndividualPlan => INDIVIDUAL_PLAN_TAG
    case Other(s) => s
  }

  /** An `Other` never carries one of the two known tags. */
  predicate Canonical(t: PlanType)
  {
    t.Other? ==> t.tag != MOIM_PLAN_TAG && t.tag != INDIVIDUAL_PLAN_TAG
  }

  /** Every tag survives reading and writing back. */
  lemma TagRoundTrip(tag: string)
    ensures Canonical(PlanTypeOf(tag))
    ensures TagOf(PlanTypeOf(tag)) == tag
  {
  }

  /** Every canonical plan type survives writing and reading back. */
  lemma PlanTypeRoundTrip(t: PlanType)
    requires Canonical(t)
    ensures PlanTypeOf(TagOf(t)) == t
  {
  }

  /**
   * The three-way dispatch: a club plan opens the participant detail, an
   * individual plan the individual detail, anything else the to-do detail.
   * Every route carries the plan's id; only the default route carries moimId.
   */
  function RouteFor(kind: PlanType, planId: int, moimId: Option<int>): (r: NavTarget)
    ensures r.screen == CalendarParticipantDetail <==> kind == MoimPlan
    ensures r.screen == CalendarIndividualDetail <==> kind == IndividualPlan
    ensures r.screen == CalendarTodoDetail <==> kind.Other?
    ensures !r.params.NoParams? && r.params.id == planId
    ensures r.params.MoimIdParams? <==> kind.Other?
    ensures r.params.MoimIdParams? ==> r.params.moimId == moimId
  {
    match kind
    case MoimPlan => NavTarget(CalendarParticipantDetail, IdParams(planId))
    case IndividualPlan => NavTarget(CalendarIndividualDetail, IdParams(planId))
    case Other(_) => NavTarget(CalendarTodoDetail, MoimIdParams(moimId, planId))
  }

  /** The route of a plan record, through its tag. */
  function RoutePlan(p: Plan): NavTarget
  {
    RouteFor(PlanTypeOf(p.planType), p.planId, p.moimId)
  }

  /** The screen alone determines which branch of the dispatch was taken. */
  lemma RouteScreenDeterminesKind(k1: PlanType, k2: PlanType, id1: int, id2: int, m1: Option<int>, m2: Option<int>)
    ensures RouteFor(k1, id1, m1).screen == RouteFor(k2, id2, m2).screen <==>
            (k1 == k2 || (k1.Other? && k2.Other?))
  {
  }

  /** A regular plan with a club id still gets only `{id}`: the club id is dropped. */
  lemma MoimIdOnlyOnDefaultRoute(p: Plan)
    ensures p.planType == MOIM_PLAN_TAG ==> RoutePlan(p) == NavTarget(CalendarParticipantDetail, IdParams(p.planId))
    ensures p.planType == INDIVIDUAL_PLAN_TAG ==> RoutePlan(p) == NavTarget(CalendarIndividualDetail, IdParams(p.planId))
    ensures p.planType != MOIM_PLAN_TAG && p.planType != INDIVIDUAL_PLAN_TAG ==>
            RoutePlan(p) == NavTarget(CalendarTodoDetail, MoimIdParams(p.moimId, p.planId))
  {
  }
}
