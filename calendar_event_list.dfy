/**
 * The calendar's list of events for one day: a placeholder when there is no
 * list at all, otherwise one pressable event per plan, in the order given.
 */
module CalendarEventList {
  import opened Wrappers
  import opened PlanRouting

  /** One rendered event: its React key, the plan it shows, and where a press goes. */
  datatype Event = Event(key: int, post: Plan, onPress: NavTarget)

  /** The "no schedules" placeholder, or the list of events. */
  datatype View = NoSchedules | EventList(events: seq<Event>)

  /** The `switch (post.planType)` of an event's press handler, on the raw tag. */
  function OnPress(post: Plan): (r: NavTarget)
    ensures r == RouteFor(PlanTypeOf(post.planType), post.planId, post.moimId)
  {
    if post.planType == "MOIM_PLAN" then
      NavTarget(CalendarParticipantDetail, IdParams(post.planId))
    else if post.planType == "INDIVIDUAL_PLAN" then
      NavTarget(CalendarIndividualDetail, IdParams(post.planId))
    else
      NavTarget(CalendarTodoDetail, MoimIdParams(post.moimId, post.planId))
  }

  /** `posts.map(post => <CalendarEvent key={post.planId} .../>)`. */
  function Events(posts: seq<Plan>): (es: seq<Event>)
    ensures |es| == |posts|
    ensures forall i :: 0 <= i < |posts| ==>
              es[i].key == posts[i].planId && es[i].post == posts[i] && es[i].onPress == RoutePlan(posts[i])
  {
    seq(|posts|, i requires 0 <= i < |posts| => Event(posts[i].planId, posts[i], OnPress(posts[i])))
  }

  /** `if (!posts)`: an absent list gives the placeholder; any array, even empty, gives a list. */
  function Render(posts: Option<seq<Plan>>): (v: View)
    ensures v.NoSchedules? <==> posts.None?
    ensures posts.Some? ==> v.EventList? && |v.events| == |posts.value|
    ensures posts.Some? ==> forall i :: 0 <= i < |posts.value| ==>
              v.events[i].key == posts.value[i].planId &&
              v.events[i].post == posts.value[i] &&
              v.events[i].onPress == RoutePlan(posts.value[i])
  {
    match posts
    case None => NoSchedules
    case Some(ps) => EventList(Events(ps))
  }

  /** An absent list shows the placeholder and no events. */
  lemma AbsentPostsShowPlaceholder()
    ensures Render(None) == NoSchedules
  {
  }

  /** An empty array is an empty list, not the placeholder. */
  lemma EmptyPostsShowEmptyList()
    ensures Render(Some([])) == EventList([])
  {
  }

  /** Rendering distributes over concatenation: the order of posts is kept. */
  lemma EventsAppend(a: seq<Plan>, b: seq<Plan>)
    ensures Events(a + b) == Events(a) + Events(b)
  {
  }
}
