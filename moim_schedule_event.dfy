/**
 * The feed's "today's schedules" section: a skeleton while either query is
 * pending, an error view when the list query failed, otherwise a greeting,
 * today's plan count and a horizontal list of schedule cards drawn from every
 * loaded page. Pull-to-refresh refetches the count, then the list.
 */
module MoimScheduleEvent {
  import opened Wrappers
  import opened Queries
  import opened PlanRouting
  import CalendarEventList

  /** The answer of the schedule-count query. */
  datatype Profile = Profile(nickname: string, dailyPlanCnt: Option<int>)

  /** One page of the paginated schedule list. */
  datatype Page = Page(userPlanDTOList: seq<Plan>)

  /** The paginated query's data: the pages loaded so far, in order. */
  datatype InfiniteData = InfiniteData(pages: seq<Page>)

  /** The greeting line: the generic hello, or the nickname greeting. */
  datatype Greeting = Hello | Welcome(nickname: Option<string>)

  /** One schedule card: its list key (the plan id), the plan, and where a press goes. */
  datatype Card = Card(key: int, item: Plan, onPress: NavTarget)

  datatype View =
    | Skeleton
    | ErrorView
    | Feed(greeting: Greeting, dailyCount: int, cards: seq<Card>)

  /** The `switch (item.planType)` of a card's press handler, on the raw tag. */
  function CardOnPress(item: Plan): (r: NavTarget)
    ensures r == RouteFor(PlanTypeOf(item.planType), item.planId, item.moimId)
  {
    if item.planType == "MOIM_PLAN" then
      NavTarget(CalendarParticipantDetail, IdParams(item.planId))
    else if item.planType == "INDIVIDUAL_PLAN" then
      NavTarget(CalendarIndividualDetail, IdParams(item.planId))
    else
      NavTarget(CalendarTodoDetail, MoimIdParams(item.moimId, item.planId))
  }

  /** The feed and the calendar list send every plan to the same place. */
  lemma FeedRoutesLikeCalendarList(p: Plan)
    ensures CardOnPress(p) == CalendarEventList.OnPress(p)
  {
  }

  /** The number of plans over all pages. */
  function TotalLength(pages: seq<Page>): nat
  {
    if pages == [] then 0 else |pages[0].userPlanDTOList| + TotalLength(pages[1..])
  }

  /** `pages.flatMap(page => page.userPlanDTOList)`. */
  function Flatten(pages: seq<Page>): (items: seq<Plan>)
    ensures |items| == TotalLength(pages)
  {
    if pages == [] then [] else pages[0].userPlanDTOList + Flatten(pages[1..])
  }

  /** Flattening distributes over concatenating the page sequences. */
  lemma {:induction false} FlattenAppend(a: seq<Page>, b: seq<Page>)
    ensures Flatten(a + b) == Flatten(a) + Flatten(b)
  {
    if a == [] {
      assert a + b == b;
    } else {
      assert (a + b)[1..] == a[1..] + b;
      FlattenAppend(a[1..], b);
    }
  }

  /** Plan j of page i sits right after the plans of all earlier pages. */
  lemma {:induction false} FlattenAt(pages: seq<Page>, i: nat, j: nat)
    requires i < |pages| && j < |pages[i].userPlanDTOList|
    ensures TotalLength(pages[..i]) + j < |Flatten(pages)|
    ensures Flatten(pages)[TotalLength(pages[..i]) + j] == pages[i].userPlanDTOList[j]
  {
    if i == 0 {
      assert pages[..0] == [];
    } else {
      FlattenAt(pages[1..], i - 1, j);
      assert pages[..i][1..] == pages[1..][..i - 1];
    }
  }

  /** `profile?.dailyPlanCnt ?? 0`. */
  function DailyCount(profile: Option<Profile>): (n: int)
    ensures profile.Some? && profile.value.dailyPlanCnt.Some? ==> n == profile.value.dailyPlanCnt.value
    ensures profile.None? || profile.value.dailyPlanCnt.None? ==> n == 0
  {
    match profile
    case None => 0
    case Some(p) => p.dailyPlanCnt.GetOr(0)
  }

  /** The greeting's ternary on the profile query's pending flag. */
  function GreetingFor(profilePending: bool, profile: Option<Profile>): (g: Greeting)
    ensures profilePending ==> g == Hello
    ensures !profilePending && profile.Some? ==> g == Welcome(Some(profile.value.nickname))
    ensures !profilePending && profile.None? ==> g == Welcome(None)
  {
    if profilePending then Hello
    else Welcome(match profile case Some(p) => Some(p.nickname) case None => None)
  }

  /** The FlatList of cards over the flattened plans, with `keyExtractor` on the plan id. */
  function Cards(items: seq<Plan>): (cs: seq<Card>)
    ensures |cs| == |items|
    ensures forall i :: 0 <= i < |items| ==>
              cs[i].key == items[i].planId && cs[i].item == items[i] && cs[i].onPress == RoutePlan(items[i])
  {
    seq(|items|, i requires 0 <= i < |items| => Card(items[i].planId, items[i], CardOnPress(items[i])))
  }

  /**
   * What the section renders for the two queries: pending (of either) before
   * error (of the list), and the feed only once both have settled and the list loaded.
   */
  function Render(profile: Query<Profile>, calendars: Query<InfiniteData>): (v: View)
    ensures v.Skeleton? <==> profile.Pending? || calendars.Pending?
    ensures v.ErrorView? <==> !profile.Pending? && calendars.Failed?
    ensures v.Feed? <==> !profile.Pending? && calendars.Loaded?
    ensures v.Feed? ==> v.greeting.Welcome? && v.dailyCount == DailyCount(DataOf(profile))
    ensures v.Feed? ==>
              v.greeting == Welcome(if DataOf(profile).Some? then Some(DataOf(profile).value.nickname) else None)
    ensures v.Feed? ==> v.cards == Cards(Flatten(calendars.data.pages))
  {
    if profile.Pending? || calendars.Pending? then Skeleton
    else if calendars.Failed? then ErrorView
    else Feed(GreetingFor(profile.Pending?, DataOf(profile)),
              DailyCount(DataOf(profile)),
              Cards(Flatten(calendars.data.pages)))
  }

  /** A pending query wins over a failed one: the skeleton is shown. */
  lemma PendingBeforeError(profile: Query<Profile>, stale: Option<InfiniteData>)
    ensures Render(profile, Pending).Skeleton?
    ensures profile.Pending? ==> Render(profile, Failed(stale)).Skeleton?
  {
  }

  /** The feed shows as many cards as the pages hold plans, page by page. */
  lemma FeedShowsEveryPage(profile: Query<Profile>, data: InfiniteData, i: nat, j: nat)
    requires !profile.Pending?
    requires i < |data.pages| && j < |data.pages[i].userPlanDTOList|
    ensures |Render(profile, Loaded(data)).cards| == TotalLength(data.pages)
    ensures TotalLength(data.pages[..i]) + j < TotalLength(data.pages)
    ensures Render(profile, Loaded(data)).cards[TotalLength(data.pages[..i]) + j].item == data.pages[i].userPlanDTOList[j]
  {
    FlattenAt(data.pages, i, j);
  }

  /** The two refetches the refresh effect can issue. */
  datatype Refetch = CountRefetch | ListRefetch

  /** A refetch being started, or its promise having settled. */
  datatype Call = Started(q: Refetch) | Settled(q: Refetch)

  /** Every started refetch is awaited before anything else happens. */
  ghost predicate Awaited(trace: seq<Call>)
  {
    forall i :: 0 <= i < |trace| && trace[i].Started? ==>
      i + 1 < |trace| && trace[i + 1] == Settled(trace[i].q)
  }

  /** Refetch `a` settles before refetch `b` is started. */
  ghost predicate SettlesBefore(trace: seq<Call>, a: Refetch, b: Refetch)
  {
    forall i, j :: 0 <= i < |trace| && 0 <= j < |trace| && trace[i] == Settled(a) && trace[j] == Started(b) ==> i < j
  }

  /** Appends one awaited refetch to the trace. */
  method Await(trace: seq<Call>, q: Refetch) returns (t: seq<Call>)
    ensures t == trace + [Started(q), Settled(q)]
  {
    t := trace + [Started(q)];
    t := t + [Settled(q)];
  }

  /**
   * The `useEffect` on `isRefreshing`: nothing unless refreshing; otherwise the
   * count refetch is awaited, then the list refetch, each exactly once.
   */
  method RefreshEffect(isRefreshing: bool) returns (trace: seq<Call>)
    ensures !isRefreshing ==> trace == []
    ensures isRefreshing ==> |trace| == 4 && Awaited(trace)
    ensures isRefreshing ==> SettlesBefore(trace, CountRefetch, ListRefetch)
    ensures isRefreshing ==> forall q :: multiset(trace)[Started(q)] == 1 && multiset(trace)[Settled(q)] == 1
  {
    trace := [];
    if isRefreshing {
      trace := Await(trace, CountRefetch);
      trace := Await(trace, ListRefetch);
      assert trace == [Started(CountRefetch), Settled(CountRefetch), Started(ListRefetch), Settled(ListRefetch)];
      forall q ensures multiset(trace)[Started(q)] == 1 && multiset(trace)[Settled(q)] == 1 {
        assert multiset(trace) == multiset{Started(CountRefetch), Settled(CountRefetch), Started(ListRefetch), Settled(ListRefetch)};
        if q == CountRefetch {
          assert Started(q) != Started(ListRefetch) && Settled(q) != Settled(ListRefetch);
        } else {
          assert Started(q) != Started(CountRefetch) && Settled(q) != Settled(CountRefetch);
        }
      }
    }
  }
}
