/**
 * The personal calendar's home screen: the month on view, the day pressed,
 * and the pull-to-refresh flag. The day-keyed plans of the month come from a
 * query; the event list under the calendar shows the selected day's plans.
 */
module CalendarHomeScreen {
  import opened Wrappers
  import opened Queries
  import opened PlanRouting
  import CalendarEventList

  /** The month on view (the other fields of `getMonthYearDetails` are left out). */
  datatype MonthYear = MonthYear(year: int, month: int)

  /** The month's plans keyed by day of month, as the calendar query returns them. */
  type DayMap = map<int, seq<Plan>>

  /** The actions the screen issues outside its own state, in order. */
  datatype Effect =
    | Refetched(monthYear: MonthYear, refreshing: bool)
    | SetEditMode(on: bool)
    | Navigated(target: NavTarget)

  /** Nothing while the query is pending or failed; otherwise the calendar and the day's list. */
  datatype HomeView =
    | Blank
    | Home(monthYear: MonthYear, selectedDate: int, refreshing: bool, events: CalendarEventList.View)

  /** `posts[selectedDate]`: a day without plans has no key and gives `undefined`. */
  function Lookup(posts: DayMap, day: int): (r: Option<seq<Plan>>)
    ensures r.Some? <==> day in posts
    ensures r.Some? ==> r.value == posts[day]
  {
    if day in posts then Some(posts[day]) else None
  }

  class CalendarHome {
    /** `getNewMonthYear` from the shared utilities, whose body is not part of this model. */
    const newMonthYear: (MonthYear, int) -> MonthYear

    var monthYear: MonthYear
    var selectedDate: int
    var isRefreshing: bool
    var effects: seq<Effect>

    /** Mounting: today's month, no day selected, not refreshing. */
    constructor (today: MonthYear, getNewMonthYear: (MonthYear, int) -> MonthYear)
      ensures newMonthYear == getNewMonthYear
      ensures monthYear == today && selectedDate == 0 && !isRefreshing && effects == []
    {
      newMonthYear := getNewMonthYear;
      monthYear := today;
      selectedDate := 0;
      isRefreshing := false;
      effects := [];
    }

    /** `handlePressDate`: select a day; nothing else changes. */
    method HandlePressDate(date: int)
      modifies this`selectedDate
      ensures selectedDate == date
      ensures monthYear == old(monthYear) && isRefreshing == old(isRefreshing) && effects == old(effects)
    {
      selectedDate := date;
    }

    /** `handleUpdateMonth`: move the month; the selected day is kept. */
    method HandleUpdateMonth(increment: int)
      modifies this`monthYear
      ensures monthYear == newMonthYear(old(monthYear), increment)
      ensures selectedDate == old(selectedDate) && isRefreshing == old(isRefreshing) && effects == old(effects)
    {
      monthYear := newMonthYear(monthYear, increment);
    }

    /** `handleRefresh`: raise the flag, refetch the month once, lower the flag. */
    method HandleRefresh()
      modifies this`isRefreshing, this`effects
      ensures effects == old(effects) + [Refetched(monthYear, true)]
      ensures !isRefreshing
      ensures monthYear == old(monthYear) && selectedDate == old(selectedDate)
    {
      isRefreshing := true;
      effects := effects + [Refetched(monthYear, isRefreshing)];
      isRefreshing := false;
    }

    /** The write button: leave edit mode, then open the write screen. */
    method HandleWrite()
      modifies this`effects
      ensures effects == old(effects) + [SetEditMode(false), Navigated(NavTarget(CalendarWrite, NoParams))]
    {
      effects := effects + [SetEditMode(false)];
      effects := effects + [Navigated(NavTarget(CalendarWrite, NoParams))];
    }

    /** What the screen renders for the month's query. */
    function Render(posts: Query<DayMap>): (v: HomeView)
      reads this
      ensures v.Blank? <==> posts.Pending? || posts.Failed?
      ensures v.Home? ==> v.monthYear == monthYear && v.selectedDate == selectedDate && v.refreshing == isRefreshing
      ensures v.Home? ==> v.events == CalendarEventList.Render(Lookup(posts.data, selectedDate))
    {
      match posts
      case Loaded(m) => Home(monthYear, selectedDate, isRefreshing, CalendarEventList.Render(Lookup(m, selectedDate)))
      case _ => Blank
    }

    /** With plans loaded, the list shows the selected day's plans in order, or the placeholder if the day has none. */
    lemma SelectedDayEvents(posts: DayMap)
      ensures selectedDate !in posts ==> Render(Loaded(posts)).events == CalendarEventList.NoSchedules
      ensures selectedDate in posts ==>
                Render(Loaded(posts)).events.EventList? &&
                |Render(Loaded(posts)).events.events| == |posts[selectedDate]| &&
                forall i :: 0 <= i < |posts[selectedDate]| ==>
                  Render(Loaded(posts)).events.events[i].post == posts[selectedDate][i]
    {
    }
  }

  /** Right after mounting no day is selected, so the list shows day 0's plans, normally the placeholder. */
  method MountedScreenShowsDayZero(today: MonthYear, f: (MonthYear, int) -> MonthYear, posts: DayMap)
    returns (v: HomeView)
    ensures 0 !in posts ==> v == Home(today, 0, false, CalendarEventList.NoSchedules)
  {
    var home := new CalendarHome(today, f);
    v := home.Render(Loaded(posts));
  }
}
