# Calendar routing and screen state of the moim client, in Dafny

This project models the small amount of decision logic inside the moim
(club/meetup) mobile client's calendar and club-management screens, and proves
what those screens promise:

- **Event-type routing** (`PlanRouting`): a plan's `planType` tag is read into a
  closed sum `MoimPlan | IndividualPlan | Other(tag)`, and `RouteFor` picks the
  detail screen and its parameters. The calendar event list (`CalendarEventList.OnPress`)
  and the feed's schedule cards (`MoimScheduleEvent.CardOnPress`) each keep their own
  `switch` on the raw string, and each is proved equal to `RouteFor`.
- **Calendar event list** (`CalendarEventList`): an absent list gives the
  "no schedules" placeholder; any array, even an empty one, gives one event per plan,
  in order, keyed by `planId`.
- **Feed schedule section** (`MoimScheduleEvent`): the render gate (pending of either
  query first, then failure of the list query, then the feed), the flattening of the
  paginated list, the `dailyPlanCnt ?? 0` default, the greeting, and the refresh
  effect, modelled as a method that returns the trace of refetches it starts and awaits.
- **Club-info edit form** (`MoimEditInfoScreen.EditInfoForm`): a class holding the form
  fields, the two error fields, the selected category, the dropdown label and the
  dropdown flag. Its submit issues the update request only when every required value
  is truthy. Otherwise it sets exactly the error fields of the empty inputs. The
  `isImgUri` rule rests on a model of JavaScript's `indexOf`/`split` (`JsString`).
- **Calendar home screen** (`CalendarHomeScreen.CalendarHome`): a class holding the
  month on view, the selected day and the refresh flag, with the three handlers, the
  write button, and a render function that never looks into the day map unless the query has loaded.

Remote queries are parameters of type `Queries.Query<T>` (`Pending`, `Failed` with
possibly stale data, `Loaded`). Navigation, the refetches and the edit-mode store
are recorded as values (`NavTarget`, `Call`, `Effect`) instead of being performed.

Behaviour of the code worth knowing:
- Changing month keeps the selected day (`HandleUpdateMonth`).
- A refresh has no guard against overlapping refreshes.
- The displayed daily count comes from its own query and is not reconciled with the list.
- The edit form's fields are seeded from the club as loaded at first render, while the
  submit guard and the submitted category read the club's current data
  (`EditInfoForm.moimData`, replaced by `ClubDataChanged`).

Two observations about the code:
- The edit form sets a title error, but the title input is never given it
  (only the location input shows its error, `ShownLocationError`).
- The greeting's `isProfilePending ? ... : ...` can only take the nickname branch,
  because the pending case has already returned the skeleton (`MoimScheduleEvent.Render`).

## Model

| member | source | states |
|---|---|---|
| Queries.DataOf | src/components/screens/FeedTabScreens/MoimScheduleEvent.tsx:26-36 | a query's `data` is absent while pending, the loaded value once loaded, and the last good value (if any) after a failure |
| PlanRouting.PlanTypeOf | src/components/@common/CalendarEventList/CalendarEventList.tsx:40-51 | the tag is `MoimPlan` iff it is "MOIM_PLAN", `IndividualPlan` iff "INDIVIDUAL_PLAN", otherwise the default case carrying the tag |
| PlanRouting.TagRoundTrip | src/components/@common/CalendarEventList/CalendarEventList.tsx:40-51 | every tag reads into a canonical plan type and writes back unchanged |
| PlanRouting.PlanTypeRoundTrip | src/components/@common/CalendarEventList/CalendarEventList.tsx:40-51 | every canonical plan type writes out and reads back unchanged |
| PlanRouting.RouteFor | src/components/@common/CalendarEventList/CalendarEventList.tsx:40-57 | participant detail iff club plan, individual detail iff individual plan, to-do detail iff any other type; every route carries `id == planId`; `moimId` is carried iff the route is the default one, and then equals the plan's |
| PlanRouting.RouteScreenDeterminesKind | src/components/@common/CalendarEventList/CalendarEventList.tsx:40-57 | two plans reach the same screen iff they have the same type or both fall to the default branch |
| PlanRouting.MoimIdOnlyOnDefaultRoute | src/components/@common/CalendarEventList/CalendarEventList.tsx:41-56 | the three routes of a plan record in full: `{id}` for the two known tags, `{moimId, id}` for every other tag |
| CalendarEventList.OnPress | src/components/@common/CalendarEventList/CalendarEventList.tsx:39-58 | the list's own string `switch` gives exactly `RouteFor` of the plan's type, id and club id |
| CalendarEventList.Events | src/components/@common/CalendarEventList/CalendarEventList.tsx:35-38 | one event per post, same length, event i keyed by post i's `planId`, showing post i, pressing to post i's route |
| CalendarEventList.Render | src/components/@common/CalendarEventList/CalendarEventList.tsx:19-60 | placeholder iff `posts` is absent; a present list (empty included) renders one event per post in input order with its key and route |
| CalendarEventList.AbsentPostsShowPlaceholder | src/components/@common/CalendarEventList/CalendarEventList.tsx:19-27 | an absent list renders the placeholder and no events |
| CalendarEventList.EmptyPostsShowEmptyList | src/components/@common/CalendarEventList/CalendarEventList.tsx:19-38 | an empty array renders an empty list, not the placeholder |
| CalendarEventList.EventsAppend | src/components/@common/CalendarEventList/CalendarEventList.tsx:35-38 | rendering a concatenation of posts is the concatenation of the renderings (order is kept) |
| MoimScheduleEvent.CardOnPress | src/components/screens/FeedTabScreens/MoimScheduleEvent.tsx:67-84 | the feed's own string `switch` gives exactly `RouteFor` of the plan's type, id and club id |
| MoimScheduleEvent.FeedRoutesLikeCalendarList | src/components/screens/FeedTabScreens/MoimScheduleEvent.tsx:67-84 | the feed routes every plan to the same screen and parameters as the calendar event list |
| MoimScheduleEvent.Flatten | src/components/screens/FeedTabScreens/MoimScheduleEvent.tsx:106 | the flattened list is as long as the pages' lists together |
| MoimScheduleEvent.FlattenAppend | src/components/screens/FeedTabScreens/MoimScheduleEvent.tsx:106 | flattening the concatenation of two page sequences concatenates their flattenings |
| MoimScheduleEvent.FlattenAt | src/components/screens/FeedTabScreens/MoimScheduleEvent.tsx:106 | plan j of page i stands at position (plans of pages before i) + j of the flattened list: pages in order, plans in order within a page |
| MoimScheduleEvent.DailyCount | src/components/screens/FeedTabScreens/MoimScheduleEvent.tsx:102 | the count is `dailyPlanCnt` when the profile and its count are present, 0 otherwise |
| MoimScheduleEvent.Cards | src/components/screens/FeedTabScreens/MoimScheduleEvent.tsx:63-87 | one card per plan, in order, keyed by `planId`, pressing to the plan's route |
| MoimScheduleEvent.GreetingFor | src/components/screens/FeedTabScreens/MoimScheduleEvent.tsx:95 | the hello while the profile is pending, otherwise the greeting with the profile's nickname (absent when there is no profile) |
| MoimScheduleEvent.Render | src/components/screens/FeedTabScreens/MoimScheduleEvent.tsx:47-119 | skeleton iff either query is pending; error view iff neither is pending and the list failed; feed iff neither is pending and the list loaded, greeting the profile's nickname, with the defaulted count and the cards of the flattened pages |
| MoimScheduleEvent.PendingBeforeError | src/components/screens/FeedTabScreens/MoimScheduleEvent.tsx:47-61 | a pending query shows the skeleton even when the list query has failed |
| MoimScheduleEvent.FeedShowsEveryPage | src/components/screens/FeedTabScreens/MoimScheduleEvent.tsx:95-119 | the feed shows as many cards as the pages hold plans, and plan j of page i as the card at its flattened position |
| MoimScheduleEvent.Await | src/components/screens/FeedTabScreens/MoimScheduleEvent.tsx:40-41 | one awaited refetch appends its start and then its settlement to the trace |
| MoimScheduleEvent.RefreshEffect | src/components/screens/FeedTabScreens/MoimScheduleEvent.tsx:37-45 | no calls unless refreshing; when refreshing, each refetch is started and settled exactly once, each start is awaited before the next call, and the count refetch settles before the list refetch starts |
| JsString.IndexOf | src/screens/MoimManagementScreens/MoimEditInfoScreen.tsx:44-45 | the index found is the first occurrence of the separator; none is found iff it occurs nowhere |
| JsString.Split | src/screens/MoimManagementScreens/MoimEditInfoScreen.tsx:44-45 | splitting always yields at least one part |
| JsString.JoinSplit | src/screens/MoimManagementScreens/MoimEditInfoScreen.tsx:44-45 | joining the parts of a split with the separator gives back the string |
| JsString.SplitPartsAreFree | src/screens/MoimManagementScreens/MoimEditInfoScreen.tsx:44-45 | no part of a split contains the separator |
| JsString.FirstPartEmpty | src/screens/MoimManagementScreens/MoimEditInfoScreen.tsx:44-45 | the first part is empty iff the string is empty or starts with the separator |
| JsString.OccursAfterDrop | src/screens/MoimManagementScreens/MoimEditInfoScreen.tsx:44-45 | the separator starts the text after position d iff it occurs in the string at d |
| JsString.SecondPartNonEmpty | src/screens/MoimManagementScreens/MoimEditInfoScreen.tsx:44-45 | the second part of a split is present and non-empty iff the separator occurs and the text after its first occurrence is non-empty and does not start with the separator again |
| MoimEditInfoScreen.IsImgUri | src/screens/MoimManagementScreens/MoimEditInfoScreen.tsx:43-47 | `isImgUri` holds iff the URL is present, "com/" occurs in it, and the text after its first occurrence is non-empty and does not start with "com/" again |
| MoimEditInfoScreen.Or | src/screens/MoimManagementScreens/MoimEditInfoScreen.tsx:92 | `a || b` picks a when it is truthy, b otherwise |
| MoimEditInfoScreen.SelectedCategoryFor | src/screens/MoimManagementScreens/MoimEditInfoScreen.tsx:71 | a category is selected iff the label is mapped to a non-empty category, and it is that category |
| MoimEditInfoScreen.InitialCategory | src/screens/MoimManagementScreens/MoimEditInfoScreen.tsx:56-58 | the dropdown starts with a label iff the club's category is truthy and listed, and then with its listed label |
| MoimEditInfoScreen.EditInfoForm.constructor | src/screens/MoimManagementScreens/MoimEditInfoScreen.tsx:43-67 | fields seeded from the loaded club, both errors empty, nothing selected, dropdown closed; the picker is seeded with the URL iff `isImgUri` holds |
| MoimEditInfoScreen.EditInfoForm.ClubDataChanged | src/screens/MoimManagementScreens/MoimEditInfoScreen.tsx:41 | new data from the space-info query replaces the club's current data; the seeded form fields stay as they are |
| MoimEditInfoScreen.EditInfoForm.CanSubmit | src/screens/MoimManagementScreens/MoimEditInfoScreen.tsx:80-86 | when the guard holds, the three texts are present and the submitted category (selected or the club's current one) is truthy |
| MoimEditInfoScreen.EditInfoForm.SubmittedCategory | src/screens/MoimManagementScreens/MoimEditInfoScreen.tsx:92 | the submitted category is the selected one when truthy, otherwise the club's current one |
| MoimEditInfoScreen.EditInfoForm.ShownLocationError | src/screens/MoimManagementScreens/MoimEditInfoScreen.tsx:175 | the location error is shown only while the location is empty, and then it is the stored error |
| MoimEditInfoScreen.EditInfoForm.SetTitle | src/screens/MoimManagementScreens/MoimEditInfoScreen.tsx:161 | typing replaces the title and nothing else |
| MoimEditInfoScreen.EditInfoForm.SetLocation | src/screens/MoimManagementScreens/MoimEditInfoScreen.tsx:177-179 | typing replaces the location and nothing else |
| MoimEditInfoScreen.EditInfoForm.SetIntroduction | src/screens/MoimManagementScreens/MoimEditInfoScreen.tsx:244-246 | typing replaces the introduction and nothing else |
| MoimEditInfoScreen.EditInfoForm.HandleSelectedCategory | src/screens/MoimManagementScreens/MoimEditInfoScreen.tsx:70-73 | the label becomes the chosen one and the selected category its mapped category, or none if unmapped; nothing else changes |
| MoimEditInfoScreen.EditInfoForm.HandleCategory | src/screens/MoimManagementScreens/MoimEditInfoScreen.tsx:75-77 | the dropdown flag is negated; nothing else changes |
| MoimEditInfoScreen.EditInfoForm.HandleOnSubmit | src/screens/MoimManagementScreens/MoimEditInfoScreen.tsx:79-139 | the update is issued iff title, location, introduction, club id and the club's current category are all truthy, with the form's values and the selected-or-club category; otherwise the title error is set iff the title is empty, the location error iff the location is empty, other errors keep their value, and the introduction toast is raised iff the introduction is empty; with all three texts filled but the id or category missing, nothing changes; the error fields keep holding either nothing or their own message |
| MoimEditInfoScreen.PressDropdownTwice | src/screens/MoimManagementScreens/MoimEditInfoScreen.tsx:75-77 | two presses of the dropdown restore its flag and change nothing else |
| MoimEditInfoScreen.SubmitAfterLateLoad | src/screens/MoimManagementScreens/MoimEditInfoScreen.tsx:41-92 | a form mounted before the club loaded issues the update with the loaded club's category once the club loads and the three texts are typed |
| CalendarHomeScreen.Lookup | src/screens/CalendarStackScreens/CalendarHomeScreen.tsx:68 | a day's plans are present iff the day is a key of the map, and are then the map's entry |
| CalendarHomeScreen.CalendarHome.constructor | src/screens/CalendarStackScreens/CalendarHomeScreen.tsx:19-22 | on mount the month is today's, no day is selected (0), and the screen is not refreshing |
| CalendarHomeScreen.CalendarHome.HandlePressDate | src/screens/CalendarStackScreens/CalendarHomeScreen.tsx:44-46 | the selected day becomes the pressed one; month, flag and effects are unchanged |
| CalendarHomeScreen.CalendarHome.HandleUpdateMonth | src/screens/CalendarStackScreens/CalendarHomeScreen.tsx:48-50 | the month becomes `getNewMonthYear(old month, increment)`; the selected day is not reset |
| CalendarHomeScreen.CalendarHome.HandleRefresh | src/screens/CalendarStackScreens/CalendarHomeScreen.tsx:38-42 | exactly one refetch of the current month is issued while the flag is raised, and the flag ends lowered |
| CalendarHomeScreen.CalendarHome.HandleWrite | src/screens/CalendarStackScreens/CalendarHomeScreen.tsx:73-76 | edit mode is switched off, then the write screen is opened |
| CalendarHomeScreen.CalendarHome.Render | src/screens/CalendarStackScreens/CalendarHomeScreen.tsx:34-68 | nothing is rendered iff the query is pending or failed, so the day map is only read when loaded; then the event list receives `posts[selectedDate]` |
| CalendarHomeScreen.CalendarHome.SelectedDayEvents | src/screens/CalendarStackScreens/CalendarHomeScreen.tsx:68 | a selected day without a key shows the placeholder; a day with plans shows one event per plan in order |
| CalendarHomeScreen.MountedScreenShowsDayZero | src/screens/CalendarStackScreens/CalendarHomeScreen.tsx:19-22 | right after mounting a loaded month with no plans on day 0 shows today's month, day 0, not refreshing, and the placeholder |

## Left out

- Rendering, styling, safe-area insets, skeleton and palette components, toasts' text,
  `console` logging and query-cache invalidation: UI and environment effects.
  The submit's success and failure callbacks (go back, toast, invalidate) are not modelled.
  Only the request it issues is.
- The remote queries (`useGetPersonalCalendar`, `useGetUserSchedulesCount`,
  `useGetInfiniteAllUserScheduleList`) and the update mutation are remote work: their
  results are parameters of type `Query<T>`, and the mutation is the returned request.
  The result of `useGetMoimSpaceInfo` is the form's `moimData` field, an `Option<MoimInfo>`
  that is absent until the club loads and that `ClubDataChanged` replaces.
- `getNewMonthYear` and `getMonthYearDetails` are not part of this model. The first is
  a function field given at construction, with no month-rollover property. The second
  becomes today's `MonthYear`, taken as an input instead of `new Date()`.
  The feed's year, month and day come from the clock and are not modelled.
- Month arithmetic (`getNewMonthYear`) and grouping plans by day happen outside the
  modelled screens; the day-keyed map arrives from the server.
- `useTags`, `useSingleImagePicker` (beyond the URL it is seeded with, `initialImage`)
  and `useMyCalendarStore` (beyond the `SetEditMode` effect) are opaque hooks.
- Overlapping refreshes, superseded fetches and the asynchronous interleaving of React
  state updates: concurrency. Each `await` is one started/settled pair in a trace.
- Plan display fields (title, time, location) and the DTO types they belong to:
  only `planId`, `moimId` and `planType` take part in any decision.
- The feed's `keyExtractor` turns the plan id into a string; the model keeps the id as
  the key, since that conversion is injective.
- `MoimEditInfoScreen.InitialCategory`: every falsy value of the club's category (undefined, "")
  is read as `None`. The source would keep "" as the state value, which renders the same.
- `MoimEditInfoScreen.EditInfoForm.constructor`: `moimId` is a number, truthy unless 0.
  `NaN` is not modelled.
- The review screen, the stack navigators, the plan-calendar list and the HTTP API
  module: configuration or pass-through code with no decision logic.
