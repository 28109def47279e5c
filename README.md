# CIVIS dashboard: a Dafny model of its state and list logic

CIVIS is a React mock-up of a civic-infrastructure dashboard. Officials get
a complaint list, a notification panel, an alerts panel and a map. Citizens
get a home page, a complaint form, a "My Complaints" page and a city status
page. Most of the repository is markup. This project models the logic
written inline in the components and their handlers:

- the record filters, where the `'all'` sentinel matches everything and the
  search is case-insensitive;
- the splitting of a list into groups, and the per-status tallies;
- the notification ranking, which filters and then does a stable sort by
  `urgencyWeight * 100 + trustScore`;
- the health percentages, totals and colour bands of the city status page,
  and the trust-level thresholds;
- the small stateful editors: the application shell (session, theme, page,
  panels), the dismissed-alert set, the complaint form, and the
  detail modal's photo cursor and status select.

Each component is one module:

| module | component |
|---|---|
| `OfficialComplaints` | `src/components/OfficialComplaintsPage.tsx` |
| `NotificationPanel` | `src/components/OfficialNotificationPanel.tsx` |
| `App` | `src/App.tsx` |
| `CitizenMap` | `src/components/CitizenMapPage.tsx` |
| `CitizenDashboard` | `src/components/CitizenDashboard.tsx` |
| `MyComplaints` | `src/components/MyComplaintsPage.tsx` |
| `CityStatus` | `src/components/CityStatusPage.tsx` |
| `TrustBadge` | `src/components/TrustIndexBadge.tsx` |
| `AlertsPanel` | `src/components/AlertsPanel.tsx` |
| `ComplaintForm` | `src/components/CitizenComplaintForm.tsx` |
| `ComplaintDetailModal` | `src/components/ComplaintDetailModal.tsx` |

Three modules are shared:

- `Seqs`: `Filter`, the model of `Array.prototype.filter`, with its lemmas
  (subsequence, composition, splitting, counting).
- `Text`: ASCII case mapping, `includes`, `indexOf` and a `replace` of the
  first occurrence of a character.
- `Records`: the complaint record and its string-literal enums.

How the source's constructs are modelled:

- Filters and pure derived values are functions.
- Five components have handlers that overwrite several state fields:
  App, CitizenMapPage, AlertsPanel, CitizenComplaintForm and
  ComplaintDetailModal. Each becomes a class with those fields
  (`App.Shell`, `CitizenMap.MapFilters`, `AlertsPanel.Panel`,
  `ComplaintForm.Form`, `ComplaintDetailModal.Modal`). Its methods carry
  `modifies` clauses and state the whole new state.
- Two components are modelled on values instead:
  - OfficialComplaintsPage's handlers replace one part of the page state
    wholesale. They are functions from one `PageState` value to the next.
  - TrustIndexBadge's one state hook, `showInfo`, is set by hover events.
    It is a function of the event sequence (`ShowInfoAfter`).
- The hard-coded mock arrays are parameters.
- Filter selections stay strings, so that the `'all'` sentinel and
  arbitrary values can be stated. Each enum's `Id()` is its TypeScript
  literal.
- Every `filter` builds a fresh list, so the inputs are never reordered.

## Model

| member | source | states |
|---|---|---|
| Records.IdsAreDistinct | src/components/OfficialComplaintsPage.tsx:22-39 | the status and urgency literals are pairwise distinct and none is `'all'`, so a selection names at most one value |
| OfficialComplaints.FilteredComplaints | src/components/OfficialComplaintsPage.tsx:156-163 | the result is an order-preserving subsequence; every kept complaint passes all three filters; every complaint that passes them is kept, as often as it occurs in the input |
| OfficialComplaints.DefaultFiltersShowAll | src/components/OfficialComplaintsPage.tsx:156-163 | status `'all'`, urgency `'all'` and an empty search give back the whole list in order |
| OfficialComplaints.StatusTabSelectsStatus | src/components/OfficialComplaintsPage.tsx:157 | a status selection alone keeps exactly the complaints with that status, in order |
| OfficialComplaints.UrgencySelectSelectsUrgency | src/components/OfficialComplaintsPage.tsx:158 | an urgency selection alone keeps exactly the complaints with that urgency, in order |
| OfficialComplaints.SearchSelectsTitleOrLocation | src/components/OfficialComplaintsPage.tsx:159-161 | a search keeps a complaint iff the lower-cased query occurs in its lower-cased title or location; the empty-query guard is redundant |
| OfficialComplaints.FiltersCompose | src/components/OfficialComplaintsPage.tsx:156-163 | applying the status filter before or after the urgency filter and the search gives the combined filter |
| OfficialComplaints.HighUrgency | src/components/OfficialComplaintsPage.tsx:166 | an order-preserving subsequence of the filtered list holding exactly its unresolved high-urgency complaints |
| OfficialComplaints.OtherComplaints | src/components/OfficialComplaintsPage.tsx:167 | an order-preserving subsequence of the filtered list holding exactly its other complaints |
| OfficialComplaints.PriorityGroupsPartition | src/components/OfficialComplaintsPage.tsx:166-167 | the two groups are disjoint, keep the filtered order, and their lengths add up to the filtered length; a complaint is in the high group iff it is high urgency and not resolved |
| OfficialComplaints.StatusCountsOf | src/components/OfficialComplaintsPage.tsx:258-265 | the "All" badge is the number of complaints and each status badge is the length of the list that status tab shows; the five status badges add up to the "All" badge |
| OfficialComplaints.CountWithStatus | src/components/OfficialComplaintsPage.tsx:260-264 | a status badge is the number of positions of the unfiltered list holding a complaint with that status |
| OfficialComplaints.StatusCountsAddUp | src/components/OfficialComplaintsPage.tsx:258-265 | the five per-status counts of any list add up to its length |
| OfficialComplaints.BadgeMatchesTab | src/components/OfficialComplaintsPage.tsx:258-265 | each status badge equals the length of the list shown on that tab with no other filter |
| OfficialComplaints.ClickComplaint | src/components/OfficialComplaintsPage.tsx:267-269 | only the selection changes, to the clicked complaint |
| OfficialComplaints.CloseDetail | src/components/OfficialComplaintsPage.tsx:271-287 | the verify, assign and status handlers and the close button only clear the selection |
| OfficialComplaints.Shown | src/components/OfficialComplaintsPage.tsx:156-163 | what the page lists is an order-preserving selection of the complaints, the whole list while the filters are at their defaults |
| OfficialComplaints.SelectionLeavesListAlone | src/components/OfficialComplaintsPage.tsx:42-45 | opening or closing a complaint never changes the listed complaints, and the initial page lists all of them |
| NotificationPanel.NotificationCategory.AsCategory | src/components/OfficialNotificationPanel.tsx:16-25 | the complaint category carries the notification's own literal, which is one of the four infrastructure categories |
| NotificationPanel.UrgencyWeight | src/components/OfficialNotificationPanel.tsx:95 | weights lie in 1..3, with 3 exactly for high and 1 exactly for low |
| NotificationPanel.Score | src/components/OfficialNotificationPanel.tsx:96-97 | with a trust score in 0..99, the hundreds digit of the score is the urgency weight and the rest is the trust score |
| NotificationPanel.Insert | src/components/OfficialNotificationPanel.tsx:93-98 | inserting adds exactly that item (as a multiset) |
| NotificationPanel.Rank | src/components/OfficialNotificationPanel.tsx:93-98 | the ranked list is a permutation of its input |
| NotificationPanel.InsertNonIncreasing | src/components/OfficialNotificationPanel.tsx:93-98 | inserting into a list sorted by descending score keeps it sorted |
| NotificationPanel.RankNonIncreasing | src/components/OfficialNotificationPanel.tsx:93-98 | the ranked list is non-increasing in score |
| NotificationPanel.InsertScoreClass | src/components/OfficialNotificationPanel.tsx:93-98 | inserting puts the item at the front of its equal-score group and leaves every other group as it was |
| NotificationPanel.RankScoreOrder | src/components/OfficialNotificationPanel.tsx:93-98 | ranking keeps each group of equal-score items in input order |
| NotificationPanel.RankIsStableSort | src/components/OfficialNotificationPanel.tsx:93-98 | ranking is a stable descending sort: a permutation, non-increasing, ties in input order |
| NotificationPanel.HeadIsMaximal | src/components/OfficialNotificationPanel.tsx:93-98 | the first item of a non-increasing list has the top score |
| NotificationPanel.StableSortIsUnique | src/components/OfficialNotificationPanel.tsx:93-98 | two non-increasing lists in which every equal-score group has the same order are equal, so every stable sort gives what `Rank` gives |
| NotificationPanel.FilteredNotifications | src/components/OfficialNotificationPanel.tsx:87-99 | the panel lists an item iff it is in the input and on the tab, never more items than the input |
| NotificationPanel.FilteredNotificationsSpec | src/components/OfficialNotificationPanel.tsx:87-99 | the panel lists a permutation of the items on the tab, highest score first, ties in input order, and any list with those properties is the panel's list |
| NotificationPanel.TabsKeepWhatTheySay | src/components/OfficialNotificationPanel.tsx:88-92 | "high" keeps exactly the high-urgency items, "unread" exactly the unread ones, and "all" everything |
| NotificationPanel.UrgencyDominatesBelowFullTrust | src/components/OfficialNotificationPanel.tsx:95-97 | with trust scores in 0..99, a ranked list never puts a lower urgency above a higher one |
| NotificationPanel.MediumAtFullTrustCanPrecedeHigh | src/components/OfficialNotificationPanel.tsx:95-97 | a medium item at trust 100 ties a high item at trust 0, and stays above it when it comes first |
| NotificationPanel.UnreadCount | src/components/OfficialNotificationPanel.tsx:101 | the count is the number of positions of the unfiltered list that hold an unread item |
| NotificationPanel.TabLengths | src/components/OfficialNotificationPanel.tsx:101 | the unread badge equals the length of the "unread" tab's list, and the "all" tab lists every item |
| App.Toggled | src/App.tsx:39-41 | toggling always changes the theme |
| App.ToggleTwiceRestores | src/App.tsx:39-41 | toggling twice restores the theme |
| App.LandingPage | src/App.tsx:43-47 | `'overview'` iff official, `'home'` iff citizen |
| App.ComplaintFromNotification | src/App.tsx:93-108 | id, category literal, title, location, urgency, trust score and timestamp are copied; the status is submitted; the reporter and description are the placeholders; there are no photos |
| App.NotificationCount | src/App.tsx:362 | the header badge equals the length of the panel's "unread" tab |
| App.Shell.constructor | src/App.tsx:24-32 | the shell starts in the initial state of the nine state hooks |
| App.Shell.CurrentScreen | src/App.tsx:111-165 | the login page iff not authenticated; in a consistent session, the official dashboard iff the role is official and the citizen pages iff it is citizen |
| App.Shell.ToggleTheme | src/App.tsx:39-41 | only the theme changes, to the other one |
| App.Shell.Login | src/App.tsx:43-47 | role recorded, authenticated, landing page opened, nothing else changed; the session is consistent and the role's screen shows |
| App.Shell.Logout | src/App.tsx:49-53 | not authenticated, no role, page `'overview'`, nothing else changed; the login screen shows |
| App.Shell.Navigate | src/App.tsx:55-57 | only the current page changes |
| App.Shell.ClickNotification | src/App.tsx:93-108 | the converted complaint is selected and the panel is closed; nothing else changes |
| App.Shell.ToggleNotificationPanel | src/App.tsx:361 | only the panel flag flips |
| App.Shell.CloseNotificationPanel | src/App.tsx:511 | only the panel flag changes, to closed |
| App.Shell.CloseComplaint | src/App.tsx:522 | only the selection changes, to none |
| App.Shell.ToggleSidebar | src/App.tsx:356 | only the sidebar flag flips |
| App.Shell.CloseSidebar | src/App.tsx:376 | only the sidebar flag changes, to closed |
| App.Shell.SetCategory | src/App.tsx:372 | only the category selection changes |
| App.Shell.SetStatus | src/App.tsx:374 | only the status selection changes |
| App.Shell.FilteredNodes | src/App.tsx:185-189 | a node is kept iff it meets both sidebar selections, as often as it occurs; the kept nodes keep their order |
| CitizenMap.NodeIdsAreDistinct | src/components/CitizenMapPage.tsx:30-34 | the type and status literals are pairwise distinct and none is `'all'` |
| CitizenMap.FilterNodes | src/components/CitizenMapPage.tsx:30-34 | never more nodes than the whole list; an order-preserving subsequence; a node is kept iff it meets both selections, as often as it occurs |
| CitizenMap.AllSelectionsShowEverything | src/components/CitizenMapPage.tsx:30-34 | with both selections `'all'` every node is shown, in order |
| CitizenMap.SingleSelectionKeepsExactlyThat | src/components/CitizenMapPage.tsx:31-33 | one selection alone keeps exactly the nodes of that type, or exactly those in that status |
| CitizenMap.ConstraintsCommute | src/components/CitizenMapPage.tsx:31-33 | filtering by one selection and then the other, in either order, is the combined filter |
| CitizenMap.StatusCountsOf | src/components/CitizenMapPage.tsx:37-42 | each status count is the length of the list the matching status button shows; the four status counts add up to the number of nodes |
| CitizenMap.CountWithStatus | src/components/CitizenMapPage.tsx:37-42 | a status count is the number of positions of the unfiltered list holding a node in that status |
| CitizenMap.CountOfType | src/components/CitizenMapPage.tsx:126-192 | a category button's count is the number of positions of the unfiltered list holding a node of that type |
| CitizenMap.StatusCountsAddUp | src/components/CitizenMapPage.tsx:37-42 | the four per-status counts of any list add up to its length |
| CitizenMap.TypeCountsAddUp | src/components/CitizenMapPage.tsx:126-192 | the four per-type counts add up to the "All Infrastructure" count |
| CitizenMap.CountsMatchButtons | src/components/CitizenMapPage.tsx:104-192 | each button's count is the number of nodes shown once that button is chosen with the other selection at `'all'` |
| CitizenMap.MapFilters.constructor | src/components/CitizenMapPage.tsx:10-11 | both selections start at `'all'` |
| CitizenMap.MapFilters.Shown | src/components/CitizenMapPage.tsx:386 | the shown count never exceeds the total ("Showing X of Y") |
| CitizenMap.MapFilters.SelectCategory | src/components/CitizenMapPage.tsx:87 | only the category selection changes |
| CitizenMap.MapFilters.SelectStatus | src/components/CitizenMapPage.tsx:207 | only the status selection changes |
| CitizenMap.MapFilters.ClearAll | src/components/CitizenMapPage.tsx:366-369 | both selections go back to `'all'`, the "Active Filters" row disappears, and every node list is shown whole |
| CitizenMap.MapFilters.HasActiveFilters | src/components/CitizenMapPage.tsx:332 | while the "Active Filters" row is hidden the map shows every node |
| CitizenDashboard.FilteredComplaints | src/components/CitizenDashboard.tsx:106-108 | `'all'` returns the list unchanged; any other selection keeps exactly the complaints whose lower-cased category equals it, in order and as often as they occur |
| CitizenDashboard.NoMatchYieldsEmpty | src/components/CitizenDashboard.tsx:108 | a selection that no lower-cased category equals yields the empty list |
| CitizenDashboard.UpperCaseSelectionMatchesNothing | src/components/CitizenDashboard.tsx:108 | a selection containing an upper-case letter matches nothing, since only the categories are lower-cased |
| MyComplaints.GroupsPartition | src/components/MyComplaintsPage.tsx:179-182 | "active" is exactly the submitted and under-review complaints, "resolved" exactly the resolved ones; they are disjoint, keep the input order, and their lengths add up to the total |
| MyComplaints.ActiveGroup | src/components/MyComplaintsPage.tsx:180 | an order-preserving subsequence holding exactly the submitted and under-review complaints |
| MyComplaints.ResolvedGroup | src/components/MyComplaintsPage.tsx:181 | an order-preserving subsequence holding exactly the resolved complaints |
| MyComplaints.Timeline | src/components/MyComplaintsPage.tsx:641-657 | one dot per history entry, in order; an entry has a connector iff it is not current; the last entry is current |
| MyComplaints.OnlyLastIsCurrent | src/components/MyComplaintsPage.tsx:644 | only the last entry is current, so a non-empty history has exactly one current entry |
| CityStatus.CalculatePercentage | src/components/CityStatusPage.tsx:177-179 | the result is the integer nearest to `100 * operational / total`, with halves rounded up; the total must be positive |
| CityStatus.PercentageInRange | src/components/CityStatusPage.tsx:177-179 | for 0 <= operational <= total the percentage is in 0..100, 100 when all are operational and 0 when none is |
| CityStatus.PercentageMonotone | src/components/CityStatusPage.tsx:178 | for a fixed total, more operational units never give a lower percentage |
| CityStatus.TotalOperational | src/components/CityStatusPage.tsx:182 | the fold of the areas' operational counts: never negative when no area count is, and a single area's own count |
| CityStatus.TotalInfrastructure | src/components/CityStatusPage.tsx:183 | the fold of the areas' unit counts: never negative when no area count is, and a single area's own count |
| CityStatus.TotalsBounded | src/components/CityStatusPage.tsx:182-183 | if every area has 0 <= operational <= total, so do the city totals |
| CityStatus.TotalsOfConcat | src/components/CityStatusPage.tsx:182-183 | the totals of two lists of areas joined are the sums of their totals |
| CityStatus.OverallHealth | src/components/CityStatusPage.tsx:184 | with sensible per-area counts the city-wide health is in 0..100; it is 100 when every unit works and 0 when none does |
| CityStatus.HealthBand | src/components/CityStatusPage.tsx:391-395 | green iff >= 90, blue iff 75..89, yellow iff < 75, so exactly one band applies |
| CityStatus.HealthBandMonotone | src/components/CityStatusPage.tsx:391-395 | a healthier area never gets a worse band |
| TrustBadge.GetTrustLevel | src/components/TrustIndexBadge.tsx:14-18 | high iff score >= 80, medium iff 50..79, building iff < 50 |
| TrustBadge.TrustLevel.Label | src/components/TrustIndexBadge.tsx:15-17 | every label ends in " Trust" |
| TrustBadge.TrustLevelMonotone | src/components/TrustIndexBadge.tsx:14-18 | a higher score never gets a lower level |
| TrustBadge.LabelsAreDistinct | src/components/TrustIndexBadge.tsx:15-17 | the three labels differ, so the label names the level |
| TrustBadge.TooltipVisible | src/components/TrustIndexBadge.tsx:52 | the tooltip shows only when hovered and offered, and never when not offered |
| TrustBadge.ShowInfoAfter | src/components/TrustIndexBadge.tsx:40-48 | with the icon not rendered no event changes `showInfo`; otherwise it is set iff the last event was a mouse-enter |
| TrustBadge.TooltipFollowsLastEvent | src/components/TrustIndexBadge.tsx:40-52 | with `showTooltip` false no hovering shows the tooltip; with it true, the tooltip is up iff the last event was a mouse-enter |
| AlertsPanel.VisibleAlerts | src/components/AlertsPanel.tsx:44 | exactly the alerts whose id is not dismissed, in input order and as often as they occur |
| AlertsPanel.DismissRemovesExactlyThatId | src/components/AlertsPanel.tsx:40-44 | dismissing an id removes exactly the visible alerts with that id and keeps the rest in order |
| AlertsPanel.DismissAgainChangesNothing | src/components/AlertsPanel.tsx:40-42 | dismissing an already dismissed id changes nothing |
| AlertsPanel.MoreDismissedShowsLess | src/components/AlertsPanel.tsx:41-44 | a larger dismissed set shows a sub-list, so the visible count never goes up |
| AlertsPanel.EmptyStateIffAllDismissed | src/components/AlertsPanel.tsx:72 | the empty state appears iff every alert's id is dismissed |
| AlertsPanel.Panel.constructor | src/components/AlertsPanel.tsx:20 | nothing is dismissed at first |
| AlertsPanel.Panel.ActiveCount | src/components/AlertsPanel.tsx:65 | the "Active" badge is the length of the visible list and at most the number of alerts |
| AlertsPanel.Panel.Dismiss | src/components/AlertsPanel.tsx:40-42 | the id is added and the set only grows; the visible list loses exactly that id's alerts and the badge never goes up |
| ComplaintForm.KeepIndicesExceptSplits | src/components/CitizenComplaintForm.tsx:54-56 | the index filter cuts out the entry at the index when it is in range and otherwise keeps everything |
| ComplaintForm.WithoutIndex | src/components/CitizenComplaintForm.tsx:54-56 | an in-range index cuts out exactly that photo; an out-of-range index leaves the list unchanged |
| ComplaintForm.RemoveInRange | src/components/CitizenComplaintForm.tsx:54-56 | for an index in range the list gets one shorter, the prefix stays and the suffix moves down by one |
| ComplaintForm.LocationDetectedAsWritten | src/components/CitizenComplaintForm.tsx:62 | the detection timer writes the address into the record captured at the click, not the current one |
| ComplaintForm.StaleDetectionDropsEdits | src/components/CitizenComplaintForm.tsx:58-65 | a title typed during detection is lost when the timer fires |
| ComplaintForm.LocationDetected | src/components/CitizenComplaintForm.tsx:58-65 | corrected: only the location of the current record changes, to the detected address |
| ComplaintForm.DetectionAgreesWithoutEdits | src/components/CitizenComplaintForm.tsx:58-65 | the source's update and the corrected one agree iff nothing but the location changed during detection |
| ComplaintForm.Form.constructor | src/components/CitizenComplaintForm.tsx:26-37 | urgency medium, every other field empty, no photos, all flags off |
| ComplaintForm.Form.SubmitDisabled | src/components/CitizenComplaintForm.tsx:481 | a running submission disables the button; an enabled button means no required field is empty; the untouched form is disabled |
| ComplaintForm.Form.UploadPhotos | src/components/CitizenComplaintForm.tsx:46-52 | with a file list the new photos are appended after the existing ones, which keep their order; without one nothing changes |
| ComplaintForm.Form.RemovePhoto | src/components/CitizenComplaintForm.tsx:54-56 | the photo at the index is removed (one fewer in range, none out of range); nothing else changes |
| ComplaintForm.Form.SetCategory | src/components/CitizenComplaintForm.tsx:235 | only the category field changes |
| ComplaintForm.Form.SetTitle | src/components/CitizenComplaintForm.tsx:277 | only the title field changes |
| ComplaintForm.Form.SetDescription | src/components/CitizenComplaintForm.tsx:299 | only the description field changes |
| ComplaintForm.Form.SetLocation | src/components/CitizenComplaintForm.tsx:328 | only the location field changes |
| ComplaintForm.Form.SetUrgency | src/components/CitizenComplaintForm.tsx:455 | only the urgency field changes |
| ComplaintForm.Form.ClickDetectLocation | src/components/CitizenComplaintForm.tsx:58-60 | detection starts unless the disabled button swallows the click (line 343); then it is running |
| ComplaintForm.Form.FinishDetectLocation | src/components/CitizenComplaintForm.tsx:61-64 | a running detection writes the address into the current record (the corrected behaviour) and ends |
| ComplaintForm.Form.ClickSubmit | src/components/CitizenComplaintForm.tsx:67-70 | submission starts, with the record as it is now, iff the button is enabled (line 481); afterwards the button is disabled |
| ComplaintForm.Form.CompleteSubmit | src/components/CitizenComplaintForm.tsx:72-76 | submitting ends, the success screen shows, and the record captured at the click is what `onSubmit` receives |
| ComplaintForm.Form.SubmitAnother | src/components/CitizenComplaintForm.tsx:171 | only the submitted flag is cleared |
| ComplaintDetailModal.PrevIndex | src/components/ComplaintDetailModal.tsx:409 | `max(0, i - 1)`: never below 0 |
| ComplaintDetailModal.NextIndex | src/components/ComplaintDetailModal.tsx:427 | `min(count - 1, i + 1)`: never above count - 1 |
| ComplaintDetailModal.ApplySteps | src/components/ComplaintDetailModal.tsx:409-429 | from a photo, no sequence of arrow clicks leaves the photo list |
| ComplaintDetailModal.DisabledExactlyWhenNoMove | src/components/ComplaintDetailModal.tsx:411-429 | "Previous" is disabled exactly at 0 and "Next" exactly at the last photo, which is exactly where a click would not move |
| ComplaintDetailModal.StatusColorsDistinct | src/components/ComplaintDetailModal.tsx:56-70 | the five statuses get five distinct colours, none of them gray, and every other string gets gray |
| ComplaintDetailModal.StatusColor | src/components/ComplaintDetailModal.tsx:56-70 | gray exactly for the strings that are not a status, and never red |
| ComplaintDetailModal.UrgencyColor | src/components/ComplaintDetailModal.tsx:73-82 | red iff high, yellow iff medium, green otherwise |
| ComplaintDetailModal.StatusLabel | src/components/ComplaintDetailModal.tsx:103 | the label is as long as the status |
| ComplaintDetailModal.StatusLabelShape | src/components/ComplaintDetailModal.tsx:103 | the label is the status with only its first `'-'` replaced by a space, then upper-cased |
| ComplaintDetailModal.UnderReviewLabel | src/components/ComplaintDetailModal.tsx:103 | "under-review" is shown as "UNDER REVIEW" |
| ComplaintDetailModal.UrgencyLabel | src/components/ComplaintDetailModal.tsx:107 | the urgency in upper case (no lower-case letter) followed by " Priority" |
| ComplaintDetailModal.UrgencyLabels | src/components/ComplaintDetailModal.tsx:107 | the urgency badges read "HIGH Priority", "MEDIUM Priority" and "LOW Priority" |
| ComplaintDetailModal.Modal.constructor | src/components/ComplaintDetailModal.tsx:52-54 | the status select starts at the complaint's own status; no notes; lightbox closed |
| ComplaintDetailModal.Modal.OpenPhoto | src/components/ComplaintDetailModal.tsx:202 | the lightbox opens on the clicked thumbnail; nothing else changes |
| ComplaintDetailModal.Modal.Previous | src/components/ComplaintDetailModal.tsx:409 | the cursor moves to `max(0, i - 1)` and stays on a photo |
| ComplaintDetailModal.Modal.Next | src/components/ComplaintDetailModal.tsx:427 | the cursor moves to `min(count - 1, i + 1)` and stays on a photo |
| ComplaintDetailModal.Modal.CloseLightbox | src/components/ComplaintDetailModal.tsx:404 | the lightbox closes; nothing else changes |
| ComplaintDetailModal.Modal.SelectStatus | src/components/ComplaintDetailModal.tsx:320 | only the selected status changes |
| ComplaintDetailModal.Modal.SetNotes | src/components/ComplaintDetailModal.tsx:345 | only the notes change |
| ComplaintDetailModal.Modal.Update | src/components/ComplaintDetailModal.tsx:387 | "Update" hands over the currently selected status |

## Left out

- Rendering is not modelled: JSX, Tailwind class strings, icons and the
  theme's colour choices. The exceptions are the mappings that decide
  something: the status and urgency badge colours, the health band and the
  trust level. Colours are modelled by colour family.
- The theme's `useEffect` on `document.body` (src/App.tsx:35-37) is a DOM
  effect.
- `console.log` in the official handlers is output. The model keeps only
  their clearing of the selection.
- Timers are modelled as separate events that fire at some later point.
  The 1.5 s and 2 s delays are not modelled.
- `URL.createObjectURL` is a foreign call: photos are opaque strings.
- The model does not do Unicode case mapping: `toLowerCase` and
  `toUpperCase` are ASCII-only.
- The city status figures use exact rationals. `operational / total * 100`
  is floating point in the source, and its rounding error is not modelled.
- CityStatus.CalculatePercentage: requires a positive total. The source has
  no zero guard, and a category with total 0 yields `NaN`, which the model
  does not represent.
- Notification and complaint scores, trust scores and counts are unbounded
  integers. The source's numbers are doubles, which are exact at these
  magnitudes.
- ComplaintDetailModal.Modal: the source types the complaint's category as
  a free string. The model uses the shared category enum.
- These parts of the source are not part of this model:
  - `sensorData` and the area status label colours of the city status
    page;
  - the alert icon and colour functions;
  - the form's static `categories` array and `trustScore` prop, which are
    display data only;
  - HeroSection.tsx, ChartPanel.tsx, AnalyticsPage.tsx, MapView.tsx,
    Header.tsx, Sidebar.tsx, CitizenSidebar.tsx, MetricCard.tsx,
    ComplaintsSection.tsx, MaintenanceSection.tsx and LoginPage.tsx.
- The form's cancel button calls `onNavigate`, which `App.Shell.Navigate`
  models.
- The hard-coded mock arrays are not transcribed. Every list is a
  parameter.
- An absent `photos` list on a complaint is the empty sequence.

## Findings

| source | as written | input that shows it | evidently intended | confidence | as-written member | corrected member |
|---|---|---|---|---|---|---|
| src/components/CitizenComplaintForm.tsx:58-65 | the detection timer writes `{ ...formData, location }` with the `formData` captured when "Detect" was clicked | click "Detect", type the title "Broken light" within 1.5 s; when the timer fires the title reverts to the empty string | only the location of the current record changes (`setFormData(prev => ({ ...prev, location }))`) | not executed | ComplaintForm.LocationDetectedAsWritten, ComplaintForm.StaleDetectionDropsEdits | ComplaintForm.LocationDetected (used by ComplaintForm.Form.FinishDetectLocation) |
