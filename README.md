# Pinterest dashboard — verified model of the editing and scheduling logic

This project models the behaviour behind four screens of a Next.js dashboard for
Pinterest posts, in Dafny, and proves properties of it:

- **Post editor** (`PostEditor`, `post_editor.dfy`). This is the editor modal.
  - The SEO score is a sum of five bonuses, shown in a colour band.
  - The tag list holds at most ten trimmed, distinct tags.
  - It builds the records handed to `onSave` when a post is saved as draft, scheduled,
    published or duplicated.
  - The editor's form state is a class whose handlers update its fields.
- **My Posts** (`PostsPage`, `posts_page.dfy`). This is the posts table.
  - Search and status filtering.
  - Four sort orders, implemented by an in-place stable sort on an array.
  - Pagination of 20 posts per page, with clamped Previous/Next and a five-button
    page-number window.
  - Selection of posts by id.
- **Scheduled posts** (`ScheduledPage`, `scheduled_page.dfy`, with `Calendar` in
  `calendar.dfy`).
  - The page's fixture of 50 posts.
  - The month grid, built by two loops.
  - The posts of a day, matched by the date part of their ISO timestamp.
  - The upcoming queue, sorted by time.
  - The queue statistics.
  - Month navigation, with JavaScript's month carry.
  - Drag and drop.
- **Generate posts** (`GeneratePage`, `generate_page.dfy`).
  - The sitemap URL check and the category toggle.
  - The simulated run of four phases. Each phase is a loop stepping the progress of its
    step by a fixed increment.
  - Reset, the mock results and their success rate.
  - The remaining-time readout.

The shared modules are:

- `Lists`: JavaScript's `filter`, `includes`-based toggle and `slice`, as functions on
  sequences.
- `Sorting`: a stable in-place sort of an array by an integer key.
- `Text`: `trim`, ASCII `toLowerCase`, `includes`, `split('T')[0]`, `length` in UTF-16
  code units, and decimal digits.
- `Numbers`: `Math.min`, `Math.max` and `Math.round` of a quotient.
- `Wrappers`: an `Option` type.

Inputs the program takes from its surroundings become parameters:

- The outcome of `Math.random()`.
- Whether `new URL(...)` parses a string.
- The current time.
- `Date.now()`.

Timestamps are integers standing for `getTime()`.

## Model

| member | source | states |
|---|---|---|
| PostEditor.SeoScore | components/dashboard/post-editor.tsx:106-116 | the score is at most 100 and a multiple of 5; title and description lengths are counted in UTF-16 code units, as `length` counts them |
| PostEditor.Editor.CalculateSeoScore | components/dashboard/post-editor.tsx:106-116 | the step-by-step `score +=` over the code-unit lengths, with the final `Math.min`, equals the sum of the five independent bonuses, lies in 0..100 and is a multiple of 5 |
| PostEditor.PerfectScoreIffAllCriteria | components/dashboard/post-editor.tsx:109-115 | the score is 100 exactly when all five criteria hold |
| PostEditor.Band | components/dashboard/post-editor.tsx:313-331 | green band iff score ≥ 80, red band iff score < 60, yellow otherwise |
| PostEditor.BandNeedsTitleOrDescription | components/dashboard/post-editor.tsx:313-314 | the green band needs both the title and the description in range; yellow or better needs at least one of them |
| PostEditor.GoodTitleIsNotNearLimit | components/dashboard/post-editor.tsx:357 | a title earning the length bonus (20..60 code units) never shows the "over 80 % of 100" length hint |
| PostEditor.AddButtonMatchesGuard | components/dashboard/post-editor.tsx:460 | `addTag`'s guard holds iff the Add button is enabled and the trimmed tag is not already present |
| PostEditor.TagsAfterAdd | components/dashboard/post-editor.tsx:136-142 | the trimmed tag is appended iff it is non-empty, new and fewer than 10 tags exist, otherwise the list is unchanged; at most 10 distinct trimmed tags is preserved |
| PostEditor.TagsAfterRemove | components/dashboard/post-editor.tsx:144-147 | every copy of the tag is gone, every other tag stays, the order is kept, and the tag invariant is preserved |
| PostEditor.Editor.AddTag | components/dashboard/post-editor.tsx:136-142 | tags become `TagsAfterAdd`; on success the input is cleared and the form is dirty, otherwise nothing changes |
| PostEditor.Editor.RemoveTag | components/dashboard/post-editor.tsx:144-147 | tags become `TagsAfterRemove` and the form is dirty |
| PostEditor.Editor.EditTitle | components/dashboard/post-editor.tsx:348-351 | stores the value and marks the form dirty |
| PostEditor.Editor.EditDescription | components/dashboard/post-editor.tsx:372-375 | stores the value and marks the form dirty |
| PostEditor.Editor.EditSourceUrl | components/dashboard/post-editor.tsx:416-419 | stores the value and marks the form dirty |
| PostEditor.Editor.EditCategory | components/dashboard/post-editor.tsx:433-436 | stores the value and marks the form dirty |
| PostEditor.Editor.EditNewTag | components/dashboard/post-editor.tsx:455 | stores the value without marking the form dirty |
| PostEditor.Editor.EditScheduleDate | components/dashboard/post-editor.tsx:494 | stores the date input's value |
| PostEditor.Editor.EditScheduleTime | components/dashboard/post-editor.tsx:506 | stores the time input's value |
| PostEditor.Editor.constructor | components/dashboard/post-editor.tsx:46-70 | the form opens on the post's fields, with no tags, an empty tag input, the date field on `post.scheduledDate \|\| ""` as written (a full date-time for a scheduled post), 14:00, and no unsaved changes |
| PostEditor.Editor.HandleSave | components/dashboard/post-editor.tsx:150-165 | draft/schedule/publish map to draft/scheduled/published; `scheduledDate` is present iff scheduling and is then `${date}T${time}:00`; the edited fields and tags are carried, the id and image kept |
| PostEditor.Editor.HandleDuplicate | components/dashboard/post-editor.tsx:168-178 | new id, title plus " (Copy)", status draft, every other field of the original post |
| PostEditor.ScheduleStringSplitsBack | components/dashboard/post-editor.tsx:160 | a scheduled date string splits back at its first 'T' into the chosen date and `${time}:00` |
| PostEditor.ScheduledSaveSplitsBack | components/dashboard/post-editor.tsx:160 | once the date field holds a plain date (no 'T', as the date input yields), a scheduled save splits back into the editor's date and time |
| PostEditor.InitialScheduleDateAsWritten | components/dashboard/post-editor.tsx:55 | the date field's initial value is the post's `scheduledDate` when there is one and "" otherwise; its date part is the corrected initial value |
| PostEditor.InitialScheduleDate | components/dashboard/post-editor.tsx:55 | the correction of the Findings row: the initial value the date input needs, the date part of `post.scheduledDate`, holding no 'T' |
| PostEditor.AsWrittenRescheduleKeepsOldTime | components/dashboard/post-editor.tsx:55 | as written, re-scheduling a scheduled post stored as `date T time` without touching the date field stores `date T time T 14:00:00`, whose time part is not the chosen `14:00:00` (for `2024-01-20T14:30:00` it stores `2024-01-20T14:30:00T14:00:00`) |
| PostEditor.RescheduleKeepsDay | components/dashboard/post-editor.tsx:55 | with the corrected initial value, re-scheduling keeps the post's day and takes the chosen time |
| Text.Utf16Length | components/dashboard/post-editor.tsx:109-110 | a string's `length` in UTF-16 code units lies between its character count and twice that, and equals the character count when every character is in the Basic Multilingual Plane |
| Text.Utf16LengthAppend | components/dashboard/post-editor.tsx:109-110 | the code-unit length of a concatenation is the sum of the parts' lengths |
| PostsPage.FilterPosts | app/dashboard/posts/page.tsx:228-233 | a subsequence of the posts; a post is kept iff its lower-cased title or description contains the lower-cased query and the filter is "all" or its status |
| PostsPage.EmptySearchKeepsAll | app/dashboard/posts/page.tsx:229-231 | an empty query with "all" keeps every post, in order |
| PostsPage.FilteredAndSortedPosts | app/dashboard/posts/page.tsx:227-252 | the result is a permutation of the filtered posts; newest/oldest are non-increasing/non-decreasing by date and performance is non-increasing; posts with equal sort keys keep their filtered order; any other option (comparator 0) keeps the filtered order |
| PostsPage.ViewIsDetermined | app/dashboard/posts/page.tsx:227-252 | two lists that are both the sorted view of the same posts, query, filter and option are equal: ties are broken by the filtered order |
| Sorting.SortByKey | app/dashboard/posts/page.tsx:236-249 | the array is sorted by the key and is a permutation of its old contents; for every key, the elements with that key keep their old relative order (a stable sort), so equal keys everywhere leave it unchanged |
| Sorting.SortedStableUnique | app/dashboard/posts/page.tsx:236-249 | two sequences sorted by the same key that hold, key by key, the same elements in the same order are equal: a stable sort has one possible result |
| PostsPage.TotalPages | app/dashboard/posts/page.tsx:256 | `Math.ceil(n / 20)`: the fewest pages of 20 that hold n posts |
| PostsPage.Page | app/dashboard/posts/page.tsx:257-259 | at most 20 posts: the slice from `(page-1)*20` clipped to the list, empty past its end |
| PostsPage.PageSizes | app/dashboard/posts/page.tsx:255-259 | every page before the last is full, the last holds the non-empty remainder, later pages are empty |
| PostsPage.PagesCoverList | app/dashboard/posts/page.tsx:255-259 | pages 1..totalPages concatenated give back the whole list |
| PostsPage.StalePageShowsNothing | app/dashboard/posts/page.tsx:257-259 | a current page left past the last page after the filter narrows shows no posts |
| PostsPage.PageButtons | app/dashboard/posts/page.tsx:738-741 | `min(5, totalPages)` slots |
| PostsPage.PageButtonsShape | app/dashboard/posts/page.tsx:738-741 | the slots show consecutive pages within 1..totalPages (the `null` case never arises) and include the current page when it exists |
| PostsPage.PostsPageState.constructor | app/dashboard/posts/page.tsx:48-53 | empty query, "all", newest first, page 1, nothing selected |
| PostsPage.PostsPageState.SetSearchQuery | app/dashboard/posts/page.tsx:358 | the view is recomputed for the new query; the page is not reset |
| PostsPage.PostsPageState.SetStatusFilter | app/dashboard/posts/page.tsx:366 | the view is recomputed for the new filter |
| PostsPage.PostsPageState.SetSortBy | app/dashboard/posts/page.tsx:378 | the view is recomputed for the new order |
| PostsPage.PostsPageState.PreviousPage | app/dashboard/posts/page.tsx:729 | the page becomes `max(page - 1, 1)`, so never below 1 |
| PostsPage.PostsPageState.NextPage | app/dashboard/posts/page.tsx:759 | the page becomes `min(page + 1, totalPages)`, so never above the last page |
| PostsPage.PostsPageState.GoToPage | app/dashboard/posts/page.tsx:747 | a page-number button sets the page it shows |
| PostsPage.PostsPageState.TogglePostSelection | app/dashboard/posts/page.tsx:262-268 | the id is added if absent and removed if present; the page state stays valid |
| Lists.ToggleTwiceAbsent | app/dashboard/posts/page.tsx:262-268 | toggling an absent id twice restores the selection exactly |
| Lists.ToggleTwicePresent | app/dashboard/posts/page.tsx:262-268 | toggling a present id twice keeps the same ids (the id moves last) |
| Lists.ToggleKeepsNoDuplicates | app/dashboard/posts/page.tsx:262-268 | toggling never introduces a duplicate id |
| PostsPage.PostsPageState.SelectAllPosts | app/dashboard/posts/page.tsx:270-272 | the selection is exactly the current page's ids; the page state stays valid |
| PostsPage.PostsPageState.ClearSelection | app/dashboard/posts/page.tsx:274-276 | the selection is empty; the page state stays valid |
| PostsPage.PostsPageState.HeaderSelectAll | app/dashboard/posts/page.tsx:621 | clears when every current post is selected, otherwise selects exactly the current page; the page state stays valid |
| Calendar.DaysInMonth | app/dashboard/scheduled/page.tsx:196-197 | 28..31 days, February has 29 exactly in Gregorian leap years |
| Calendar.NextMonthFollows | app/dashboard/scheduled/page.tsx:196-197 | the 1st of the next month is `DaysInMonth` days after the 1st of this one, across year ends |
| Calendar.NextMonthWeekday | app/dashboard/scheduled/page.tsx:198 | the next month's grid starts on the weekday after this month's last day |
| Calendar.NewYear2024IsMonday | app/dashboard/scheduled/page.tsx:198 | `getDay()` of 2024-01-01 is 1 (Monday) |
| Calendar.ShiftMonth | app/dashboard/scheduled/page.tsx:409 | `new Date(y, m + delta, 1)`: the month carries into the year, months counted without gaps |
| Calendar.ShiftMonthRoundTrip | app/dashboard/scheduled/page.tsx:409 | next then previous month (and the reverse) returns to the same month |
| Calendar.ShiftMonthWraps | app/dashboard/scheduled/page.tsx:415 | December goes to January of the next year, January back to December of the previous one |
| Calendar.NormalizeDate | app/dashboard/scheduled/page.tsx:131 | a day past the month end is carried into later months; the same day, in normal form |
| Calendar.PaddedParses | app/dashboard/scheduled/page.tsx:177 | the zero-padded fields of `toISOString()` read back as the number they pad |
| Calendar.IsoStringDay | app/dashboard/scheduled/page.tsx:177 | `split('T')[0]` of a `toISOString()` value is its `YYYY-MM-DD` key |
| ScheduledPage.GetDaysInMonth | app/dashboard/scheduled/page.tsx:192-213 | `startingDayOfWeek` nulls, then days 1..daysInMonth in order; length is their sum, at most 37 |
| ScheduledPage.GridColumnIsWeekday | app/dashboard/scheduled/page.tsx:423-431 | the day in grid cell k falls on weekday k % 7, under the Sun..Sat header |
| ScheduledPage.PostsForDay | app/dashboard/scheduled/page.tsx:215-220 | a subsequence of the posts: exactly those whose date part equals the day's |
| ScheduledPage.PostsForDayByKey | app/dashboard/scheduled/page.tsx:176-181 | a post stamped with an ISO time is listed under a day iff their day keys agree |
| ScheduledPage.CellPosts | app/dashboard/scheduled/page.tsx:454 | a cell shows the first two posts of its day, or all of them when there are fewer: exactly `min(2, n)` posts, a prefix of the day's list |
| ScheduledPage.MoreCount | app/dashboard/scheduled/page.tsx:469-471 | the "+n more" line appears iff more than two posts fall on the day |
| ScheduledPage.CellAccountsForEveryPost | app/dashboard/scheduled/page.tsx:454-471 | shown posts plus the "more" count equal the day's posts |
| ScheduledPage.UpcomingPosts | app/dashboard/scheduled/page.tsx:184-189 | a permutation of the posts strictly after now, ordered by non-decreasing time; posts at the same time keep their original order (a stable sort), which decides which of them reach the ten-post queue |
| ScheduledPage.QueuePosts | app/dashboard/scheduled/page.tsx:641 | the queue lists the first `min(10, n)` upcoming posts, a prefix of the sorted list: all of them when fewer than ten are upcoming |
| ScheduledPage.ScheduledCount | app/dashboard/scheduled/page.tsx:612 | at most the number of posts, and 0 exactly when no post has status scheduled |
| ScheduledPage.ConflictCount | app/dashboard/scheduled/page.tsx:621 | at most the number of posts, and 0 exactly when no post has a conflicts list |
| ScheduledPage.AveragePerformance | app/dashboard/scheduled/page.tsx:631 | absent (NaN) iff no post has a non-zero performance, otherwise their sum over their count rounded half up |
| ScheduledPage.AverageWithinBounds | app/dashboard/scheduled/page.tsx:631 | when the rated posts score within lo..hi, so does the average |
| ScheduledPage.AverageIgnoresUnrated | app/dashboard/scheduled/page.tsx:631 | a post with performance 0 or none does not move the average |
| ScheduledPage.FixturePostFields | app/dashboard/scheduled/page.tsx:124-172 | generated post i has id i+6 and status `statuses[i%4]`; optimal iff i%4 = 2 (3 PM); conflicts iff i%8 = 0; failed iff performance 0, otherwise 65..99 |
| ScheduledPage.OptimalSlotPostsFail | app/dashboard/scheduled/page.tsx:130-136 | every generated post at the optimal 3 PM slot is a failed one |
| ScheduledPage.FixturePostOnItsDay | app/dashboard/scheduled/page.tsx:129-132 | a generated post's date part is the key of day `20 + floor(i/4) + 1` of January 2024 |
| ScheduledPage.LastFixtureDayIsFebruaryFirst | app/dashboard/scheduled/page.tsx:129-131 | post i = 44 lands on "January 32nd", that is February 1st |
| ScheduledPage.GeneratedPosts | app/dashboard/scheduled/page.tsx:124 | 45 posts, post k built from index k |
| ScheduledPage.ScheduledPosts | app/dashboard/scheduled/page.tsx:56-173 | the five hand-written posts then the 45 generated ones: 50 posts |
| ScheduledPage.GeneratedPostKinds | app/dashboard/scheduled/page.tsx:124-170 | generated post k is scheduled iff k % 4 = 0 and has conflicts iff k % 8 = 0 |
| ScheduledPage.CountScheduledByIndex | app/dashboard/scheduled/page.tsx:612 | where post k is scheduled iff k % 4 = 0, the first n posts hold ceil(n / 4) scheduled ones (the count c with 4c - 3 <= n <= 4c) |
| ScheduledPage.CountConflictsByIndex | app/dashboard/scheduled/page.tsx:621 | where post k has conflicts iff k % 8 = 0, the first n posts hold ceil(n / 8) with conflicts (the count c with 8c - 7 <= n <= 8c) |
| ScheduledPage.GeneratedCounts | app/dashboard/scheduled/page.tsx:124-172 | the 45 generated posts hold 12 scheduled posts and 6 with conflicts |
| ScheduledPage.HandWrittenCounts | app/dashboard/scheduled/page.tsx:56-122 | the five hand-written posts hold 3 scheduled posts and 1 with conflicts |
| ScheduledPage.FixtureCounts | app/dashboard/scheduled/page.tsx:612-621 | on the fixture the page shows 15 scheduled posts and 7 conflicts |
| ScheduledPage.SchedulerState.constructor | app/dashboard/scheduled/page.tsx:48-50 | today selected, nothing dragged |
| ScheduledPage.SchedulerState.PreviousMonth | app/dashboard/scheduled/page.tsx:409 | the 1st of the previous month is selected |
| ScheduledPage.SchedulerState.NextMonth | app/dashboard/scheduled/page.tsx:415 | the 1st of the next month is selected |
| ScheduledPage.SchedulerState.SelectDate | app/dashboard/scheduled/page.tsx:442 | clicking a day cell selects it |
| ScheduledPage.SchedulerState.HandleDragStart | app/dashboard/scheduled/page.tsx:251-253 | the dragged id is recorded |
| ScheduledPage.SchedulerState.HandleDrop | app/dashboard/scheduled/page.tsx:259-266 | a truthy dragged id (present, not 0) is cleared; otherwise nothing changes |
| GeneratePage.IsValidUrl | app/dashboard/generate/page.tsx:94-101 | true only if the string parses, and false when it contains neither "sitemap" nor "xml" |
| GeneratePage.SampleSitemapsAccepted | app/dashboard/generate/page.tsx:68-72 | the three sample sitemap URLs pass the check |
| GeneratePage.ToggleCategory | app/dashboard/generate/page.tsx:104-110 | the category is added if absent, removed if present, others unaffected |
| GeneratePage.ToggleCategoryTwice | app/dashboard/generate/page.tsx:104-110 | toggling twice restores the same categories, and the same list when it was absent |
| GeneratePage.GenerateMockPosts | app/dashboard/generate/page.tsx:113-137 | exactly `count` posts, post i built from index i and its draw |
| GeneratePage.MockPostFields | app/dashboard/generate/page.tsx:129-136 | post i has id i+1, title `mockTitles[i%10]`, category `mockCategories[i%5]`, image `/placeholder-${i%5+1}.jpg`, and succeeds iff its draw does |
| GeneratePage.MockPostIdsAndUrls | app/dashboard/generate/page.tsx:130-134 | ids are distinct, and each URL is `https://example.com/post-` followed by digits that parse back to the id |
| GeneratePage.SuccessRate | app/dashboard/generate/page.tsx:253-255 | 0 for no posts, otherwise the percentage of successes rounded half up; always 0..100 |
| GeneratePage.SuccessRateExtremes | app/dashboard/generate/page.tsx:253-255 | all successful gives 100, none gives 0 |
| GeneratePage.RemainingTime | app/dashboard/generate/page.tsx:512 | never negative; positive exactly while `est - progress*est/100` is positive, and then its ceiling |
| GeneratePage.RemainingTimeCountsDown | app/dashboard/generate/page.tsx:512 | starts at the estimate, is 0 at 100 %, and never rises as progress grows |
| GeneratePage.UpdateStep | app/dashboard/generate/page.tsx:151-153 | only steps with the matching id take the new status/progress; every other step is unchanged |
| GeneratePage.ResetSteps | app/dashboard/generate/page.tsx:148 | every step pending at 0, ids and names kept |
| GeneratePage.UpdateStepAt | app/dashboard/generate/page.tsx:151-216 | with the four fixed ids, updating by id changes exactly one position |
| GeneratePage.TicksShape | app/dashboard/generate/page.tsx:155-212 | a phase's progress goes 0, d, 2d, … within 0..100, its last value less than d short of 100 |
| GeneratePage.PhaseTickCounts | app/dashboard/generate/page.tsx:155-212 | the phases (d = 10, 15, 8, 12) show 11, 7, 13, 9 values, ending at 100, 90, 96, 96 |
| GeneratePage.OverallProgressFullAfterFirstPhase | app/dashboard/generate/page.tsx:155-161 | the overall bar reaches 100 at the end of the first phase and the readout shows 0 s from then on |
| GeneratePage.Generator.constructor | app/dashboard/generate/page.tsx:43-65 | idle, 20 posts requested, every step pending |
| GeneratePage.Generator.SetPostCount | app/dashboard/generate/page.tsx:403-408 | the range input's value 5..100 becomes the post count |
| GeneratePage.Generator.ToggleCategoryChoice | app/dashboard/generate/page.tsx:428 | the selection becomes `ToggleCategory` of the old one |
| GeneratePage.Generator.RunStep | app/dashboard/generate/page.tsx:150-165 | from steps before k completed and the rest pending, step k goes processing then completed at 100; its progress shows exactly `Ticks(0, d)`, and the j-th value shown is the step list with step k processing at that value and every other step untouched; only the first phase drives the overall bar |
| GeneratePage.Generator.SetSitemapUrl | app/dashboard/generate/page.tsx:315 | the URL input and the example-URL buttons (line 328) store the given URL |
| GeneratePage.Generator.SimulateProcessing | app/dashboard/generate/page.tsx:141-224 | ends with all four steps completed in order, `postCount` mock posts, not generating, results shown, progress 100, estimate 120 |
| GeneratePage.Generator.HandleGenerate | app/dashboard/generate/page.tsx:236-239 | an invalid URL changes nothing; a valid one runs the whole simulation |
| GeneratePage.Generator.HandleAnalyze | app/dashboard/generate/page.tsx:227-233 | an invalid URL changes nothing; a valid one ends with analysing off |
| GeneratePage.Generator.ResetProcess | app/dashboard/generate/page.tsx:242-250 | idle, no results, no posts, progress and estimate 0, every step pending at 0 |

## Left out

- Rendering, CSS, modals, view-mode switches, icons and the pages outside these four
  screens: they are markup without behaviour.
- Timers and `await setTimeout` are left out. `simulateProcessing` is a sequential run
  of its loops with the delays dropped. Also left out: the editor's auto-save effect and
  the window keyboard shortcuts (Ctrl+A, Escape) of the posts page.
- GeneratePage.Generator.ResetProcess: Cancel during a run does not stop the run in the
  program, which keeps writing steps and results afterwards. This interleaving is
  concurrency and is not modelled; the model's reset is atomic.
- `Math.random()`: the scheduled fixture's performance draw (0..34) and each generated
  post's success are parameters. The fixture's views, saves and shares are not modelled.
- `Date` and locale behaviour are modelled only in part:
  - Post dates are integer timestamps.
  - `toISOString()` is modelled in UTC. The local time zone offset, which can move a
    post or a calendar cell to a neighbouring day, is not modelled.
  - `toLocaleTimeString`/`toLocaleDateString`, `toDateString` (today and selected-cell
    highlighting) and the "Today" button's clock are not modelled.
  - The day passed to `PostsForDay` is its ISO string, given as an input.
- PostsPage.FilteredAndSortedPosts: the "a-z" order uses `localeCompare`, whose collation
  is not modelled. For "a-z" the model keeps the filtered order.
- PostsPage.MatchesSearch: `toLowerCase` is modelled for ASCII letters only.
- `new URL(...)` (the WHATWG URL parser) is the `parses` parameter of `IsValidUrl`.
- GeneratePage.SuccessRate: floating-point rounding of `successes / total * 100` is not
  modelled. The model rounds the exact ratio half up, which can differ from the floating
  result at an exact .5.
- ScheduledPage.AveragePerformance: the same applies to `Math.round(sum / count)`. The
  NaN shown for an empty list is `None`.
- `confirm()`, `console.log`, and the `onSave`/`onClose` callbacks are left out. The
  records handed to `onSave` are the results of `HandleSave` and `HandleDuplicate`.
- The editor's image upload is left out. As written, `image` is read at lines 133, 155
  and 259 of components/dashboard/post-editor.tsx, but its state at line 48 is commented
  out, so the file does not type-check, and at run time the name is undeclared. The model
  reads `image` as the post's image throughout (HandleSave keeps `post.image`). This is
  not a Findings row, because no behaviour of the editor is modelled on the undeclared
  name. Also left out: the timezone, board, audience and A/B fields, which are stored but
  feed no logic.
- `maxLength` on the title and description inputs is enforced by the browser, so the
  model's edit methods accept any string.
- The posts page's delete, duplicate and bulk actions are left out: they only call
  `confirm`/`console.log`. So are the settings, analytics and home pages.
- PostsPage.PostsPageState.NextPage requires at least two pages and GoToPage a shown
  page number, because the pagination bar is rendered only when `totalPages > 1`.

## Findings

| source | as written | input that shows it | evidently intended | confidence | as-written member | corrected member |
|---|---|---|---|---|---|---|
| components/dashboard/post-editor.tsx:55 | the date field starts as `post.scheduledDate`, a full date-time, and the save at line 160 appends `T${time}:00` to it | a scheduled post with `scheduledDate` "2024-01-20T14:30:00", saved with Schedule without touching the date field, stores "2024-01-20T14:30:00T14:00:00" | the date input starts on the date part of the post's schedule, so that a scheduled save is `date T time:00` with the post's day and the chosen time | medium, not executed | PostEditor.AsWrittenRescheduleKeepsOldTime | PostEditor.RescheduleKeepsDay |
