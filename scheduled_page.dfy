/**
 * The scheduled-posts page: its fixture of posts, the month grid, the posts of a day,
 * the upcoming queue, the queue statistics, month navigation and drag and drop.
 */
module ScheduledPage {
  import opened Wrappers
  import opened Numbers
  import opened Lists
  import opened Text
  import opened Calendar
  import Sorting

  datatype Status = Scheduled | Processing | Failed | Completed

  /**
   * A scheduled post. `at` stands for `new Date(post.scheduledDate).getTime()`; the
   * optional fields are `undefined` when `None`.
   */
  datatype ScheduledPost = ScheduledPost(
    id: int, title: string, description: string, scheduledDate: string, at: int,
    status: Status, category: string, image: string, board: string, timezone: string,
    performance: Option<int>, conflicts: Option<seq<string>>, optimalTime: Option<bool>)

  // ---------------------------------------------------------------- fixture

  const Categories: seq<string> := ["Marketing", "SEO", "Design", "Content", "Analytics",
    "Engagement", "Automation", "Community", "E-commerce", "Lifestyle"]
  const Boards: seq<string> := ["Marketing Tips", "SEO Strategies", "Design Inspiration",
    "Content Ideas", "Analytics Insights", "Community Building", "Business Growth", "Creative Ideas"]
  const Statuses: seq<Status> := [Scheduled, Processing, Failed, Completed]
  const Hours: seq<nat> := [9, 12, 15, 18]
  const Minutes: seq<nat> := [0, 15, 30, 45]
  const GeneratedCount := 45
  const ConflictNotes: seq<string> := ["Too many posts at same time", "Low engagement period"]

  /** The eight title templates, as the text before and after the category. */
  const TitleTemplates: seq<(string, string)> := [
    ("Ultimate Pinterest Marketing Guide for ", ""),
    ("", " Best Practices That Actually Work"),
    ("How to Dominate Pinterest in ", ""),
    ("The Complete ", " Strategy Playbook"),
    ("Pinterest Secrets Every ", " Professional Needs"),
    ("Transform Your ", " with These Pinterest Tips"),
    ("The ", " Blueprint for Pinterest Success"),
    ("Advanced ", " Techniques for Pinterest")]

  /** The six description templates, around the lower-cased category. */
  const DescriptionTemplates: seq<(string, string)> := [
    ("Discover proven strategies to skyrocket your ", " presence on Pinterest"),
    ("Learn the insider secrets that top ", " brands use to dominate Pinterest"),
    ("Master the art of ", " marketing with these expert tips"),
    ("Unlock the power of Pinterest for your ", " business"),
    ("Get ahead of the competition with these ", " Pinterest strategies"),
    ("Revolutionize your ", " approach with Pinterest best practices")]

  function FixtureTitle(i: nat): string {
    var t := TitleTemplates[i % 8];
    t.0 + Categories[i % 10] + t.1
  }

  function FixtureDescription(i: nat): string {
    var t := DescriptionTemplates[i % 6];
    t.0 + ToLower(Categories[i % 10]) + t.1
  }

  /** `new Date(2024, 0, 20 + dayOffset)` with `dayOffset = floor(i / 4) + 1`. */
  function FixtureDay(i: nat): (r: Date)
    ensures r.year >= 2024 && 1 <= r.day
  {
    NormalizeDate(2024, 0, 20 + i / 4 + 1)
  }

  /**
   * Generated post number i. `draw` is `Math.floor(Math.random() * 35)`, the random
   * part of the performance of a post that has not failed.
   */
  function FixturePost(i: nat, draw: int): ScheduledPost
    requires 0 <= draw < 35
  {
    var status := Statuses[i % 4];
    var hour := Hours[i % 4];
    var day := FixtureDay(i);
    ScheduledPost(
      i + 6, FixtureTitle(i), FixtureDescription(i),
      IsoString(day, hour, Minutes[i % 4]), Timestamp(day, hour, Minutes[i % 4]),
      status, Categories[i % 10], "https://picsum.photos/400/600?random=" + NatToString(i + 6),
      Boards[i % 8], "EST",
      Some(if status == Failed then 0 else draw + 65),
      if i % 8 == 0 then Some(ConflictNotes) else None,
      Some(hour == 15))
  }

  /** Generated post i: its id, status, hour, conflicts and performance follow from i alone. */
  lemma FixturePostFields(i: nat, draw: int)
    requires 0 <= draw < 35
    ensures FixturePost(i, draw).id == i + 6
    ensures FixturePost(i, draw).status == Statuses[i % 4]
    ensures FixturePost(i, draw).optimalTime == Some(i % 4 == 2)
    ensures FixturePost(i, draw).conflicts.Some? <==> i % 8 == 0
    ensures FixturePost(i, draw).status == Failed <==> FixturePost(i, draw).performance == Some(0)
    ensures FixturePost(i, draw).status != Failed ==> 65 <= FixturePost(i, draw).performance.value <= 99
  {
  }

  /** Every generated post at the "optimal" 3 PM slot is one of the failed ones. */
  lemma OptimalSlotPostsFail(i: nat, draw: int)
    requires 0 <= draw < 35
    ensures FixturePost(i, draw).optimalTime == Some(true) <==> FixturePost(i, draw).status == Failed
  {
  }

  /** The generated post appears in the calendar cell of its day, whatever the time of the cell's timestamp. */
  lemma FixturePostOnItsDay(i: nat, draw: int, hour: nat, minute: nat)
    requires 0 <= draw < 35
    ensures DatePart(FixturePost(i, draw).scheduledDate) == DatePart(IsoString(FixtureDay(i), hour, minute))
  {
    IsoStringDay(FixtureDay(i), Hours[i % 4], Minutes[i % 4]);
    IsoStringDay(FixtureDay(i), hour, minute);
  }

  /** The last generated post, i = 44, lands on "January 32nd", which is February 1st. */
  lemma LastFixtureDayIsFebruaryFirst()
    ensures FixtureDay(44) == Date(2024, 1, 1)
  {
    assert DaysInMonth(2024, 0) == 31;
  }

  /** The 45 generated posts, given the 45 random draws. */
  function GeneratedPosts(draws: seq<int>): (r: seq<ScheduledPost>)
    requires |draws| == GeneratedCount && forall k :: 0 <= k < |draws| ==> 0 <= draws[k] < 35
    ensures |r| == GeneratedCount && forall k :: 0 <= k < |r| ==> r[k] == FixturePost(k, draws[k])
  {
    seq(GeneratedCount, k requires 0 <= k < GeneratedCount => FixturePost(k, draws[k]))
  }

  /** The five posts written out by hand before the generated ones. */
  const HandWrittenPosts: seq<ScheduledPost> := [
    ScheduledPost(1, "10 Essential Pinterest Marketing Tips",
      "Learn the most effective strategies to grow your Pinterest presence",
      "2024-01-20T14:00:00", Timestamp(Date(2024, 0, 20), 14, 0), Scheduled, "Marketing",
      "https://picsum.photos/400/600?random=1", "Marketing Tips", "EST", Some(85), None, Some(true)),
    ScheduledPost(2, "Pinterest SEO: Complete Guide for Bloggers",
      "Optimize your Pinterest posts for better search visibility",
      "2024-01-22T10:30:00", Timestamp(Date(2024, 0, 22), 10, 30), Scheduled, "SEO",
      "https://picsum.photos/400/600?random=2", "SEO Strategies", "EST", Some(72), None, Some(false)),
    ScheduledPost(3, "Design Trends That Will Dominate Pinterest",
      "Stay ahead with these design trends taking Pinterest by storm",
      "2024-01-25T16:00:00", Timestamp(Date(2024, 0, 25), 16, 0), Processing, "Design",
      "https://picsum.photos/400/600?random=3", "Design Inspiration", "EST", Some(79), None, Some(true)),
    ScheduledPost(4, "Content Creation Workflow for Pinterest",
      "Streamline your content creation process for maximum efficiency",
      "2024-01-28T12:00:00", Timestamp(Date(2024, 0, 28), 12, 0), Failed, "Content",
      "https://picsum.photos/400/600?random=4", "Content Ideas", "EST", Some(0),
      Some(["Too many posts at same time"]), Some(false)),
    ScheduledPost(5, "Pinterest Analytics Deep Dive",
      "Understanding your Pinterest metrics to improve performance",
      "2024-02-01T14:00:00", Timestamp(Date(2024, 1, 1), 14, 0), Scheduled, "Analytics",
      "https://picsum.photos/400/600?random=5", "Analytics Insights", "EST", Some(68), None, Some(true))
  ]

  /** `scheduledPosts`: the hand-written posts followed by the generated ones. */
  function ScheduledPosts(draws: seq<int>): (r: seq<ScheduledPost>)
    requires |draws| == GeneratedCount && forall k :: 0 <= k < |draws| ==> 0 <= draws[k] < 35
    ensures |r| == 50
  {
    HandWrittenPosts + GeneratedPosts(draws)
  }

  // ---------------------------------------------------------------- month grid

  /**
   * `getDaysInMonth`: one `null` per weekday before the 1st, then every day of the month.
   * `new Date(year, month + 1, 0).getDate()` is the month length (see `NextMonthFollows`).
   */
  method GetDaysInMonth(year: int, month: Month) returns (days: seq<Option<Date>>)
    ensures |days| == Weekday(Date(year, month, 1)) + DaysInMonth(year, month) <= 37
    ensures forall k :: 0 <= k < Weekday(Date(year, month, 1)) ==> days[k] == None
    ensures forall k :: Weekday(Date(year, month, 1)) <= k < |days| ==>
      days[k] == Some(Date(year, month, k - Weekday(Date(year, month, 1)) + 1))
  {
    var startingDayOfWeek := Weekday(Date(year, month, 1));
    var daysInMonth := DaysInMonth(year, month);
    days := [];
    var i := 0;
    while i < startingDayOfWeek
      invariant 0 <= i <= startingDayOfWeek
      invariant |days| == i
      invariant forall k :: 0 <= k < i ==> days[k] == None
    {
      days := days + [None];
      i := i + 1;
    }
    i := 1;
    while i <= daysInMonth
      invariant 1 <= i <= daysInMonth + 1
      invariant |days| == startingDayOfWeek + i - 1
      invariant forall k :: 0 <= k < startingDayOfWeek ==> days[k] == None
      invariant forall k :: startingDayOfWeek <= k < |days| ==>
        days[k] == Some(Date(year, month, k - startingDayOfWeek + 1))
    {
      days := days + [Some(Date(year, month, i))];
      i := i + 1;
    }
  }

  /** The grid has seven columns headed Sun..Sat: the day in cell k falls on weekday k % 7. */
  lemma GridColumnIsWeekday(year: int, month: Month, k: int)
    requires Weekday(Date(year, month, 1)) <= k < Weekday(Date(year, month, 1)) + DaysInMonth(year, month)
    ensures Weekday(Date(year, month, k - Weekday(Date(year, month, 1)) + 1)) == k % 7
  {
    var start := Weekday(Date(year, month, 1));
    var first := DayNumber(Date(year, month, 1));
    assert DayNumber(Date(year, month, k - start + 1)) == first + (k - start);
    WeekdayShift(first + 4, k - start);
  }

  // ---------------------------------------------------------------- posts of a day

  /**
   * `getPostsForDay` and `postsForDate`: the posts whose `scheduledDate` has the same
   * part before the first 'T' as `dayIso`, the `toISOString()` of the day.
   */
  function PostsForDay(posts: seq<ScheduledPost>, dayIso: string): (r: seq<ScheduledPost>)
    ensures IsSubsequence(r, posts)
    ensures forall p :: p in r <==> p in posts && DatePart(p.scheduledDate) == DatePart(dayIso)
  {
    Filter(posts, (p: ScheduledPost) => DatePart(p.scheduledDate) == DatePart(dayIso))
  }

  /** A post stamped with an ISO time is listed under a day exactly when the two day keys agree. */
  lemma PostsForDayByKey(posts: seq<ScheduledPost>, p: ScheduledPost, d: Date, hour: nat, minute: nat,
                         e: Date, cellHour: nat, cellMinute: nat)
    requires p in posts && 0 <= d.year && 1 <= d.day && 0 <= e.year && 1 <= e.day
    requires p.scheduledDate == IsoString(d, hour, minute)
    ensures p in PostsForDay(posts, IsoString(e, cellHour, cellMinute)) <==> DayKey(d) == DayKey(e)
  {
    IsoStringDay(d, hour, minute);
    IsoStringDay(e, cellHour, cellMinute);
  }

  /** A calendar cell shows the first two posts of its day. */
  function CellPosts(postsForDay: seq<ScheduledPost>): (r: seq<ScheduledPost>)
    ensures |r| <= 2 && |r| <= |postsForDay| && r == postsForDay[..|r|]
    ensures |r| == Min(2, |postsForDay|)
  {
    Take(postsForDay, 2)
  }

  /** The "+n more" line, present only when more than two posts fall on the day. */
  function MoreCount(postsForDay: seq<ScheduledPost>): (r: Option<nat>)
    ensures r.Some? <==> |postsForDay| > 2
  {
    if |postsForDay| > 2 then Some(|postsForDay| - 2) else None
  }

  /** The posts shown plus the number announced as "more" is the number of posts of the day. */
  lemma CellAccountsForEveryPost(postsForDay: seq<ScheduledPost>)
    ensures |CellPosts(postsForDay)| + MoreCount(postsForDay).GetOr(0) == |postsForDay|
    ensures MoreCount(postsForDay).Some? ==> |CellPosts(postsForDay)| == 2
  {
  }

  // ---------------------------------------------------------------- upcoming queue

  predicate IsLaterThan(p: ScheduledPost, now: int) {
    p.at > now
  }

  /** The posts strictly after `now`, in their original order. */
  function LaterPosts(posts: seq<ScheduledPost>, now: int): (r: seq<ScheduledPost>)
    ensures forall p :: p in r <==> p in posts && IsLaterThan(p, now)
  {
    Filter(posts, p => IsLaterThan(p, now))
  }

  /** The sort key of the queue, `new Date(p.scheduledDate).getTime()`. */
  function AtOf(p: ScheduledPost): int {
    p.at
  }

  /**
   * `upcomingPosts`: the later posts, sorted in place by time, earliest first; posts
   * scheduled at the same time keep their original order (the sort is stable).
   */
  method UpcomingPosts(posts: seq<ScheduledPost>, now: int) returns (r: seq<ScheduledPost>)
    ensures multiset(r) == multiset(LaterPosts(posts, now))
    ensures forall p :: p in r ==> p in posts && p.at > now
    ensures forall i, j :: 0 <= i < j < |r| ==> r[i].at <= r[j].at
    ensures forall k :: Sorting.WithKey(r, AtOf, k) == Sorting.WithKey(LaterPosts(posts, now), AtOf, k)
  {
    var later := LaterPosts(posts, now);
    var a := new ScheduledPost[|later|](k requires 0 <= k < |later| => later[k]);
    assert a[..] == later;
    Sorting.SortByKey(a, AtOf);
    r := a[..];
    forall p | p in r ensures p in posts && p.at > now {
      assert p in multiset(r);
      assert p in later;
    }
  }

  /** The queue view lists the first ten upcoming posts. */
  function QueuePosts(upcoming: seq<ScheduledPost>): (r: seq<ScheduledPost>)
    ensures |r| <= 10 && |r| <= |upcoming| && r == upcoming[..|r|]
    ensures |r| == Min(10, |upcoming|)
  {
    Take(upcoming, 10)
  }

  // ---------------------------------------------------------------- queue statistics

  predicate IsScheduled(p: ScheduledPost) {
    p.status == Scheduled
  }

  /** `p.conflicts` is truthy: present, even when empty. */
  predicate HasConflicts(p: ScheduledPost) {
    p.conflicts.Some?
  }

  /** `p.performance` is truthy: present and not zero. */
  predicate HasPerformance(p: ScheduledPost) {
    p.performance.Some? && p.performance.value != 0
  }

  /** The "Scheduled" header count: the posts whose status is scheduled. */
  function ScheduledCount(posts: seq<ScheduledPost>): (r: nat)
    ensures r <= |posts|
    ensures r == 0 <==> forall p :: p in posts ==> !IsScheduled(p)
  {
    var kept := Filter(posts, IsScheduled);
    if kept != [] then
      assert kept[0] in kept;
      |kept|
    else 0
  }

  /** The "Conflicts" header count: the posts with a conflicts list. */
  function ConflictCount(posts: seq<ScheduledPost>): (r: nat)
    ensures r <= |posts|
    ensures r == 0 <==> forall p :: p in posts ==> !HasConflicts(p)
  {
    var kept := Filter(posts, HasConflicts);
    if kept != [] then
      assert kept[0] in kept;
      |kept|
    else 0
  }

  /** `acc + (p.performance || 0)` over a list. */
  function PerformanceSum(posts: seq<ScheduledPost>): int {
    if posts == [] then 0 else PerformanceSum(posts[..|posts| - 1]) + posts[|posts| - 1].performance.GetOr(0)
  }

  /**
   * The average performance: `Math.round(sum / count)` over the posts with a truthy
   * performance; `None` where the page would show `NaN`.
   */
  function AveragePerformance(posts: seq<ScheduledPost>): (r: Option<int>)
    ensures r.None? <==> Filter(posts, HasPerformance) == []
    ensures r.Some? ==>
      var n := |Filter(posts, HasPerformance)|;
      2 * n * r.value - n <= 2 * PerformanceSum(Filter(posts, HasPerformance)) < 2 * n * r.value + n
  {
    var rated := Filter(posts, HasPerformance);
    if rated == [] then None else Some(RoundDiv(PerformanceSum(rated), |rated|))
  }

  lemma {:induction false} PerformanceSumBounds(posts: seq<ScheduledPost>, lo: int, hi: int)
    requires forall p :: p in posts ==> lo <= p.performance.GetOr(0) <= hi
    ensures lo * |posts| <= PerformanceSum(posts) <= hi * |posts|
  {
    if posts != [] {
      var n := |posts| - 1;
      PerformanceSumBounds(posts[..n], lo, hi);
      assert posts[n] in posts;
      MulSucc(lo, n);
      MulSucc(hi, n);
    }
  }

  /** When every rated post scores within lo..hi, so does the average. */
  lemma AverageWithinBounds(posts: seq<ScheduledPost>, lo: int, hi: int)
    requires forall p :: p in posts && HasPerformance(p) ==> lo <= p.performance.value <= hi
    ensures AveragePerformance(posts).Some? ==> lo <= AveragePerformance(posts).value <= hi
  {
    var rated := Filter(posts, HasPerformance);
    if rated != [] {
      PerformanceSumBounds(rated, lo, hi);
      RoundDivWithin(PerformanceSum(rated), |rated|, lo, hi);
    }
  }

  /** A post without a (non-zero) performance does not move the average. */
  lemma AverageIgnoresUnrated(posts: seq<ScheduledPost>, p: ScheduledPost)
    requires !HasPerformance(p)
    ensures AveragePerformance(posts + [p]) == AveragePerformance(posts)
  {
    FilterAppend(posts, [p], HasPerformance);
    assert Filter([p], HasPerformance) == [];
    assert Filter(posts + [p], HasPerformance) == Filter(posts, HasPerformance);
  }

  /** Generated post k is scheduled iff 4 divides k, and has conflicts iff 8 divides k. */
  lemma GeneratedPostKinds(draws: seq<int>)
    requires |draws| == GeneratedCount && forall k :: 0 <= k < |draws| ==> 0 <= draws[k] < 35
    ensures forall k :: 0 <= k < GeneratedCount ==>
      (IsScheduled(GeneratedPosts(draws)[k]) <==> k % 4 == 0) && (HasConflicts(GeneratedPosts(draws)[k]) <==> k % 8 == 0)
  {
    forall k | 0 <= k < GeneratedCount
      ensures (IsScheduled(GeneratedPosts(draws)[k]) <==> k % 4 == 0) && (HasConflicts(GeneratedPosts(draws)[k]) <==> k % 8 == 0)
    {
      FixturePostKinds(k, draws[k]);
    }
  }

  lemma FixturePostKinds(i: nat, draw: int)
    requires 0 <= draw < 35
    ensures IsScheduled(FixturePost(i, draw)) <==> i % 4 == 0
    ensures HasConflicts(FixturePost(i, draw)) <==> i % 8 == 0
  {
    FixturePostFields(i, draw);
  }

  /**
   * In a list where post k is scheduled iff k % 4 == 0, the first n posts hold ceil(n / 4)
   * scheduled ones: the count c with 4c - 3 <= n <= 4c.
   */
  lemma {:induction false} CountScheduledByIndex(g: seq<ScheduledPost>, n: nat)
    requires n <= |g|
    requires forall k :: 0 <= k < |g| ==> (IsScheduled(g[k]) <==> k % 4 == 0)
    ensures var c := |Filter(g[..n], IsScheduled)|; 4 * c - 3 <= n <= 4 * c
  {
    if n > 0 {
      CountScheduledByIndex(g, n - 1);
      assert g[..n] == g[..n - 1] + [g[n - 1]];
      FilterSnocLength(g[..n - 1], g[n - 1], IsScheduled);
      QuarterStep(n - 1, |Filter(g[..n - 1], IsScheduled)|);
    }
  }

  /** Within a ceil(n / 4) bound, 4 divides n exactly at the top of the bound. */
  lemma QuarterStep(n: nat, c: int)
    requires 4 * c - 3 <= n <= 4 * c
    ensures n % 4 == 0 <==> n == 4 * c
  {
    assert n == 4 * (n / 4) + n % 4;
  }

  /**
   * In a list where post k has conflicts iff k % 8 == 0, the first n posts hold ceil(n / 8)
   * such posts: the count c with 8c - 7 <= n <= 8c.
   */
  lemma {:induction false} CountConflictsByIndex(g: seq<ScheduledPost>, n: nat)
    requires n <= |g|
    requires forall k :: 0 <= k < |g| ==> (HasConflicts(g[k]) <==> k % 8 == 0)
    ensures var c := |Filter(g[..n], HasConflicts)|; 8 * c - 7 <= n <= 8 * c
  {
    if n > 0 {
      CountConflictsByIndex(g, n - 1);
      assert g[..n] == g[..n - 1] + [g[n - 1]];
      FilterSnocLength(g[..n - 1], g[n - 1], HasConflicts);
      EighthStep(n - 1, |Filter(g[..n - 1], HasConflicts)|);
    }
  }

  /** Within a ceil(n / 8) bound, 8 divides n exactly at the top of the bound. */
  lemma EighthStep(n: nat, c: int)
    requires 8 * c - 7 <= n <= 8 * c
    ensures n % 8 == 0 <==> n == 8 * c
  {
    assert n == 8 * (n / 8) + n % 8;
  }

  /** Forty-five posts laid out like the generated ones hold 12 scheduled posts and 6 with conflicts. */
  lemma CountsByIndex(g: seq<ScheduledPost>)
    requires |g| == GeneratedCount
    requires forall k :: 0 <= k < |g| ==> (IsScheduled(g[k]) <==> k % 4 == 0) && (HasConflicts(g[k]) <==> k % 8 == 0)
    ensures |Filter(g, IsScheduled)| == 12 && |Filter(g, HasConflicts)| == 6
  {
    CountScheduledByIndex(g, GeneratedCount);
    CountConflictsByIndex(g, GeneratedCount);
    assert g[..GeneratedCount] == g;
  }

  lemma GeneratedCounts(draws: seq<int>)
    requires |draws| == GeneratedCount && forall k :: 0 <= k < |draws| ==> 0 <= draws[k] < 35
    ensures |Filter(GeneratedPosts(draws), IsScheduled)| == 12
    ensures |Filter(GeneratedPosts(draws), HasConflicts)| == 6
  {
    GeneratedPostKinds(draws);
    CountsByIndex(GeneratedPosts(draws));
  }

  /** Five posts whose statuses are those of the hand-written ones hold 3 scheduled posts. */
  lemma ScheduledOfFive(h: seq<ScheduledPost>)
    requires |h| == 5
    requires IsScheduled(h[0]) && IsScheduled(h[1]) && !IsScheduled(h[2]) && !IsScheduled(h[3]) && IsScheduled(h[4])
    ensures |Filter(h, IsScheduled)| == 3
  {
    assert h[..1] == [] + [h[0]];
    assert h[..2] == h[..1] + [h[1]];
    assert h[..3] == h[..2] + [h[2]];
    assert h[..4] == h[..3] + [h[3]];
    assert h == h[..4] + [h[4]];
    FilterSnocLength([], h[0], IsScheduled);
    FilterSnocLength(h[..1], h[1], IsScheduled);
    FilterSnocLength(h[..2], h[2], IsScheduled);
    FilterSnocLength(h[..3], h[3], IsScheduled);
    FilterSnocLength(h[..4], h[4], IsScheduled);
  }

  /** Five posts whose conflicts are those of the hand-written ones hold 1 post with conflicts. */
  lemma ConflictsOfFive(h: seq<ScheduledPost>)
    requires |h| == 5
    requires !HasConflicts(h[0]) && !HasConflicts(h[1]) && !HasConflicts(h[2]) && HasConflicts(h[3]) && !HasConflicts(h[4])
    ensures |Filter(h, HasConflicts)| == 1
  {
    assert h[..1] == [] + [h[0]];
    assert h[..2] == h[..1] + [h[1]];
    assert h[..3] == h[..2] + [h[2]];
    assert h[..4] == h[..3] + [h[3]];
    assert h == h[..4] + [h[4]];
    FilterSnocLength([], h[0], HasConflicts);
    FilterSnocLength(h[..1], h[1], HasConflicts);
    FilterSnocLength(h[..2], h[2], HasConflicts);
    FilterSnocLength(h[..3], h[3], HasConflicts);
    FilterSnocLength(h[..4], h[4], HasConflicts);
  }

  lemma HandWrittenCounts()
    ensures |Filter(HandWrittenPosts, IsScheduled)| == 3
    ensures |Filter(HandWrittenPosts, HasConflicts)| == 1
  {
    ScheduledOfFive(HandWrittenPosts);
    ConflictsOfFive(HandWrittenPosts);
  }

  /** The queue statistics of the whole fixture: 15 scheduled posts and 7 with conflicts. */
  lemma FixtureCounts(draws: seq<int>)
    requires |draws| == GeneratedCount && forall k :: 0 <= k < |draws| ==> 0 <= draws[k] < 35
    ensures ScheduledCount(ScheduledPosts(draws)) == 15
    ensures ConflictCount(ScheduledPosts(draws)) == 7
  {
    GeneratedCounts(draws);
    HandWrittenCounts();
    FilterAppend(HandWrittenPosts, GeneratedPosts(draws), IsScheduled);
    FilterAppend(HandWrittenPosts, GeneratedPosts(draws), HasConflicts);
  }

  // ---------------------------------------------------------------- page state

  class SchedulerState {
    var selectedDate: Date
    /** The id of the post being dragged, `null` when none. */
    var draggedPost: Option<int>

    constructor (today: Date)
      ensures selectedDate == today && draggedPost == None
    {
      selectedDate := today;
      draggedPost := None;
    }

    /** The left arrow: the first day of the previous month. */
    method PreviousMonth()
      modifies this`selectedDate
      ensures var (y, m) := ShiftMonth(old(selectedDate.year), old(selectedDate.month), -1);
        selectedDate == Date(y, m, 1)
    {
      var (y, m) := ShiftMonth(selectedDate.year, selectedDate.month, -1);
      selectedDate := Date(y, m, 1);
    }

    /** The right arrow: the first day of the next month. */
    method NextMonth()
      modifies this`selectedDate
      ensures var (y, m) := ShiftMonth(old(selectedDate.year), old(selectedDate.month), 1);
        selectedDate == Date(y, m, 1)
    {
      var (y, m) := ShiftMonth(selectedDate.year, selectedDate.month, 1);
      selectedDate := Date(y, m, 1);
    }

    /** Clicking a day cell, or "Today" with today's date. */
    method SelectDate(d: Date)
      modifies this`selectedDate
      ensures selectedDate == d
    {
      selectedDate := d;
    }

    method HandleDragStart(postId: int)
      modifies this`draggedPost
      ensures draggedPost == Some(postId)
    {
      draggedPost := Some(postId);
    }

    /** A drop consumes the dragged id when it is truthy (present and not 0); otherwise nothing happens. */
    method HandleDrop(target: Date)
      modifies this`draggedPost
      ensures old(draggedPost).Some? && old(draggedPost).value != 0 ==> draggedPost == None
      ensures !(old(draggedPost).Some? && old(draggedPost).value != 0) ==> draggedPost == old(draggedPost)
    {
      if draggedPost.Some? && draggedPost.value != 0 {
        draggedPost := None;
      }
    }
  }
}
