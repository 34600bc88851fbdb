/**
 * The "Generate posts" flow: sitemap URL check, category choice, the simulated
 * four-phase processing run with its step list and progress, the mock results,
 * their success rate, the remaining-time readout and the reset.
 */
module GeneratePage {
  import opened Wrappers
  import opened Numbers
  import opened Lists
  import opened Text

  // ---------------------------------------------------------------- URL and categories

  /** `isValidUrl`; `parses` says whether `new URL(url)` accepts the string. */
  function IsValidUrl(url: string, parses: bool): (r: bool)
    ensures r ==> parses
    ensures !Contains(url, "sitemap") && !Contains(url, "xml") ==> !r
  {
    parses && (Contains(url, "sitemap") || Contains(url, "xml"))
  }

  /** The three sample sitemap buttons fill in URLs that pass the check whenever they parse. */
  lemma SampleSitemapsAccepted()
    ensures IsValidUrl("https://example-blog.com/sitemap.xml", true)
    ensures IsValidUrl("https://tech-news.com/sitemap_index.xml", true)
    ensures IsValidUrl("https://lifestyle-blog.net/sitemap.xml", true)
  {
    assert OccursAt("https://example-blog.com/sitemap.xml", "xml", 33);
    assert OccursAt("https://tech-news.com/sitemap_index.xml", "xml", 36);
    assert OccursAt("https://lifestyle-blog.net/sitemap.xml", "xml", 35);
  }

  /** `toggleCategory`: add the category if absent, drop every copy if present. */
  function ToggleCategory(selected: seq<string>, category: string): (r: seq<string>)
    ensures category in r <==> category !in selected
    ensures forall c :: c != category ==> (c in r <==> c in selected)
  {
    Toggle(selected, category)
  }

  /**
   * Toggling the same category twice gives back the same choice: the same list when it
   * was absent, the same categories (with it moved last) when it was present.
   */
  lemma ToggleCategoryTwice(selected: seq<string>, category: string)
    ensures category !in selected ==> ToggleCategory(ToggleCategory(selected, category), category) == selected
    ensures forall c :: c in ToggleCategory(ToggleCategory(selected, category), category) <==> c in selected
  {
    if category in selected {
      ToggleTwicePresent(selected, category);
    } else {
      ToggleTwiceAbsent(selected, category);
    }
  }

  // ---------------------------------------------------------------- mock results

  datatype PostStatus = Success | Failure

  datatype GeneratedPost = GeneratedPost(
    id: int, title: string, description: string, image: string, url: string,
    category: string, status: PostStatus)

  const MockTitles: seq<string> := [
    "10 Essential Tips for Better Pinterest Marketing",
    "How to Create Viral Pinterest Content in 2024",
    "Pinterest SEO: Complete Guide for Bloggers",
    "Design Trends That Will Dominate Pinterest This Year",
    "The Psychology Behind Pinterest User Behavior",
    "Pinterest Analytics: What Metrics Actually Matter",
    "Creating Seasonal Content That Performs",
    "Pinterest vs Instagram: Which Platform is Better?",
    "Advanced Pinterest Automation Strategies",
    "Building a Pinterest Community: Best Practices"]
  const MockCategories: seq<string> := ["Tutorials", "Marketing", "SEO", "Design", "Analytics"]
  const PostUrlPrefix := "https://example.com/post-"
  /** The text around the lower-cased title in a mock post's description. */
  const DescriptionLead := "A comprehensive guide covering all aspects of "
  const DescriptionTail := ". Perfect for beginners and advanced users alike."

  /** Mock post number i; `succeeded` is the outcome of `Math.random() > 0.1`. */
  function MockPost(i: nat, succeeded: bool): GeneratedPost {
    var title := MockTitles[i % 10];
    GeneratedPost(
      i + 1, title,
      DescriptionLead + ToLower(title) + DescriptionTail,
      "/placeholder-" + NatToString(i % 5 + 1) + ".jpg",
      PostUrlPrefix + NatToString(i + 1),
      MockCategories[i % 5],
      if succeeded then Success else Failure)
  }

  /** `generateMockPosts(count)`, given the outcome of each post's draw. */
  function GenerateMockPosts(count: nat, outcomes: seq<bool>): (r: seq<GeneratedPost>)
    requires |outcomes| == count
    ensures |r| == count
    ensures forall i :: 0 <= i < count ==> r[i] == MockPost(i, outcomes[i])
  {
    seq(count, i requires 0 <= i < count => MockPost(i, outcomes[i]))
  }

  /** Post i has id i + 1, cycles through 10 titles, 5 categories and 5 images, and its URL ends in i + 1. */
  lemma MockPostFields(count: nat, outcomes: seq<bool>, i: nat)
    requires |outcomes| == count && i < count
    ensures GenerateMockPosts(count, outcomes)[i].id == i + 1
    ensures GenerateMockPosts(count, outcomes)[i].title == MockTitles[i % 10]
    ensures GenerateMockPosts(count, outcomes)[i].category == MockCategories[i % 5]
    ensures GenerateMockPosts(count, outcomes)[i].image == "/placeholder-" + NatToString(i % 5 + 1) + ".jpg"
    ensures GenerateMockPosts(count, outcomes)[i].status == Success <==> outcomes[i]
  {
  }

  /** The ids are 1..count, so no two posts share one, and each URL gives back its post's id. */
  lemma MockPostIdsAndUrls(count: nat, outcomes: seq<bool>)
    requires |outcomes| == count
    ensures forall i, j :: 0 <= i < j < count ==>
      GenerateMockPosts(count, outcomes)[i].id != GenerateMockPosts(count, outcomes)[j].id
    ensures forall i :: 0 <= i < count ==>
      var url := GenerateMockPosts(count, outcomes)[i].url;
      |PostUrlPrefix| <= |url| && url[..|PostUrlPrefix|] == PostUrlPrefix
      && ParseNat(url[|PostUrlPrefix|..]) == GenerateMockPosts(count, outcomes)[i].id
  {
    var r := GenerateMockPosts(count, outcomes);
    forall i | 0 <= i < count
      ensures |PostUrlPrefix| <= |r[i].url| && r[i].url[..|PostUrlPrefix|] == PostUrlPrefix
      ensures ParseNat(r[i].url[|PostUrlPrefix|..]) == r[i].id
    {
      assert r[i].url[|PostUrlPrefix|..] == NatToString(i + 1);
      NatToStringRoundTrip(i + 1);
    }
  }

  predicate IsSuccess(p: GeneratedPost) {
    p.status == Success
  }

  /** `successRate`: 0 for no posts, else the rounded percentage of successful ones. */
  function SuccessRate(posts: seq<GeneratedPost>): (r: int)
    ensures 0 <= r <= 100
    ensures posts == [] ==> r == 0
    ensures posts != [] ==>
      2 * |posts| * r - |posts| <= 2 * 100 * |Filter(posts, IsSuccess)| < 2 * |posts| * r + |posts|
  {
    if |posts| > 0 then
      var successes := |Filter(posts, IsSuccess)|;
      RoundDivWithin(100 * successes, |posts|, 0, 100);
      RoundDiv(100 * successes, |posts|)
    else 0
  }

  /** All successful gives 100, none successful gives 0. */
  lemma SuccessRateExtremes(posts: seq<GeneratedPost>)
    requires posts != []
    ensures (forall p :: p in posts ==> IsSuccess(p)) ==> SuccessRate(posts) == 100
    ensures (forall p :: p in posts ==> !IsSuccess(p)) ==> SuccessRate(posts) == 0
  {
    if forall p :: p in posts ==> IsSuccess(p) {
      FilterAll(posts, IsSuccess);
      RoundDivWithin(100 * |posts|, |posts|, 100, 100);
    }
    if forall p :: p in posts ==> !IsSuccess(p) {
      FilterNone(posts, IsSuccess);
      RoundDivWithin(0, |posts|, 0, 0);
    }
  }

  // ---------------------------------------------------------------- remaining time

  /** `Math.max(0, Math.ceil(estimatedTime - progress * estimatedTime / 100))`, in seconds. */
  function RemainingTime(estimatedTime: int, progress: int): (r: int)
    ensures r >= 0
    ensures r == 0 || 100 * (r - 1) < 100 * estimatedTime - progress * estimatedTime <= 100 * r
    ensures 100 * estimatedTime - progress * estimatedTime > 0 ==> r > 0
  {
    RemainingAfter(estimatedTime, progress * estimatedTime)
  }

  /** The readout once `elapsed / 100` of the estimate has passed: the ceiling of what is left, at least 0. */
  function RemainingAfter(estimatedTime: int, elapsed: int): (r: int)
    ensures r >= 0
    ensures r == 0 || 100 * (r - 1) < 100 * estimatedTime - elapsed <= 100 * r
    ensures 100 * estimatedTime - elapsed > 0 ==> r > 0
  {
    Max(0, estimatedTime - elapsed / 100)
  }

  /** The readout starts at the estimate, reaches 0 at 100 % and never goes up as progress grows. */
  lemma RemainingTimeCountsDown(estimatedTime: nat, p: int, q: int)
    requires 0 <= p <= q
    ensures RemainingTime(estimatedTime, 0) == estimatedTime
    ensures RemainingTime(estimatedTime, 100) == 0
    ensures RemainingTime(estimatedTime, q) <= RemainingTime(estimatedTime, p)
  {
    assert RemainingTime(estimatedTime, 0) == RemainingAfter(estimatedTime, 0);
    assert RemainingTime(estimatedTime, 100) == RemainingAfter(estimatedTime, 100 * estimatedTime);
    if estimatedTime > 0 {
      MulMonotone(estimatedTime, p, q);
      RemainingAfterMonotone(estimatedTime, p * estimatedTime, q * estimatedTime);
    }
  }

  lemma RemainingAfterMonotone(estimatedTime: int, done1: int, done2: int)
    requires done1 <= done2
    ensures RemainingAfter(estimatedTime, done2) <= RemainingAfter(estimatedTime, done1)
  {
  }

  // ---------------------------------------------------------------- processing steps

  datatype StepId = Analyze | Extract | GenerateContent | Images
  datatype StepStatus = Pending | Processing | Completed | StepFailed
  datatype Step = Step(id: StepId, name: string, status: StepStatus, progress: int)

  const StepOrder: seq<StepId> := [Analyze, Extract, GenerateContent, Images]
  const InitialSteps: seq<Step> := [
    Step(Analyze, "Analyzing sitemap...", Pending, 0),
    Step(Extract, "Extracting articles...", Pending, 0),
    Step(GenerateContent, "Generating content...", Pending, 0),
    Step(Images, "Creating images...", Pending, 0)]
  /** The progress increment of each phase's loop. */
  const StepIncrements: seq<nat> := [10, 15, 8, 12]

  /**
   * `prev.map(step => step.id === id ? { ...step, ...changes } : step)`: the matching steps
   * take the given status and/or progress, every other step is left as it was.
   */
  function UpdateStep(steps: seq<Step>, id: StepId, status: Option<StepStatus>, progress: Option<int>): (r: seq<Step>)
    ensures |r| == |steps|
    ensures forall k :: 0 <= k < |steps| && steps[k].id != id ==> r[k] == steps[k]
    ensures forall k :: 0 <= k < |steps| && steps[k].id == id ==>
      r[k] == Step(id, steps[k].name, status.GetOr(steps[k].status), progress.GetOr(steps[k].progress))
  {
    seq(|steps|, k requires 0 <= k < |steps| =>
      if steps[k].id == id then steps[k].(status := status.GetOr(steps[k].status), progress := progress.GetOr(steps[k].progress))
      else steps[k])
  }

  /** `prev.map(step => ({ ...step, status: 'pending', progress: 0 }))`. */
  function ResetSteps(steps: seq<Step>): (r: seq<Step>)
    ensures |r| == |steps|
    ensures forall k :: 0 <= k < |steps| ==> r[k] == Step(steps[k].id, steps[k].name, Pending, 0)
  {
    seq(|steps|, k requires 0 <= k < |steps| => steps[k].(status := Pending, progress := 0))
  }

  /** The four steps, in their fixed order and with their fixed names. */
  predicate Shaped(steps: seq<Step>) {
    |steps| == 4 && forall k :: 0 <= k < 4 ==> steps[k].id == InitialSteps[k].id && steps[k].name == InitialSteps[k].name
  }

  /** The first `done` steps are completed at 100, the rest pending at 0. */
  predicate StepsAt(steps: seq<Step>, done: nat) {
    && Shaped(steps)
    && (forall k :: 0 <= k < 4 && k < done ==> steps[k].status == Completed && steps[k].progress == 100)
    && (forall k :: 0 <= k < 4 && done <= k ==> steps[k].status == Pending && steps[k].progress == 0)
  }

  /** With the ids in their fixed order, updating by id is updating one position. */
  lemma UpdateStepAt(steps: seq<Step>, k: nat, status: Option<StepStatus>, progress: Option<int>)
    requires Shaped(steps) && k < 4
    ensures UpdateStep(steps, StepOrder[k], status, progress)
      == steps[k := steps[k].(status := status.GetOr(steps[k].status), progress := progress.GetOr(steps[k].progress))]
  {
  }

  /** The values one phase loop gives its counter: `i`, `i + d`, … while not above 100. */
  function Ticks(i: int, d: nat): seq<int>
    requires d > 0
    decreases 101 - i
  {
    if i > 100 then [] else [i] + Ticks(i + d, d)
  }

  /** The last value shown, 0 before the first. */
  function Last(shown: seq<int>): int {
    if shown == [] then 0 else shown[|shown| - 1]
  }

  /** The steps while step k is processing at progress p. */
  function InProgress(steps: seq<Step>, k: nat, p: int): seq<Step>
    requires k < |steps|
  {
    steps[k := steps[k].(status := Processing, progress := p)]
  }

  /** The loop body's update by id moves the processing step to the next value. */
  lemma NextTick(base: seq<Step>, k: nat, p: int, i: int)
    requires Shaped(base) && k < 4
    ensures UpdateStep(InProgress(base, k, p), StepOrder[k], None, Some(i)) == InProgress(base, k, i)
  {
    var steps := InProgress(base, k, p);
    assert Shaped(steps);
    UpdateStepAt(steps, k, None, Some(i));
    assert steps[k := steps[k].(progress := i)] == InProgress(base, k, i);
  }

  /** Recording the step list for one more shown value keeps the trace in step with the values. */
  lemma TraceExtends(trace: seq<seq<Step>>, shown: seq<int>, base: seq<Step>, k: nat, i: int)
    requires k < |base| && |trace| == |shown|
    requires forall j :: 0 <= j < |shown| ==> trace[j] == InProgress(base, k, shown[j])
    ensures forall j :: 0 <= j < |shown| + 1 ==>
      (trace + [InProgress(base, k, i)])[j] == InProgress(base, k, (shown + [i])[j])
  {
  }

  /** One more value of the counter moves from the remaining ticks to the shown ones. */
  lemma TicksUnfold(shown: seq<int>, i: int, d: nat)
    requires d > 0 && i <= 100
    ensures (shown + [i]) + Ticks(i + d, d) == shown + Ticks(i, d)
    ensures Last(shown + [i]) == i
  {
  }

  /** A phase's progress goes up by d from its start, stays within 0..100, and stops less than d short of 100. */
  lemma {:induction false} TicksShape(i: int, d: nat)
    requires d > 0 && 0 <= i
    ensures forall k :: 0 <= k < |Ticks(i, d)| ==> Ticks(i, d)[k] == i + k * d && 0 <= Ticks(i, d)[k] <= 100
    ensures i <= 100 ==> |Ticks(i, d)| > 0 && Ticks(i, d)[|Ticks(i, d)| - 1] + d > 100
    decreases 101 - i
  {
    if i <= 100 {
      TicksShape(i + d, d);
      var t := Ticks(i, d);
      forall k | 0 < k < |t| ensures t[k] == i + k * d {
        assert t[k] == Ticks(i + d, d)[k - 1];
        assert i + d + (k - 1) * d == i + k * d;
      }
    }
  }

  /** The four phases show 11, 7, 13 and 9 values and end at 100, 90, 96 and 96 before jumping to 100. */
  lemma PhaseTickCounts()
    ensures |Ticks(0, 10)| == 11 && Ticks(0, 10)[10] == 100
    ensures |Ticks(0, 15)| == 7 && Ticks(0, 15)[6] == 90
    ensures |Ticks(0, 8)| == 13 && Ticks(0, 8)[12] == 96
    ensures |Ticks(0, 12)| == 9 && Ticks(0, 12)[8] == 96
  {
    PhaseTicks(10, 11);
    PhaseTicks(15, 7);
    PhaseTicks(8, 13);
    PhaseTicks(12, 9);
  }

  /** A phase with increment d shows n values, the last (n - 1) * d, when that is the last multiple of d up to 100. */
  lemma PhaseTicks(d: nat, n: nat)
    requires (d, n) in {(10, 11), (15, 7), (8, 13), (12, 9)}
    ensures |Ticks(0, d)| == n && Ticks(0, d)[n - 1] == (n - 1) * d
  {
    TicksShape(0, d);
    var t := Ticks(0, d);
    var m := |t|;
    assert t[m - 1] == (m - 1) * d;
  }

  /**
   * Only the first phase drives the overall bar, and it ends at 100: for the three
   * remaining phases the panel shows 100 % and 0 s remaining.
   */
  lemma OverallProgressFullAfterFirstPhase()
    ensures Ticks(0, StepIncrements[0])[|Ticks(0, StepIncrements[0])| - 1] == 100
    ensures RemainingTime(120, 100) == 0
  {
    PhaseTickCounts();
  }

  // ---------------------------------------------------------------- page state

  class Generator {
    var sitemapUrl: string
    var isGenerating: bool
    var isAnalyzing: bool
    var progress: int
    var estimatedTime: int
    var generatedPosts: seq<GeneratedPost>
    var showResults: bool
    var postCount: nat
    var selectedCategories: seq<string>
    var processingSteps: seq<Step>

    ghost predicate Valid()
      reads this
    {
      Shaped(processingSteps) && 5 <= postCount <= 100
    }

    /** The page opens idle, with 20 posts requested and every step pending. */
    constructor ()
      ensures Valid() && StepsAt(processingSteps, 0)
      ensures sitemapUrl == "" && !isGenerating && !isAnalyzing && !showResults
      ensures progress == 0 && estimatedTime == 0 && generatedPosts == []
      ensures postCount == 20 && selectedCategories == []
    {
      sitemapUrl := "";
      isGenerating := false;
      isAnalyzing := false;
      progress := 0;
      estimatedTime := 0;
      generatedPosts := [];
      showResults := false;
      postCount := 20;
      selectedCategories := [];
      processingSteps := InitialSteps;
    }

    method SetSitemapUrl(url: string)
      modifies this`sitemapUrl
      ensures sitemapUrl == url
    {
      sitemapUrl := url;
    }

    /** The range input yields a count between 5 and 100. */
    method SetPostCount(count: nat)
      requires Valid() && 5 <= count <= 100
      modifies this`postCount
      ensures Valid() && postCount == count
    {
      postCount := count;
    }

    method ToggleCategoryChoice(category: string)
      modifies this`selectedCategories
      ensures selectedCategories == ToggleCategory(old(selectedCategories), category)
    {
      selectedCategories := ToggleCategory(selectedCategories, category);
    }

    /**
     * One phase: mark step k processing, write each counter value to its progress (and to
     * the overall progress when `overall`), then mark it completed at 100. Returns the
     * values the step's progress took and, as `trace`, the step list each of them produced.
     */
    method RunStep(k: nat, d: nat, overall: bool) returns (shown: seq<int>, ghost trace: seq<seq<Step>>)
      requires StepsAt(processingSteps, k) && k < 4 && d > 0
      modifies this`processingSteps, this`progress
      ensures StepsAt(processingSteps, k + 1)
      ensures shown == Ticks(0, d)
      ensures |trace| == |shown|
      ensures forall j :: 0 <= j < |shown| ==> trace[j] == InProgress(old(processingSteps), k, shown[j])
      ensures overall ==> progress == Last(shown)
      ensures !overall ==> progress == old(progress)
    {
      var base := processingSteps;
      UpdateStepAt(processingSteps, k, Some(Processing), None);
      processingSteps := UpdateStep(processingSteps, StepOrder[k], Some(Processing), None);
      shown := [];
      trace := [];
      var i := 0;
      while i <= 100
        invariant 0 <= i
        invariant shown + Ticks(i, d) == Ticks(0, d)
        invariant processingSteps == InProgress(base, k, Last(shown))
        invariant |trace| == |shown|
        invariant forall j :: 0 <= j < |shown| ==> trace[j] == InProgress(base, k, shown[j])
        invariant overall && shown != [] ==> progress == Last(shown)
        invariant !(overall && shown != []) ==> progress == old(progress)
        decreases 101 - i
      {
        if overall {
          progress := i;
        }
        NextTick(base, k, Last(shown), i);
        processingSteps := UpdateStep(processingSteps, StepOrder[k], None, Some(i));
        TicksUnfold(shown, i, d);
        TraceExtends(trace, shown, base, k, i);
        shown := shown + [i];
        trace := trace + [processingSteps];
        i := i + d;
      }
      assert Ticks(i, d) == [];
      TicksShape(0, d);
      UpdateStepAt(processingSteps, k, Some(Completed), Some(100));
      processingSteps := UpdateStep(processingSteps, StepOrder[k], Some(Completed), Some(100));
    }

    /**
     * `simulateProcessing`, with the delays dropped: reset, run the four phases in order,
     * then publish `postCount` mock posts. `outcomes` are the posts' random draws.
     */
    method SimulateProcessing(outcomes: seq<bool>)
      requires Valid() && |outcomes| == postCount
      modifies this`isGenerating, this`progress, this`estimatedTime, this`processingSteps,
        this`generatedPosts, this`showResults
      ensures Valid() && StepsAt(processingSteps, 4)
      ensures !isGenerating && showResults && progress == 100 && estimatedTime == 120
      ensures generatedPosts == GenerateMockPosts(postCount, outcomes) && |generatedPosts| == postCount
    {
      isGenerating := true;
      progress := 0;
      estimatedTime := 120;
      processingSteps := ResetSteps(processingSteps);
      var k := 0;
      while k < 4
        invariant k <= 4 && StepsAt(processingSteps, k)
        invariant isGenerating && estimatedTime == 120 && postCount == old(postCount)
      {
        var shown, trace := RunStep(k, StepIncrements[k], k == 0);
        k := k + 1;
      }
      generatedPosts := GenerateMockPosts(postCount, outcomes);
      isGenerating := false;
      showResults := true;
      progress := 100;
    }

    /** The Generate button: nothing happens unless the URL passes the check. */
    method HandleGenerate(parses: bool, outcomes: seq<bool>)
      requires Valid() && |outcomes| == postCount
      modifies this`isGenerating, this`progress, this`estimatedTime, this`processingSteps,
        this`generatedPosts, this`showResults
      ensures Valid()
      ensures !IsValidUrl(sitemapUrl, parses) ==>
        isGenerating == old(isGenerating) && progress == old(progress) && estimatedTime == old(estimatedTime)
        && processingSteps == old(processingSteps) && generatedPosts == old(generatedPosts)
        && showResults == old(showResults)
      ensures IsValidUrl(sitemapUrl, parses) ==>
        StepsAt(processingSteps, 4) && !isGenerating && showResults && progress == 100
        && generatedPosts == GenerateMockPosts(postCount, outcomes)
    {
      if !IsValidUrl(sitemapUrl, parses) {
        return;
      }
      SimulateProcessing(outcomes);
    }

    /** The Analyze button: nothing happens unless the URL passes; otherwise analysing starts and, after the delay, ends. */
    method HandleAnalyze(parses: bool)
      modifies this`isAnalyzing
      ensures !IsValidUrl(sitemapUrl, parses) ==> isAnalyzing == old(isAnalyzing)
      ensures IsValidUrl(sitemapUrl, parses) ==> !isAnalyzing
    {
      if !IsValidUrl(sitemapUrl, parses) {
        return;
      }
      isAnalyzing := true;
      isAnalyzing := false;
    }

    /** `resetProcess` (Cancel and "Generate more"): idle, no results, zero progress, every step pending. */
    method ResetProcess()
      requires Valid()
      modifies this`isGenerating, this`showResults, this`generatedPosts, this`progress,
        this`estimatedTime, this`processingSteps
      ensures Valid() && StepsAt(processingSteps, 0)
      ensures !isGenerating && !showResults && generatedPosts == [] && progress == 0 && estimatedTime == 0
    {
      isGenerating := false;
      showResults := false;
      generatedPosts := [];
      progress := 0;
      estimatedTime := 0;
      processingSteps := ResetSteps(processingSteps);
    }
  }
}
