/**
 * The post editor modal: form fields, the length-based SEO score, the bounded
 * duplicate-free tag list, and the records handed to `onSave` when the post is
 * saved or duplicated.
 */
module PostEditor {
  import opened Wrappers
  import opened Numbers
  import opened Lists
  import opened Text

  datatype Status = Draft | Scheduled | Published

  /** The `post` prop (the optional analytics fields are copied through untouched and not modelled). */
  datatype Post = Post(
    id: int,
    title: string,
    description: string,
    image: string,
    status: Status,
    category: string,
    sourceUrl: string,
    scheduledDate: Option<string>)

  /** The three save buttons. */
  datatype SaveAction = SaveDraft | SaveSchedule | SavePublish

  /** What `handleSave` passes to `onSave`: the post with the edited fields, plus the tag list. */
  datatype SavedPost = SavedPost(post: Post, tags: seq<string>)

  datatype ScoreBand = Excellent | Good | NeedsWork

  const TitleLimit := 100
  const DescriptionLimit := 500
  const MaxTags := 10
  const DefaultScheduleTime := "14:00"
  const CopySuffix := " (Copy)"

  // ---------------------------------------------------------------- SEO score

  // Lengths are JavaScript's `length`: UTF-16 code units, not characters.
  predicate TitleLengthGood(title: string) { 20 <= Utf16Length(title) <= 60 }
  predicate DescriptionLengthGood(description: string) { 150 <= Utf16Length(description) <= 300 }
  predicate TagCountGood(tagCount: nat) { 3 <= tagCount <= 10 }

  /**
   * The SEO score as the sum of five independent bonuses: 25 for the title length,
   * 25 for the description length, 20 for the tag count, 15 for a category, 15 for a source URL.
   */
  function SeoScore(title: string, description: string, tagCount: nat, category: string, sourceUrl: string): (r: nat)
    ensures r <= 100 && r % 5 == 0
  {
    (if TitleLengthGood(title) then 25 else 0)
    + (if DescriptionLengthGood(description) then 25 else 0)
    + (if TagCountGood(tagCount) then 20 else 0)
    + (if category != "" then 15 else 0)
    + (if sourceUrl != "" then 15 else 0)
  }

  /** The score is 100 exactly when all five criteria hold. */
  lemma PerfectScoreIffAllCriteria(title: string, description: string, tagCount: nat, category: string, sourceUrl: string)
    ensures SeoScore(title, description, tagCount, category, sourceUrl) == 100
        <==> TitleLengthGood(title) && DescriptionLengthGood(description) && TagCountGood(tagCount)
             && category != "" && sourceUrl != ""
  {
  }

  /** The colour band of the score panel. */
  function Band(score: int): (b: ScoreBand)
    ensures b == Excellent <==> score >= 80
    ensures b == NeedsWork <==> score < 60
  {
    if score >= 80 then Excellent else if score >= 60 then Good else NeedsWork
  }

  /**
   * "Excellent" can only be reached with both the title and the description in range;
   * "Good" or better needs at least one of them.
   */
  lemma BandNeedsTitleOrDescription(title: string, description: string, tagCount: nat, category: string, sourceUrl: string)
    ensures Band(SeoScore(title, description, tagCount, category, sourceUrl)) == Excellent
        ==> TitleLengthGood(title) && DescriptionLengthGood(description)
    ensures Band(SeoScore(title, description, tagCount, category, sourceUrl)) != NeedsWork
        ==> TitleLengthGood(title) || DescriptionLengthGood(description)
  {
  }

  /** The "consider shortening your title" hint: longer than 80% of the title limit. */
  predicate TitleNearLimit(title: string) {
    Utf16Length(title) * 10 > TitleLimit * 8
  }

  /** A title that earns the SEO bonus never triggers the length hint. */
  lemma GoodTitleIsNotNearLimit(title: string)
    requires TitleLengthGood(title)
    ensures !TitleNearLimit(title)
  {
  }

  // ---------------------------------------------------------------- tags

  /** The tag list invariant: at most 10 tags, all distinct, each trimmed and non-empty. */
  ghost predicate TagsValid(tags: seq<string>) {
    |tags| <= MaxTags
    && NoDuplicates(tags)
    && forall t :: t in tags ==> t != "" && Trim(t) == t
  }

  /** The guard of `addTag`. */
  predicate CanAddTag(tags: seq<string>, input: string) {
    Trim(input) != "" && Trim(input) !in tags && |tags| < MaxTags
  }

  /** The `disabled` condition of the Add button. */
  predicate AddButtonDisabled(tags: seq<string>, input: string) {
    Trim(input) == "" || |tags| >= MaxTags
  }

  /** An enabled Add button adds the tag unless it is already in the list. */
  lemma AddButtonMatchesGuard(tags: seq<string>, input: string)
    ensures CanAddTag(tags, input) <==> !AddButtonDisabled(tags, input) && Trim(input) !in tags
  {
  }

  /** The tag list after `addTag` with the given input. */
  function TagsAfterAdd(tags: seq<string>, input: string): (r: seq<string>)
    ensures CanAddTag(tags, input) ==> r == tags + [Trim(input)]
    ensures !CanAddTag(tags, input) ==> r == tags
    ensures TagsValid(tags) ==> TagsValid(r)
  {
    if CanAddTag(tags, input) then
      var t := Trim(input);
      TrimIdempotent(input);
      assert forall i :: 0 <= i < |tags| ==> tags[i] in tags;
      tags + [t]
    else tags
  }

  /** The tag list after `removeTag(tag)`: every copy of tag gone, the rest in order. */
  function TagsAfterRemove(tags: seq<string>, tag: string): (r: seq<string>)
    ensures tag !in r
    ensures forall t :: t != tag ==> (t in r <==> t in tags)
    ensures IsSubsequence(r, tags)
    ensures TagsValid(tags) ==> TagsValid(r)
  {
    var r := Remove(tags, tag);
    RemoveNoDuplicates(tags, tag);
    r
  }

  // ---------------------------------------------------------------- saving

  function StatusFor(action: SaveAction): Status {
    match action
    case SaveDraft => Draft
    case SaveSchedule => Scheduled
    case SavePublish => Published
  }

  /** The `scheduledDate` a scheduled save stores: `${date}T${time}:00`. */
  function ScheduleString(date: string, time: string): string {
    date + "T" + time + ":00"
  }

  /** The part of a date-time string after its first 'T' (empty when there is none). */
  function TimePart(s: string): (r: string)
    ensures |DatePart(s)| < |s| ==> s == DatePart(s) + "T" + r
  {
    var d := DatePart(s);
    if |d| < |s| then s[|d| + 1..] else []
  }

  /** A schedule built from a 'T'-free date splits back into that date and `${time}:00`. */
  lemma ScheduleStringSplitsBack(date: string, time: string)
    requires 'T' !in date
    ensures DatePart(ScheduleString(date, time)) == date
    ensures TimePart(ScheduleString(date, time)) == time + ":00"
  {
    assert ScheduleString(date, time) == date + "T" + (time + ":00");
    DatePartOfJoin(date, time + ":00");
  }

  /**
   * The date field's initial value: `post.scheduledDate || ""`, which for a scheduled
   * post is a full date-time rather than the `yyyy-mm-dd` a date input holds.
   */
  function InitialScheduleDateAsWritten(post: Post): (r: string)
    ensures post.scheduledDate.Some? ==> r == post.scheduledDate.value
    ensures post.scheduledDate.None? ==> r == ""
    ensures DatePart(r) == InitialScheduleDate(post)
  {
    post.scheduledDate.GetOr("")
  }

  /**
   * The initial value the date field evidently needs: the date part of
   * `post.scheduledDate`, with the time cut off.
   */
  function InitialScheduleDate(post: Post): (r: string)
    ensures 'T' !in r
    ensures r == DatePart(post.scheduledDate.GetOr(""))
  {
    DatePart(post.scheduledDate.GetOr(""))
  }

  /**
   * As written, re-scheduling an unedited scheduled post stored as `date T time0` keeps
   * `time0` in the stored value: its time part is `time0 T 14:00:00`, never the chosen
   * `14:00:00` (for "2024-01-20T14:30:00" it stores "2024-01-20T14:30:00T14:00:00").
   */
  lemma AsWrittenRescheduleKeepsOldTime(post: Post, date: string, time0: string)
    requires 'T' !in date && post.scheduledDate == Some(date + "T" + time0)
    ensures ScheduleString(InitialScheduleDateAsWritten(post), DefaultScheduleTime)
      == date + "T" + time0 + "T" + DefaultScheduleTime + ":00"
    ensures TimePart(ScheduleString(InitialScheduleDateAsWritten(post), DefaultScheduleTime))
      == time0 + "T" + DefaultScheduleTime + ":00"
    ensures TimePart(ScheduleString(InitialScheduleDateAsWritten(post), DefaultScheduleTime))
      != DefaultScheduleTime + ":00"
  {
    var stored := ScheduleString(InitialScheduleDateAsWritten(post), DefaultScheduleTime);
    var rest := time0 + "T" + DefaultScheduleTime + ":00";
    assert stored == date + "T" + rest;
    DatePartOfJoin(date, rest);
  }

  /** With the date part as the initial value, re-scheduling an unedited post keeps its day and takes the chosen time. */
  lemma RescheduleKeepsDay(post: Post)
    ensures DatePart(ScheduleString(InitialScheduleDate(post), DefaultScheduleTime)) == DatePart(post.scheduledDate.GetOr(""))
    ensures TimePart(ScheduleString(InitialScheduleDate(post), DefaultScheduleTime)) == DefaultScheduleTime + ":00"
  {
    ScheduleStringSplitsBack(InitialScheduleDate(post), DefaultScheduleTime);
  }

  // ---------------------------------------------------------------- the editor state

  class Editor {
    const post: Post
    var title: string
    var description: string
    var sourceUrl: string
    var category: string
    var tags: seq<string>
    var newTag: string
    var scheduleDate: string
    var scheduleTime: string
    var hasUnsavedChanges: bool

    ghost predicate Valid()
      reads this
    {
      TagsValid(tags)
    }

    /**
     * The form opens on the post's fields, no tags, an empty tag input, the stored
     * `scheduledDate` (a full date-time for a scheduled post) and 14:00.
     */
    constructor (post: Post)
      ensures Valid()
      ensures this.post == post
      ensures title == post.title && description == post.description
      ensures sourceUrl == post.sourceUrl && category == post.category
      ensures tags == [] && newTag == ""
      ensures scheduleDate == InitialScheduleDateAsWritten(post) && scheduleTime == DefaultScheduleTime
      ensures !hasUnsavedChanges
    {
      this.post := post;
      title := post.title;
      description := post.description;
      sourceUrl := post.sourceUrl;
      category := post.category;
      tags := [];
      newTag := "";
      scheduleDate := InitialScheduleDateAsWritten(post);
      scheduleTime := DefaultScheduleTime;
      hasUnsavedChanges := false;
    }

    /** `calculateSEOScore`: accumulate the bonuses, then cap at 100 (the cap never binds). */
    method CalculateSeoScore() returns (score: int)
      ensures score == SeoScore(title, description, |tags|, category, sourceUrl)
      ensures 0 <= score <= 100 && score % 5 == 0
    {
      score := 0;
      var titleLength, descriptionLength := Utf16Length(title), Utf16Length(description);
      if titleLength >= 20 && titleLength <= 60 { score := score + 25; }
      if descriptionLength >= 150 && descriptionLength <= 300 { score := score + 25; }
      if |tags| >= 3 && |tags| <= 10 { score := score + 20; }
      if category != "" { score := score + 15; }
      if sourceUrl != "" { score := score + 15; }
      score := Min(score, 100);
    }

    /** `addTag`: appends the trimmed input when allowed, then clears the input and marks the form dirty. */
    method AddTag()
      requires Valid()
      modifies this`tags, this`newTag, this`hasUnsavedChanges
      ensures Valid()
      ensures tags == TagsAfterAdd(old(tags), old(newTag))
      ensures CanAddTag(old(tags), old(newTag)) ==> newTag == "" && hasUnsavedChanges
      ensures !CanAddTag(old(tags), old(newTag)) ==> newTag == old(newTag) && hasUnsavedChanges == old(hasUnsavedChanges)
    {
      var t := Trim(newTag);
      if t != "" && t !in tags && |tags| < MaxTags {
        tags := tags + [t];
        newTag := "";
        hasUnsavedChanges := true;
      }
    }

    /** `removeTag`: drops every copy of the tag and marks the form dirty. */
    method RemoveTag(tag: string)
      requires Valid()
      modifies this`tags, this`hasUnsavedChanges
      ensures Valid()
      ensures tags == TagsAfterRemove(old(tags), tag)
      ensures hasUnsavedChanges
    {
      var kept := TagsAfterRemove(tags, tag);
      assert TagsValid(kept);
      tags := kept;
      hasUnsavedChanges := true;
    }

    /** The title, description, source URL and category inputs: store the value, mark the form dirty. */
    method EditTitle(value: string)
      modifies this`title, this`hasUnsavedChanges
      ensures title == value && hasUnsavedChanges
    {
      title := value;
      hasUnsavedChanges := true;
    }

    method EditDescription(value: string)
      modifies this`description, this`hasUnsavedChanges
      ensures description == value && hasUnsavedChanges
    {
      description := value;
      hasUnsavedChanges := true;
    }

    method EditSourceUrl(value: string)
      modifies this`sourceUrl, this`hasUnsavedChanges
      ensures sourceUrl == value && hasUnsavedChanges
    {
      sourceUrl := value;
      hasUnsavedChanges := true;
    }

    method EditCategory(value: string)
      modifies this`category, this`hasUnsavedChanges
      ensures category == value && hasUnsavedChanges
    {
      category := value;
      hasUnsavedChanges := true;
    }

    /** The tag input and the schedule inputs do not mark the form dirty. */
    method EditNewTag(value: string)
      modifies this`newTag
      ensures newTag == value
    {
      newTag := value;
    }

    /** The date input yields `yyyy-mm-dd` or nothing, so never a 'T'. */
    method EditScheduleDate(value: string)
      requires 'T' !in value
      modifies this`scheduleDate
      ensures scheduleDate == value
    {
      scheduleDate := value;
    }

    method EditScheduleTime(value: string)
      modifies this`scheduleTime
      ensures scheduleTime == value
    {
      scheduleTime := value;
    }

    /** `handleSave(action)`: the edited post with the status the action names; a schedule string only when scheduling. */
    function HandleSave(action: SaveAction): (r: SavedPost)
      reads this
      ensures r.post.status == StatusFor(action)
      ensures r.post.scheduledDate.Some? <==> action == SaveSchedule
      ensures action == SaveSchedule ==> r.post.scheduledDate == Some(ScheduleString(scheduleDate, scheduleTime))
      ensures r.post.id == post.id && r.post.image == post.image
      ensures r.post.title == title && r.post.description == description
      ensures r.post.sourceUrl == sourceUrl && r.post.category == category && r.tags == tags
    {
      SavedPost(
        post.(title := title, description := description, sourceUrl := sourceUrl, category := category,
              status := StatusFor(action),
              scheduledDate := if action == SaveSchedule then Some(ScheduleString(scheduleDate, scheduleTime)) else None),
        tags)
    }

    /** `handleDuplicate(now)`: the original post under a new id, the edited title plus " (Copy)", as a draft. */
    function HandleDuplicate(now: int): (r: Post)
      reads this
      ensures r.id == now && r.status == Draft
      ensures r.title == title + CopySuffix && |r.title| == |title| + 7
      ensures r.description == post.description && r.image == post.image && r.category == post.category
      ensures r.sourceUrl == post.sourceUrl && r.scheduledDate == post.scheduledDate
    {
      post.(id := now, title := title + CopySuffix, status := Draft)
    }
  }

  /**
   * A scheduled save splits back into the chosen date and time once the date field holds
   * a plain date (after an edit, or when the post had no schedule).
   */
  lemma ScheduledSaveSplitsBack(e: Editor)
    requires 'T' !in e.scheduleDate && 'T' !in e.scheduleTime
    ensures DatePart(e.HandleSave(SaveSchedule).post.scheduledDate.value) == e.scheduleDate
    ensures TimePart(e.HandleSave(SaveSchedule).post.scheduledDate.value) == e.scheduleTime + ":00"
  {
    ScheduleStringSplitsBack(e.scheduleDate, e.scheduleTime);
  }
}
