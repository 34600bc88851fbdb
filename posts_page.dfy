/**
 * The "My Posts" list: search and status filter, the four sort orders, 20-per-page
 * pagination with Previous/Next and a five-button page window, and the selection.
 */
module PostsPage {
  import opened Wrappers
  import opened Numbers
  import opened Lists
  import opened Text
  import Sorting

  datatype Status = Draft | Scheduled | Published

  /** The value of `post.status` the status filter compares with. */
  function StatusName(s: Status): string {
    match s
    case Draft => "draft"
    case Scheduled => "scheduled"
    case Published => "published"
  }

  /**
   * One post of the list. `date` stands for `new Date(post.date).getTime()`; the
   * counters, image and URLs are only displayed and are not modelled.
   */
  datatype Post = Post(id: int, title: string, description: string, status: Status, date: int, performance: int)

  const PostsPerPage := 20

  // ---------------------------------------------------------------- filter

  /** The lower-cased title or description contains the lower-cased query. */
  predicate MatchesSearch(p: Post, query: string) {
    Contains(ToLower(p.title), ToLower(query)) || Contains(ToLower(p.description), ToLower(query))
  }

  /** The filter is "all" or names the post's status. */
  predicate MatchesStatus(p: Post, statusFilter: string) {
    statusFilter == "all" || StatusName(p.status) == statusFilter
  }

  predicate Kept(p: Post, query: string, statusFilter: string) {
    MatchesSearch(p, query) && MatchesStatus(p, statusFilter)
  }

  /** The filter step of `filteredAndSortedPosts`: the matching posts, in their original order. */
  function FilterPosts(posts: seq<Post>, query: string, statusFilter: string): (r: seq<Post>)
    ensures IsSubsequence(r, posts)
    ensures forall p :: p in r <==> p in posts && Kept(p, query, statusFilter)
  {
    Filter(posts, p => Kept(p, query, statusFilter))
  }

  /** An empty search with the "all" filter keeps every post. */
  lemma EmptySearchKeepsAll(posts: seq<Post>)
    ensures FilterPosts(posts, "", "all") == posts
  {
    forall p | p in posts ensures Kept(p, "", "all") {
      ContainsEmpty(ToLower(p.title));
    }
    FilterAll(posts, p => Kept(p, "", "all"));
  }

  // ---------------------------------------------------------------- sort

  /**
   * The sort comparator is `key(a) - key(b)` for this key: newest first compares
   * `b.date - a.date`, oldest first `a.date - b.date`, best performance
   * `b.performance - a.performance`; every other option compares 0.
   */
  function SortKey(sortBy: string, p: Post): int {
    if sortBy == "newest" then -p.date
    else if sortBy == "oldest" then p.date
    else if sortBy == "performance" then -p.performance
    else 0
  }

  /** The sort key of an option, as a function value handed to the sort. */
  function KeyOf(sortBy: string): Post -> int {
    p => SortKey(sortBy, p)
  }

  predicate KnownOrder(sortBy: string) {
    sortBy == "newest" || sortBy == "oldest" || sortBy == "performance"
  }

  /** The order each sort option promises. */
  ghost predicate OrderedFor(s: seq<Post>, sortBy: string) {
    && (sortBy == "newest" ==> forall i, j :: 0 <= i < j < |s| ==> s[i].date >= s[j].date)
    && (sortBy == "oldest" ==> forall i, j :: 0 <= i < j < |s| ==> s[i].date <= s[j].date)
    && (sortBy == "performance" ==> forall i, j :: 0 <= i < j < |s| ==> s[i].performance >= s[j].performance)
  }

  /**
   * The contents of `filteredAndSortedPosts`: a permutation of the filtered posts, in the
   * order the option promises, with posts of equal key in their filtered order (the sort
   * is stable), so in the filtered order itself for an option without an order.
   */
  ghost predicate IsViewOf(view: seq<Post>, posts: seq<Post>, query: string, statusFilter: string, sortBy: string) {
    && multiset(view) == multiset(FilterPosts(posts, query, statusFilter))
    && OrderedFor(view, sortBy)
    && (forall k :: Sorting.WithKey(view, KeyOf(sortBy), k)
          == Sorting.WithKey(FilterPosts(posts, query, statusFilter), KeyOf(sortBy), k))
    && (!KnownOrder(sortBy) ==> view == FilterPosts(posts, query, statusFilter))
  }

  /** Sorting by an option's key puts the posts in the order the option promises. */
  lemma SortedByKeyIsOrderedFor(s: seq<Post>, sortBy: string)
    requires Sorting.SortedBy(s, KeyOf(sortBy))
    ensures OrderedFor(s, sortBy)
  {
    assert forall i, j :: 0 <= i < j < |s| ==> SortKey(sortBy, s[i]) <= SortKey(sortBy, s[j]);
  }

  /** An option without an order gives every post the same key. */
  lemma UnknownOrderKeysEqual(s: seq<Post>, sortBy: string)
    requires !KnownOrder(sortBy)
    ensures Sorting.AllKeysEqual(s, KeyOf(sortBy))
  {
  }

  /** Each sort option's order is the order of its key. */
  lemma OrderedForIsSortedByKey(s: seq<Post>, sortBy: string)
    requires KnownOrder(sortBy) && OrderedFor(s, sortBy)
    ensures Sorting.SortedBy(s, KeyOf(sortBy))
  {
  }

  /**
   * The view is fully determined by the posts, the query, the filter and the option:
   * the order of posts with equal dates or performances is fixed by the stable sort.
   */
  lemma ViewIsDetermined(v1: seq<Post>, v2: seq<Post>, posts: seq<Post>, query: string, statusFilter: string, sortBy: string)
    requires IsViewOf(v1, posts, query, statusFilter, sortBy)
    requires IsViewOf(v2, posts, query, statusFilter, sortBy)
    ensures v1 == v2
  {
    if KnownOrder(sortBy) {
      OrderedForIsSortedByKey(v1, sortBy);
      OrderedForIsSortedByKey(v2, sortBy);
      Sorting.SortedStableUnique(v1, v2, KeyOf(sortBy));
    }
  }

  /**
   * `filteredAndSortedPosts`: filter, then sort the filtered array in place. The result
   * is a permutation of the filtered posts in the promised order; with a comparator that
   * always answers 0 the stable sort leaves the filtered order untouched.
   */
  method FilteredAndSortedPosts(posts: seq<Post>, query: string, statusFilter: string, sortBy: string)
    returns (r: seq<Post>)
    ensures multiset(r) == multiset(FilterPosts(posts, query, statusFilter))
    ensures OrderedFor(r, sortBy)
    ensures forall k ::
      Sorting.WithKey(r, KeyOf(sortBy), k) == Sorting.WithKey(FilterPosts(posts, query, statusFilter), KeyOf(sortBy), k)
    ensures !KnownOrder(sortBy) ==> r == FilterPosts(posts, query, statusFilter)
    ensures IsViewOf(r, posts, query, statusFilter, sortBy)
  {
    var filtered := FilterPosts(posts, query, statusFilter);
    var a := new Post[|filtered|](i requires 0 <= i < |filtered| => filtered[i]);
    assert a[..] == filtered;
    if !KnownOrder(sortBy) {
      UnknownOrderKeysEqual(filtered, sortBy);
    }
    Sorting.SortByKey(a, KeyOf(sortBy));
    r := a[..];
    SortedByKeyIsOrderedFor(r, sortBy);
  }

  // ---------------------------------------------------------------- pagination

  /** `Math.ceil(n / 20)`: the fewest pages of 20 that hold n posts. */
  function TotalPages(n: nat): (r: nat)
    ensures r * PostsPerPage >= n
    ensures r == 0 || (r - 1) * PostsPerPage < n
  {
    (n + PostsPerPage - 1) / PostsPerPage
  }

  /** `startIndex` for a page number. */
  function PageStart(page: int): int {
    (page - 1) * PostsPerPage
  }

  /** `currentPosts`: `slice(startIndex, startIndex + 20)`. */
  function Page<T>(s: seq<T>, page: int): (r: seq<T>)
    ensures |r| <= PostsPerPage
    ensures 1 <= page && PageStart(page) <= |s| ==> r == s[PageStart(page)..Min(PageStart(page) + PostsPerPage, |s|)]
    ensures 1 <= page && PageStart(page) >= |s| ==> r == []
  {
    Slice(s, PageStart(page), PageStart(page) + PostsPerPage)
  }

  /** Every page before the last is full; the last holds the remainder; pages past it are empty. */
  lemma PageSizes<T>(s: seq<T>, page: int)
    requires 1 <= page
    ensures page < TotalPages(|s|) ==> |Page(s, page)| == PostsPerPage
    ensures page == TotalPages(|s|) ==> |Page(s, page)| == |s| - PageStart(page) > 0
    ensures page > TotalPages(|s|) ==> Page(s, page) == []
  {
  }

  /** Pages `first..last`, one after the other. */
  function JoinPages<T>(s: seq<T>, first: int, last: int): seq<T>
    decreases last - first
  {
    if first > last then [] else Page(s, first) + JoinPages(s, first + 1, last)
  }

  /** Pages 1..totalPages, concatenated, give back the whole list. */
  lemma PagesCoverList<T>(s: seq<T>)
    ensures JoinPages(s, 1, TotalPages(|s|)) == s
  {
    JoinPagesFrom(s, 1);
  }

  lemma {:induction false} JoinPagesFrom<T>(s: seq<T>, page: int)
    requires 1 <= page && PageStart(page) <= |s|
    ensures JoinPages(s, page, TotalPages(|s|)) == s[PageStart(page)..]
    decreases TotalPages(|s|) - page
  {
    var total := TotalPages(|s|);
    if page > total {
      assert PageStart(page) >= |s|;
    } else if PageStart(page) + PostsPerPage <= |s| {
      JoinPagesFrom(s, page + 1);
      assert s[PageStart(page)..] == s[PageStart(page)..PageStart(page) + PostsPerPage] + s[PageStart(page + 1)..];
    } else {
      assert page == total;
      assert JoinPages(s, page + 1, total) == [];
    }
  }

  // ---------------------------------------------------------------- page window

  /** The first number of the page window. */
  function WindowStart(totalPages: nat, currentPage: int): int {
    Max(1, Min(totalPages - 4, currentPage - 2))
  }

  /** The page-number buttons: `min(5, totalPages)` slots, `null` for a number past the last page. */
  function PageButtons(totalPages: nat, currentPage: int): (r: seq<Option<int>>)
    ensures |r| == Min(5, totalPages)
  {
    seq(Min(5, totalPages), i =>
      var n := WindowStart(totalPages, currentPage) + i;
      if n > totalPages then None else Some(n))
  }

  /**
   * The window shows consecutive page numbers from its start, all within 1..totalPages
   * (so the `null` case never arises), and it shows the current page whenever that page exists.
   */
  lemma PageButtonsShape(totalPages: nat, currentPage: int)
    ensures forall i :: 0 <= i < |PageButtons(totalPages, currentPage)| ==>
      PageButtons(totalPages, currentPage)[i] == Some(WindowStart(totalPages, currentPage) + i)
      && 1 <= WindowStart(totalPages, currentPage) + i <= totalPages
    ensures 1 <= currentPage <= totalPages ==> Some(currentPage) in PageButtons(totalPages, currentPage)
  {
    var r := PageButtons(totalPages, currentPage);
    var start := WindowStart(totalPages, currentPage);
    assert totalPages >= 5 ==> start + 4 <= totalPages;
    assert totalPages < 5 ==> start == 1;
    if 1 <= currentPage <= totalPages {
      assert 0 <= currentPage - start < |r|;
      assert r[currentPage - start] == Some(currentPage);
    }
  }

  // ---------------------------------------------------------------- selection

  /** `posts.map(post => post.id)`. */
  function Ids(posts: seq<Post>): (r: seq<int>)
    ensures |r| == |posts| && forall i :: 0 <= i < |posts| ==> r[i] == posts[i].id
  {
    seq(|posts|, i requires 0 <= i < |posts| => posts[i].id)
  }

  /** `currentPosts.every(post => selectedPosts.includes(post.id))`. */
  predicate AllSelected(current: seq<Post>, selected: seq<int>) {
    forall p :: p in current ==> p.id in selected
  }

  // ---------------------------------------------------------------- the page state

  class PostsPageState {
    const posts: seq<Post>
    var searchQuery: string
    var statusFilter: string
    var sortBy: string
    /** The memoised `filteredAndSortedPosts`, recomputed when its inputs change. */
    var view: seq<Post>
    var currentPage: int
    var selectedPosts: seq<int>

    ghost predicate Valid()
      reads this
    {
      IsViewOf(view, posts, searchQuery, statusFilter, sortBy) && currentPage >= 1
    }

    function TotalPageCount(): nat
      reads this
    {
      TotalPages(|view|)
    }

    function CurrentPosts(): seq<Post>
      reads this
    {
      Page(view, currentPage)
    }

    /** The page opens unfiltered, newest first, on page 1 with nothing selected. */
    constructor (posts: seq<Post>)
      ensures Valid() && this.posts == posts
      ensures searchQuery == "" && statusFilter == "all" && sortBy == "newest"
      ensures currentPage == 1 && selectedPosts == []
    {
      this.posts := posts;
      searchQuery := "";
      statusFilter := "all";
      sortBy := "newest";
      currentPage := 1;
      selectedPosts := [];
      new;
      view := FilteredAndSortedPosts(posts, searchQuery, statusFilter, sortBy);
    }

    /** The search box, status select and sort select; the current page is not reset. */
    method SetSearchQuery(query: string)
      requires Valid()
      modifies this`searchQuery, this`view
      ensures Valid() && searchQuery == query
    {
      searchQuery := query;
      view := FilteredAndSortedPosts(posts, searchQuery, statusFilter, sortBy);
    }

    method SetStatusFilter(filter: string)
      requires Valid()
      modifies this`statusFilter, this`view
      ensures Valid() && statusFilter == filter
    {
      statusFilter := filter;
      view := FilteredAndSortedPosts(posts, searchQuery, statusFilter, sortBy);
    }

    method SetSortBy(order: string)
      requires Valid()
      modifies this`sortBy, this`view
      ensures Valid() && sortBy == order
    {
      sortBy := order;
      view := FilteredAndSortedPosts(posts, searchQuery, statusFilter, sortBy);
    }

    /** Previous: `Math.max(prev - 1, 1)`, never below page 1. */
    method PreviousPage()
      requires Valid()
      modifies this`currentPage
      ensures Valid()
      ensures currentPage == Max(old(currentPage) - 1, 1) && currentPage >= 1
    {
      currentPage := Max(currentPage - 1, 1);
    }

    /** Next: `Math.min(prev + 1, totalPages)`; the button exists only when there are two pages or more. */
    method NextPage()
      requires Valid() && TotalPageCount() > 1
      modifies this`currentPage
      ensures Valid()
      ensures currentPage == Min(old(currentPage) + 1, TotalPageCount()) && currentPage <= TotalPageCount()
    {
      currentPage := Min(currentPage + 1, TotalPages(|view|));
    }

    /** A page-number button: jump to the number it shows. */
    method GoToPage(page: int)
      requires Valid() && Some(page) in PageButtons(TotalPageCount(), currentPage)
      modifies this`currentPage
      ensures Valid() && currentPage == page
    {
      PageButtonsShape(TotalPageCount(), currentPage);
      currentPage := page;
    }

    /** `togglePostSelection`. */
    method TogglePostSelection(id: int)
      requires Valid()
      modifies this`selectedPosts
      ensures Valid()
      ensures selectedPosts == Toggle(old(selectedPosts), id)
      ensures id in selectedPosts <==> id !in old(selectedPosts)
    {
      selectedPosts := if id in selectedPosts then Remove(selectedPosts, id) else selectedPosts + [id];
    }

    /** `selectAllPosts`: exactly the ids of the current page. */
    method SelectAllPosts()
      requires Valid()
      modifies this`selectedPosts
      ensures Valid()
      ensures selectedPosts == Ids(CurrentPosts())
      ensures AllSelected(CurrentPosts(), selectedPosts)
    {
      selectedPosts := Ids(Page(view, currentPage));
    }

    /** `clearSelection`. */
    method ClearSelection()
      requires Valid()
      modifies this`selectedPosts
      ensures Valid()
      ensures selectedPosts == []
    {
      selectedPosts := [];
    }

    /** The "Select All" header: clears when the whole page is selected (or empty), selects the page otherwise. */
    method HeaderSelectAll()
      requires Valid()
      modifies this`selectedPosts
      ensures Valid()
      ensures AllSelected(CurrentPosts(), old(selectedPosts)) ==> selectedPosts == []
      ensures !AllSelected(CurrentPosts(), old(selectedPosts)) ==> selectedPosts == Ids(CurrentPosts())
    {
      if forall p | p in Page(view, currentPage) :: p.id in selectedPosts {
        ClearSelection();
      } else {
        SelectAllPosts();
      }
    }
  }

  /**
   * The current page is not reset when the filter narrows the list: a page number past
   * the new last page shows nothing although matching posts exist.
   */
  lemma StalePageShowsNothing(view: seq<Post>, currentPage: int)
    requires currentPage > TotalPages(|view|) && currentPage >= 1
    ensures Page(view, currentPage) == []
  {
  }
}
