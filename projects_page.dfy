/** The projects page: client-side pagination of the fetched list, nine projects a
    page, the page-number bar, the filter-chip counts, the featured sublist, and the
    filter/search/page state with its reset rule. Category and search filtering happen
    on the server; the list here is what the fetch returned. */
module ProjectsPage {
  import opened Wrappers
  import opened Seqs
  import opened Records

  const ProjectsPerPage: nat := 9

  // ---------------------------------------------------------------------------
  // Pagination arithmetic

  /** `Math.ceil(n / 9)`: the fewest pages of nine that hold `n` projects; no pages
      at all for an empty list. */
  function TotalPages(n: nat): (t: nat)
    ensures n <= t * ProjectsPerPage
    ensures n > 0 ==> (t - 1) * ProjectsPerPage < n
    ensures t == 0 <==> n == 0
  {
    (n + ProjectsPerPage - 1) / ProjectsPerPage
  }

  /** The page-number bar is rendered only for more than one page, that is, for
      more than nine projects. */
  lemma PaginationBarShown(n: nat)
    ensures TotalPages(n) > 1 <==> n > ProjectsPerPage
  {
  }

  /** `startIndex`. */
  function StartIndex(page: int): int
  {
    (page - 1) * ProjectsPerPage
  }

  /** `paginatedProjects`: `all.slice(startIndex, startIndex + 9)`. */
  function PaginatedProjects(all: seq<Project>, page: int): seq<Project>
  {
    JsSlice(all, StartIndex(page), StartIndex(page) + ProjectsPerPage)
  }

  /** Page `page` holds at most nine projects, contiguous and in list order; a page
      past the last is empty. */
  lemma PageContents(all: seq<Project>, page: int)
    requires page >= 1
    ensures var lo := if StartIndex(page) < |all| then StartIndex(page) else |all|;
            var hi := if lo + ProjectsPerPage < |all| then lo + ProjectsPerPage else |all|;
            PaginatedProjects(all, page) == all[lo..hi]
    ensures |PaginatedProjects(all, page)| <= ProjectsPerPage
    ensures page > TotalPages(|all|) ==> PaginatedProjects(all, page) == []
  {
    if page > TotalPages(|all|) {
      assert StartIndex(page) >= TotalPages(|all|) * ProjectsPerPage;
    }
  }

  /** Pages 1..k laid end to end. */
  function ConcatPages(all: seq<Project>, k: nat): seq<Project>
  {
    if k == 0 then [] else ConcatPages(all, k - 1) + PaginatedProjects(all, k)
  }

  /** The first `k` pages together are the first `9k` projects of the list. */
  lemma {:induction false} ConcatPagesIsPrefix(all: seq<Project>, k: nat)
    ensures ConcatPages(all, k) == all[..if k * ProjectsPerPage < |all| then k * ProjectsPerPage else |all|]
  {
    if k > 0 {
      ConcatPagesIsPrefix(all, k - 1);
      PageContents(all, k);
      var lo := if (k - 1) * ProjectsPerPage < |all| then (k - 1) * ProjectsPerPage else |all|;
      var hi := if k * ProjectsPerPage < |all| then k * ProjectsPerPage else |all|;
      assert StartIndex(k) == (k - 1) * ProjectsPerPage;
      assert all[..lo] + all[lo..hi] == all[..hi];
    }
  }

  /** Pages 1..totalPages partition the list: laid end to end they give it back
      exactly, each project once and in order. */
  lemma PagesPartitionList(all: seq<Project>)
    ensures ConcatPages(all, TotalPages(|all|)) == all
  {
    ConcatPagesIsPrefix(all, TotalPages(|all|));
  }

  /** Project `j` of the list is item `j % 9` of page `j / 9 + 1`, a page that exists. */
  lemma PageOfProject(all: seq<Project>, j: int)
    requires 0 <= j < |all|
    ensures 1 <= j / ProjectsPerPage + 1 <= TotalPages(|all|)
    ensures j % ProjectsPerPage < |PaginatedProjects(all, j / ProjectsPerPage + 1)|
    ensures PaginatedProjects(all, j / ProjectsPerPage + 1)[j % ProjectsPerPage] == all[j]
  {
    var p := j / ProjectsPerPage + 1;
    PageContents(all, p);
    assert StartIndex(p) == j - j % ProjectsPerPage;
  }

  // ---------------------------------------------------------------------------
  // Page navigation

  /** The "previous" button's target: `Math.max(1, currentPage - 1)`. */
  function PrevPageTarget(page: int): int
  {
    if page - 1 < 1 then 1 else page - 1
  }

  /** The "next" button's target: `Math.min(totalPages, currentPage + 1)`. */
  function NextPageTarget(page: int, total: nat): int
  {
    if total < page + 1 then total else page + 1
  }

  /** From a page in range both buttons lead to a page in range, and one undoes the
      other away from the ends. */
  lemma PageNavigationInRange(page: int, total: nat)
    requires 1 <= page <= total
    ensures 1 <= PrevPageTarget(page) <= total && 1 <= NextPageTarget(page, total) <= total
    ensures page > 1 ==> NextPageTarget(PrevPageTarget(page), total) == page
    ensures page < total ==> PrevPageTarget(NextPageTarget(page, total)) == page
    ensures page == 1 ==> PrevPageTarget(page) == 1
    ensures page == total ==> NextPageTarget(page, total) == total
  {
  }

  // ---------------------------------------------------------------------------
  // The page-number bar

  /** What the bar renders for one page number. */
  datatype PageSlot = PageButton(page: nat) | Ellipsis(page: nat) | Omitted

  /** A button for the first and last page and for pages next to the current one;
      an ellipsis two pages away from the current one; nothing otherwise. */
  function SlotFor(page: nat, current: int, total: nat): PageSlot
  {
    if page == 1 || page == total || (current - 1 <= page && page <= current + 1) then PageButton(page)
    else if page == current - 2 || page == current + 2 then Ellipsis(page)
    else Omitted
  }

  /** The bar for pages 1..total, slot `i` for page `i + 1`. */
  function PageBar(current: int, total: nat): (bar: seq<PageSlot>)
    ensures |bar| == total
  {
    seq(total, i requires 0 <= i < total => SlotFor(i + 1, current, total))
  }

  /** The bar offers a button exactly for the first, the last and every existing page
      within one of the current page; an ellipsis exactly for a page two away from the
      current one that has no button; and each slot is labelled with its own page. */
  lemma PageBarButtons(current: int, total: nat)
    requires 1 <= current <= total
    ensures PageBar(current, total)[0] == PageButton(1)
    ensures PageBar(current, total)[total - 1] == PageButton(total)
    ensures PageBar(current, total)[current - 1] == PageButton(current)
    ensures forall i :: 0 <= i < total ==>
      (PageBar(current, total)[i].PageButton? <==>
        i + 1 == 1 || i + 1 == total || current - 1 <= i + 1 <= current + 1)
    ensures forall i :: 0 <= i < total ==>
      (PageBar(current, total)[i].Ellipsis? <==>
        !PageBar(current, total)[i].PageButton? && (i + 1 == current - 2 || i + 1 == current + 2))
    ensures forall i :: 0 <= i < total && !PageBar(current, total)[i].Omitted? ==>
      PageBar(current, total)[i].page == i + 1
  {
  }

  /** Every hidden page lies in a stretch of hidden pages that shows an ellipsis:
      between it and that ellipsis there is no page button. */
  lemma PageBarMarksEveryGap(current: int, total: nat, i: nat)
    requires 1 <= current <= total
    requires i < total && PageBar(current, total)[i].Omitted?
    ensures exists e :: 0 <= e < total && PageBar(current, total)[e].Ellipsis? &&
              forall k :: (if i < e then i else e) <= k <= (if i < e then e else i) ==>
                            !PageBar(current, total)[k].PageButton?
  {
    var bar := PageBar(current, total);
    if i + 1 < current {
      var e := current - 3;
      assert bar[e] == Ellipsis(current - 2);
      assert forall k :: i <= k <= e ==> bar[k] == SlotFor(k + 1, current, total);
    } else {
      var e := current + 1;
      assert bar[e] == Ellipsis(current + 2);
      assert forall k :: e <= k <= i ==> bar[k] == SlotFor(k + 1, current, total);
    }
  }

  // ---------------------------------------------------------------------------
  // Chip counts and the featured sublist

  function CategoryTest(id: string): Project -> bool
  {
    (p: Project) => p.category == Some(id)
  }

  /** A category chip's count: the projects whose category is exactly `id`,
      letter case included. */
  function CategoryCount(all: seq<Project>, id: string): (c: nat)
    ensures c <= |all|
  {
    FilterSpec(CategoryTest(id), all);
    |Filter(CategoryTest(id), all)|
  }

  /** The category chip ids, in display order, after the "all" chip. */
  const CategoryChips: seq<string> := ["villa", "townhouse", "apartment", "commercial"]

  /** `filterCategories` as `(id, count)` pairs, the "all" chip first. */
  function FilterChips(all: seq<Project>): (chips: seq<(string, nat)>)
    ensures |chips| == 1 + |CategoryChips| && chips[0] == ("all", |all|)
  {
    [("all", |all|)] + seq(|CategoryChips|, i requires 0 <= i < |CategoryChips| =>
      (CategoryChips[i], CategoryCount(all, CategoryChips[i])))
  }

  /** The sum of the counts of the chips `ids`. */
  function SumCounts(all: seq<Project>, ids: seq<string>): nat
  {
    if ids == [] then 0 else CategoryCount(all, ids[0]) + SumCounts(all, ids[1..])
  }

  /** How many of `ids` a project's category equals. */
  function Hits(p: Project, ids: seq<string>): nat
  {
    if ids == [] then 0 else (if p.category == Some(ids[0]) then 1 else 0) + Hits(p, ids[1..])
  }

  lemma {:induction false} HitsAtMostOne(p: Project, ids: seq<string>)
    requires forall a, b :: 0 <= a < b < |ids| ==> ids[a] != ids[b]
    ensures Hits(p, ids) <= 1
  {
    if ids != [] {
      HitsAtMostOne(p, ids[1..]);
      if p.category == Some(ids[0]) {
        HitsNone(p, ids[1..]);
      }
    }
  }

  lemma {:induction false} HitsNone(p: Project, ids: seq<string>)
    requires forall a :: 0 <= a < |ids| ==> p.category != Some(ids[a])
    ensures Hits(p, ids) == 0
  {
    if ids != [] {
      HitsNone(p, ids[1..]);
    }
  }

  /** Counting the first project separately: each chip count drops by one for the
      chip it matches. */
  lemma {:induction false} SumCountsSplit(all: seq<Project>, ids: seq<string>)
    requires all != []
    ensures SumCounts(all, ids) == Hits(all[0], ids) + SumCounts(all[1..], ids)
  {
    if ids != [] {
      SumCountsSplit(all, ids[1..]);
    }
  }

  lemma {:induction false} SumCountsEmpty(ids: seq<string>)
    ensures SumCounts([], ids) == 0
  {
    if ids != [] {
      SumCountsEmpty(ids[1..]);
    }
  }

  /** Chip counts for distinct ids never add up to more than the list length:
      no project is counted under two chips. */
  lemma {:induction false} CategoryCountsBounded(all: seq<Project>, ids: seq<string>)
    requires forall a, b :: 0 <= a < b < |ids| ==> ids[a] != ids[b]
    ensures SumCounts(all, ids) <= |all|
  {
    if all == [] {
      SumCountsEmpty(ids);
    } else {
      SumCountsSplit(all, ids);
      HitsAtMostOne(all[0], ids);
      CategoryCountsBounded(all[1..], ids);
    }
  }

  /** The category chips of the page together count at most the "all" chip's total. */
  lemma ChipCountsBounded(all: seq<Project>)
    ensures var chips := FilterChips(all);
      chips[1].1 + chips[2].1 + chips[3].1 + chips[4].1 <= chips[0].1
  {
    var ids := CategoryChips;
    CategoryCountsBounded(all, ids);
    assert SumCounts(all, ids[3..]) == CategoryCount(all, ids[3]) by {
      assert ids[3..][1..] == [];
    }
    assert SumCounts(all, ids[2..]) == CategoryCount(all, ids[2]) + SumCounts(all, ids[3..]) by {
      assert ids[2..][1..] == ids[3..];
    }
    assert SumCounts(all, ids[1..]) == CategoryCount(all, ids[1]) + SumCounts(all, ids[2..]) by {
      assert ids[1..][1..] == ids[2..];
    }
  }

  predicate IsFeatured(p: Project)
  {
    p.featured
  }

  /** `featuredProjectsData`. */
  function FeaturedProjects(all: seq<Project>): seq<Project>
  {
    Filter(IsFeatured, all)
  }

  /** The featured sublist holds every featured project, as often as it occurs, in
      list order, and nothing else. */
  lemma FeaturedProjectsSpec(all: seq<Project>)
    ensures forall p :: p in FeaturedProjects(all) <==> p in all && p.featured
    ensures forall p :: multiset(FeaturedProjects(all))[p] == if p.featured then multiset(all)[p] else 0
    ensures IsSubsequence(FeaturedProjects(all), all)
  {
    FilterSpec(IsFeatured, all);
  }

  // ---------------------------------------------------------------------------
  // The component's state

  /** The page's browsing state over the list the fetch returned. */
  class PageState {
    var projects: seq<Project>
    var activeFilter: string
    var searchTerm: string
    var currentPage: int

    /** Every handler leaves the page number at 1 or above. */
    ghost predicate Valid()
      reads this
    {
      currentPage >= 1
    }

    function Pages(): nat
      reads this
    {
      TotalPages(|projects|)
    }

    constructor (projects: seq<Project>)
      ensures Valid()
      ensures this.projects == projects && activeFilter == "all" && searchTerm == "" && currentPage == 1
    {
      this.projects := projects;
      activeFilter := "all";
      searchTerm := "";
      currentPage := 1;
    }

    /** A chip click. The reset effect runs only when the filter actually changes. */
    method SelectFilter(filter: string)
      requires Valid()
      modifies this`activeFilter, this`currentPage
      ensures Valid() && activeFilter == filter
      ensures currentPage == if filter != old(activeFilter) then 1 else old(currentPage)
    {
      if filter != activeFilter {
        activeFilter := filter;
        currentPage := 1;
      }
    }

    /** Typing in the search box. */
    method SetSearch(term: string)
      requires Valid()
      modifies this`searchTerm, this`currentPage
      ensures Valid() && searchTerm == term
      ensures currentPage == if term != old(searchTerm) then 1 else old(currentPage)
    {
      if term != searchTerm {
        searchTerm := term;
        currentPage := 1;
      }
    }

    /** "View all projects": both the filter and the search are reset. */
    method ViewAll()
      requires Valid()
      modifies this`activeFilter, this`searchTerm, this`currentPage
      ensures Valid() && activeFilter == "all" && searchTerm == ""
      ensures currentPage == if old(activeFilter) != "all" || old(searchTerm) != "" then 1 else old(currentPage)
    {
      if activeFilter != "all" || searchTerm != "" {
        activeFilter, searchTerm := "all", "";
        currentPage := 1;
      }
    }

    /** "Clear search": only the search is reset. */
    method ClearSearch()
      requires Valid()
      modifies this`searchTerm, this`currentPage
      ensures Valid() && searchTerm == ""
      ensures currentPage == if old(searchTerm) != "" then 1 else old(currentPage)
    {
      SetSearch("");
    }

    /** The "previous" button, shown only with more than one page. */
    method PrevPage()
      requires Valid() && Pages() > 1
      modifies this`currentPage
      ensures Valid() && currentPage == PrevPageTarget(old(currentPage))
    {
      currentPage := if 1 < currentPage - 1 then currentPage - 1 else 1;
    }

    /** The "next" button, shown only with more than one page. */
    method NextPage()
      requires Valid() && Pages() > 1
      modifies this`currentPage
      ensures Valid() && currentPage == NextPageTarget(old(currentPage), Pages())
    {
      var total := Pages();
      currentPage := if total < currentPage + 1 then total else currentPage + 1;
    }

    /** A page-number button; the bar offers only pages 1..totalPages. */
    method GoToPage(page: int)
      requires 1 <= page <= Pages()
      modifies this`currentPage
      ensures Valid() && currentPage == page
    {
      currentPage := page;
    }

    /** A fetch result replaces the list; the page number is left as it is. */
    method ReceiveProjects(projects: seq<Project>)
      modifies this`projects
      ensures this.projects == projects
    {
      this.projects := projects;
    }
  }
}
