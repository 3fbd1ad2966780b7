/** The home page's project section: the category filter over the project list,
    the six-item carousel/grid, the filter-chip counts folded from the API response,
    and the mobile carousel's autoplay, pause/resume timer and swipe handling. */
module ProjectsSection {
  import opened Wrappers
  import opened Seqs
  import opened JsText
  import opened Records
  import Cyclic

  /** The id of the chip that shows every project. */
  const AllFilter: string := "all"
  /** How many projects the carousel and the grid show. */
  const MaxShown: nat := 6
  /** The swipe distance a gesture must exceed to change slide. */
  const MinSwipeDistance: int := 50

  // ---------------------------------------------------------------------------
  // Which projects are shown

  /** A project matches a chip when it has a non-empty category equal to the chip id,
      ignoring letter case. */
  predicate MatchesFilter(p: Project, filter: string)
  {
    TruthyString(p.category) && ToLower(p.category.value) == ToLower(filter)
  }

  function FilterTest(filter: string): Project -> bool
  {
    p => MatchesFilter(p, filter)
  }

  /** `filteredProjects`. */
  function FilteredProjects(all: seq<Project>, filter: string): seq<Project>
  {
    if filter == AllFilter then all else Filter(FilterTest(filter), all)
  }

  /** With the "all" chip the list is the input; with any other chip it is the
      order-preserving sublist of the projects that match, each kept as often as it occurs. */
  lemma FilteredProjectsSpec(all: seq<Project>, filter: string)
    ensures filter == AllFilter ==> FilteredProjects(all, filter) == all
    ensures filter != AllFilter ==>
      && (forall p :: p in FilteredProjects(all, filter) <==> p in all && MatchesFilter(p, filter))
      && (forall p :: multiset(FilteredProjects(all, filter))[p] ==
                     if MatchesFilter(p, filter) then multiset(all)[p] else 0)
      && IsSubsequence(FilteredProjects(all, filter), all)
  {
    if filter != AllFilter {
      FilterSpec(FilterTest(filter), all);
    }
  }

  /** `displayProjectsList`: `filtered.slice(0, 6)`, the first six projects. */
  function DisplayList(filtered: seq<Project>): (r: seq<Project>)
    ensures |r| == if |filtered| < MaxShown then |filtered| else MaxShown
    ensures r == filtered[..|r|]
  {
    JsSlice(filtered, 0, MaxShown)
  }

  /** `projectsForView`: the full list once it has loaded and is non-empty, the
      featured list otherwise. */
  function ProjectsForView(fallbackLoading: bool, fallback: seq<Project>, featured: seq<Project>): (r: seq<Project>)
    ensures !fallbackLoading && fallback != [] ==> r == fallback
    ensures fallbackLoading || fallback == [] ==> r == featured
    ensures r != fallback ==> r == featured
    ensures r == [] ==> featured == [] && (fallbackLoading || fallback == [])
  {
    if !fallbackLoading && |fallback| > 0 then fallback else featured
  }

  // ---------------------------------------------------------------------------
  // Chip counts from the API

  /** One element of the API's `categoryCounts` or `completionCounts` array; the
      element itself may be null, hence `Option<CountEntry>` in the arrays below. */
  datatype CountEntry = CountEntry(id: Option<string>, count: Option<int>)

  /** The key an entry contributes: its `_id` when the entry is present and the id
      is truthy, nothing otherwise. */
  function EntryKey(e: Option<CountEntry>): (k: Option<string>)
    ensures k.Some? ==> e.Some? && e.value.id == k && k.value != ""
  {
    if e.Some? && TruthyString(e.value.id) then e.value.id else None
  }

  /** `item.count || 0`: a missing count reads as 0. */
  function EntryCount(e: CountEntry): int
  {
    match e.count
    case Some(c) => c
    case None => 0
  }

  /** The map `forEach` has built after visiting `entries` in order. */
  function FoldCounts(entries: seq<Option<CountEntry>>): map<string, int>
  {
    if entries == [] then map[]
    else
      var m := FoldCounts(entries[..|entries| - 1]);
      var last := entries[|entries| - 1];
      if EntryKey(last).Some? then m[EntryKey(last).value := EntryCount(last.value)] else m
  }

  /** One step of the fold: the map after `entries` is the map after all but the last
      entry, updated by the last entry when it carries a key. */
  lemma FoldCountsStep(entries: seq<Option<CountEntry>>, k: string)
    requires entries != []
    ensures var n := |entries| - 1;
      if EntryKey(entries[n]) == Some(k) then
        k in FoldCounts(entries) && FoldCounts(entries)[k] == EntryCount(entries[n].value)
      else
        (k in FoldCounts(entries) <==> k in FoldCounts(entries[..n])) &&
        (k in FoldCounts(entries) ==> FoldCounts(entries)[k] == FoldCounts(entries[..n])[k])
  {
  }

  /** A key is in the folded map exactly when some entry carries it. */
  lemma {:induction false} FoldCountsKeys(entries: seq<Option<CountEntry>>, k: string)
    ensures k in FoldCounts(entries) <==> exists j :: 0 <= j < |entries| && EntryKey(entries[j]) == Some(k)
  {
    if entries != [] {
      var n := |entries| - 1;
      var init := entries[..n];
      FoldCountsKeys(init, k);
      FoldCountsStep(entries, k);
      if EntryKey(entries[n]) != Some(k) {
        if exists j :: 0 <= j < |entries| && EntryKey(entries[j]) == Some(k) {
          var j :| 0 <= j < |entries| && EntryKey(entries[j]) == Some(k);
          assert j < n && init[j] == entries[j];
        }
        if exists j :: 0 <= j < n && EntryKey(init[j]) == Some(k) {
          var j :| 0 <= j < n && EntryKey(init[j]) == Some(k);
          assert init[j] == entries[j];
        }
      }
    }
  }

  /** The value of a key in the folded map is the count of the LAST entry that carries it. */
  lemma {:induction false} FoldCountsLastWins(entries: seq<Option<CountEntry>>, k: string)
    requires k in FoldCounts(entries)
    ensures exists j ::
      0 <= j < |entries| && EntryKey(entries[j]) == Some(k) &&
      FoldCounts(entries)[k] == EntryCount(entries[j].value) &&
      forall j' :: j < j' < |entries| ==> EntryKey(entries[j']) != Some(k)
  {
    var n := |entries| - 1;
    FoldCountsStep(entries, k);
    if EntryKey(entries[n]) == Some(k) {
      assert 0 <= n < |entries| && EntryKey(entries[n]) == Some(k);
    } else {
      var init := entries[..n];
      FoldCountsLastWins(init, k);
      var j :| 0 <= j < n && EntryKey(init[j]) == Some(k)
        && FoldCounts(init)[k] == EntryCount(init[j].value)
        && forall j' :: j < j' < n ==> EntryKey(init[j']) != Some(k);
      assert init[j] == entries[j];
      assert forall j' :: j < j' < n ==> init[j'] == entries[j'];
      assert EntryKey(entries[j]) == Some(k) && FoldCounts(entries)[k] == EntryCount(entries[j].value);
    }
  }

  /** The `forEach` of `countsFromApi` over one counts array; an absent array, or a
      value that is not an array, gives the empty map. */
  method CountsFromApi(apiCounts: Option<seq<Option<CountEntry>>>) returns (m: map<string, int>)
    ensures apiCounts.None? ==> m == map[]
    ensures apiCounts.Some? ==> m == FoldCounts(apiCounts.value)
  {
    m := map[];
    if apiCounts.Some? {
      var entries := apiCounts.value;
      var i := 0;
      while i < |entries|
        invariant 0 <= i <= |entries|
        invariant m == FoldCounts(entries[..i])
      {
        var item := entries[i];
        if item.Some? && TruthyString(item.value.id) {
          m := m[item.value.id.value := EntryCount(item.value)];
        }
        assert entries[..i + 1][..i] == entries[..i];
        i := i + 1;
      }
      assert entries[..i] == entries;
    }
  }

  /** `countsFromApi.totalAll`: the API's total when it reports one (`??` keeps a
      reported 0), the length of the full list otherwise. */
  function TotalAll(paginationCount: Option<int>, fallback: seq<Project>): (t: int)
    ensures paginationCount.None? ==> t == |fallback|
    ensures paginationCount.Some? ==> t == paginationCount.value
  {
    match paginationCount
    case Some(c) => c
    case None => |fallback|
  }

  /** The count a category chip shows: `counts[id] || 0`. */
  function ChipCount(counts: map<string, int>, id: string): int
  {
    if id in counts then counts[id] else 0
  }

  /** The chip ids, in display order, after the "all" chip. */
  const CategoryChips: seq<string> := ["apartment", "townhouse", "villa", "office"]

  /** The `(id, count)` of every chip, the "all" chip first. */
  function FilterChips(categoryCounts: map<string, int>, totalAll: int): (chips: seq<(string, int)>)
    ensures |chips| == 1 + |CategoryChips|
  {
    [(AllFilter, totalAll)] + seq(|CategoryChips|, i requires 0 <= i < |CategoryChips| =>
      (CategoryChips[i], ChipCount(categoryCounts, CategoryChips[i])))
  }

  /** Every category chip shows the count of the last API entry for its id, or 0
      when the API sent no entry for it; the "all" chip shows the total. */
  lemma FilterChipsFromApi(entries: seq<Option<CountEntry>>, totalAll: int, i: nat)
    requires 0 < i < 1 + |CategoryChips|
    ensures FilterChips(FoldCounts(entries), totalAll)[0] == (AllFilter, totalAll)
    ensures var (id, count) := FilterChips(FoldCounts(entries), totalAll)[i];
      && id == CategoryChips[i - 1]
      && ((forall j :: 0 <= j < |entries| ==> EntryKey(entries[j]) != Some(id)) ==> count == 0)
      && ((exists j :: 0 <= j < |entries| && EntryKey(entries[j]) == Some(id)) ==>
          exists j :: 0 <= j < |entries| && EntryKey(entries[j]) == Some(id)
                                    && count == EntryCount(entries[j].value)
                                    && forall j' :: j < j' < |entries| ==> EntryKey(entries[j']) != Some(id))
  {
    var m := FoldCounts(entries);
    var id := CategoryChips[i - 1];
    assert FilterChips(m, totalAll)[i] == (id, ChipCount(m, id));
    FoldCountsKeys(entries, id);
    if id in m {
      FoldCountsLastWins(entries, id);
    }
  }

  // ---------------------------------------------------------------------------
  // Carousel index arithmetic

  /** `nextSlide`'s (and the autoplay's) step: forward, wrapping the last slide to 0. */
  function NextSlideIndex(i: int, len: int): int
  {
    if i < len - 1 then i + 1 else 0
  }

  /** `prevSlide`'s step: back, wrapping slide 0 to the last. */
  function PrevSlideIndex(i: int, len: int): int
  {
    if i > 0 then i - 1 else len - 1
  }

  /** On an index in range the two steps are the carousel's modular successor and
      predecessor, so they stay in range and undo each other. */
  lemma SlideStepsAreCyclic(i: int, len: nat)
    requires 0 <= i < len
    ensures NextSlideIndex(i, len) == Cyclic.Succ(i, len)
    ensures PrevSlideIndex(i, len) == Cyclic.Pred(i, len)
    ensures 0 <= NextSlideIndex(i, len) < len && 0 <= PrevSlideIndex(i, len) < len
    ensures PrevSlideIndex(NextSlideIndex(i, len), len) == i
    ensures NextSlideIndex(PrevSlideIndex(i, len), len) == i
  {
  }

  /** The slide a completed swipe of `distance` (start minus end) leads to. */
  function SwipeIndex(distance: int, i: int, len: int): int
  {
    if distance > MinSwipeDistance then NextSlideIndex(i, len)
    else if distance < -MinSwipeDistance then PrevSlideIndex(i, len)
    else i
  }

  /** A swipe further than the threshold to the left moves one slide forward, one
      to the right moves one slide back, anything shorter stays; the index stays in range. */
  lemma SwipeSpec(distance: int, i: int, len: nat)
    requires 0 <= i < len
    ensures 0 <= SwipeIndex(distance, i, len) < len
    ensures distance > MinSwipeDistance ==> SwipeIndex(distance, i, len) == Cyclic.Succ(i, len)
    ensures distance < -MinSwipeDistance ==> SwipeIndex(distance, i, len) == Cyclic.Pred(i, len)
    ensures -MinSwipeDistance <= distance <= MinSwipeDistance ==> SwipeIndex(distance, i, len) == i
  {
  }

  // ---------------------------------------------------------------------------
  // The component's state

  /** The section's browsing state. Timers are ids: `armed` holds the resume timers
      the browser has scheduled and not yet run or cleared, `pauseTimer` is the
      component's reference to one of them, `nextTimerId` the id `setTimeout` hands
      out next. */
  class Carousel {
    var projects: seq<Project>
    var activeFilter: string
    var currentSlide: int
    var touchStart: int
    var touchEnd: int
    var isPaused: bool
    var pauseTimer: Option<nat>
    var armed: set<nat>
    var nextTimerId: nat

    /** The only armed resume timer is the referenced one, so at most one is pending. */
    ghost predicate Valid()
      reads this
    {
      && (pauseTimer.None? ==> armed == {})
      && (pauseTimer.Some? ==> armed == {pauseTimer.value})
      && (forall t :: t in armed ==> t < nextTimerId)
    }

    /** The slides on show: the first six projects of the active filter. */
    function Slides(): seq<Project>
      reads this
    {
      DisplayList(FilteredProjects(projects, activeFilter))
    }

    function SlideCount(): nat
      reads this
    {
      |Slides()|
    }

    /** The state at mount, over the list the data hooks deliver. */
    constructor (projects: seq<Project>)
      ensures Valid()
      ensures this.projects == projects && activeFilter == AllFilter
      ensures currentSlide == 0 && touchStart == 0 && touchEnd == 0
      ensures !isPaused && pauseTimer.None? && armed == {}
    {
      this.projects := projects;
      activeFilter := AllFilter;
      currentSlide := 0;
      touchStart, touchEnd := 0, 0;
      isPaused := false;
      pauseTimer := None;
      armed := {};
      nextTimerId := 1;
    }

    /** `pauseAutoSlide`: pause, clear the pending resume timer and arm a new one. */
    method PauseAutoSlide()
      requires Valid()
      modifies this`isPaused, this`pauseTimer, this`armed, this`nextTimerId
      ensures Valid() && isPaused
      ensures pauseTimer == Some(old(nextTimerId)) && armed == {old(nextTimerId)}
      ensures old(pauseTimer).Some? ==> old(pauseTimer).value !in armed
      ensures nextTimerId == old(nextTimerId) + 1
    {
      isPaused := true;
      if pauseTimer.Some? {
        armed := armed - {pauseTimer.value};
      }
      var id := nextTimerId;
      nextTimerId := nextTimerId + 1;
      armed := armed + {id};
      pauseTimer := Some(id);
    }

    /** The resume timer `id` runs: autoplay resumes and the reference is dropped. */
    method ResumeFire(id: nat)
      requires Valid() && id in armed
      modifies this`isPaused, this`pauseTimer, this`armed
      ensures Valid() && !isPaused && pauseTimer.None? && armed == {}
      ensures old(pauseTimer) == Some(id)
    {
      isPaused := false;
      pauseTimer := None;
      armed := armed - {id};
    }

    /** One autoplay interval tick. The interval exists only with more than one
      slide, and a tick while paused does nothing. */
    method Tick()
      modifies this`currentSlide
      ensures currentSlide == if SlideCount() > 1 && !isPaused
                              then NextSlideIndex(old(currentSlide), SlideCount())
                              else old(currentSlide)
    {
      if SlideCount() > 1 && !isPaused {
        currentSlide := NextSlideIndex(currentSlide, SlideCount());
      }
    }

    /** `goToSlide(index)` from a dot. */
    method GoToSlide(index: int)
      requires Valid()
      modifies this`currentSlide, this`isPaused, this`pauseTimer, this`armed, this`nextTimerId
      ensures Valid() && currentSlide == index
      ensures isPaused && pauseTimer == Some(old(nextTimerId)) && armed == {old(nextTimerId)}
      ensures nextTimerId == old(nextTimerId) + 1
    {
      currentSlide := index;
      PauseAutoSlide();
    }

    /** The "next" arrow. */
    method NextSlide()
      requires Valid()
      modifies this`currentSlide, this`isPaused, this`pauseTimer, this`armed, this`nextTimerId
      ensures Valid() && currentSlide == NextSlideIndex(old(currentSlide), SlideCount())
      ensures isPaused && pauseTimer == Some(old(nextTimerId)) && armed == {old(nextTimerId)}
      ensures nextTimerId == old(nextTimerId) + 1
    {
      if currentSlide < SlideCount() - 1 {
        currentSlide := currentSlide + 1;
      } else {
        currentSlide := 0;
      }
      PauseAutoSlide();
    }

    /** The "previous" arrow. */
    method PrevSlide()
      requires Valid()
      modifies this`currentSlide, this`isPaused, this`pauseTimer, this`armed, this`nextTimerId
      ensures Valid() && currentSlide == PrevSlideIndex(old(currentSlide), SlideCount())
      ensures isPaused && pauseTimer == Some(old(nextTimerId)) && armed == {old(nextTimerId)}
      ensures nextTimerId == old(nextTimerId) + 1
    {
      if currentSlide > 0 {
        currentSlide := currentSlide - 1;
      } else {
        currentSlide := SlideCount() - 1;
      }
      PauseAutoSlide();
    }

    /** `onTouchStart` at horizontal position `x`. */
    method TouchStart(x: int)
      requires Valid()
      modifies this`touchStart, this`touchEnd, this`isPaused, this`pauseTimer, this`armed, this`nextTimerId
      ensures Valid() && touchStart == x && touchEnd == 0
      ensures isPaused && pauseTimer == Some(old(nextTimerId)) && armed == {old(nextTimerId)}
      ensures nextTimerId == old(nextTimerId) + 1
    {
      touchEnd := 0;
      touchStart := x;
      PauseAutoSlide();
    }

    /** `onTouchMove` at horizontal position `x`. */
    method TouchMove(x: int)
      modifies this`touchEnd
      ensures touchEnd == x
    {
      touchEnd := x;
    }

    /** `onTouchEnd`. A gesture with a zero (unset) coordinate changes nothing but
      the coordinates; any other pauses autoplay and moves by `SwipeIndex`. */
    method TouchEnd()
      requires Valid()
      modifies this`currentSlide, this`touchStart, this`touchEnd, this`isPaused, this`pauseTimer, this`armed, this`nextTimerId
      ensures Valid() && touchStart == 0 && touchEnd == 0
      ensures old(touchStart) == 0 || old(touchEnd) == 0 ==>
        && currentSlide == old(currentSlide) && isPaused == old(isPaused)
        && pauseTimer == old(pauseTimer) && armed == old(armed) && nextTimerId == old(nextTimerId)
      ensures old(touchStart) != 0 && old(touchEnd) != 0 ==>
        && currentSlide == SwipeIndex(old(touchStart) - old(touchEnd), old(currentSlide), SlideCount())
        && isPaused && pauseTimer == Some(old(nextTimerId)) && armed == {old(nextTimerId)}
        && nextTimerId == old(nextTimerId) + 1
    {
      if touchStart == 0 || touchEnd == 0 {
        touchStart, touchEnd := 0, 0;
        return;
      }
      var distance := touchStart - touchEnd;
      var isLeftSwipe := distance > MinSwipeDistance;
      var isRightSwipe := distance < -MinSwipeDistance;
      var len: int := SlideCount();
      if isLeftSwipe && currentSlide < len - 1 {
        currentSlide := currentSlide + 1;
      } else if isLeftSwipe {
        currentSlide := 0;
      }
      if isRightSwipe && currentSlide > 0 {
        currentSlide := currentSlide - 1;
      } else if isRightSwipe {
        currentSlide := len - 1;
      }
      PauseAutoSlide();
      touchStart, touchEnd := 0, 0;
    }

    /** A chip click. Only an actual change of filter runs the reset effect: back
      to slide 0, autoplay resumed, the pending resume timer cleared. */
    method SelectFilter(filter: string)
      requires Valid()
      modifies this`activeFilter, this`currentSlide, this`isPaused, this`pauseTimer, this`armed
      ensures Valid() && activeFilter == filter
      ensures filter != old(activeFilter) ==> currentSlide == 0 && !isPaused && pauseTimer.None? && armed == {}
      ensures filter == old(activeFilter) ==>
        currentSlide == old(currentSlide) && isPaused == old(isPaused) && pauseTimer == old(pauseTimer) && armed == old(armed)
    {
      if filter != activeFilter {
        activeFilter := filter;
        currentSlide := 0;
        isPaused := false;
        if pauseTimer.Some? {
          armed := armed - {pauseTimer.value};
          pauseTimer := None;
        }
      }
    }

    /** New data from the hooks replaces the list; nothing else changes. */
    method ReceiveProjects(projects: seq<Project>)
      modifies this`projects
      ensures this.projects == projects
    {
      this.projects := projects;
    }
  }

  /** With the invariant, at most one resume timer is ever pending. */
  lemma AtMostOneResumeTimer(c: Carousel)
    requires c.Valid()
    ensures |c.armed| <= 1
  {
  }
}
