# Project browsing state of the Q8 Design site, in Dafny

This project models the client-side browsing logic of the Q8 Design portfolio site:

- the home page's project section (`ProjectsSection`): the case-insensitive category filter, the six-project carousel/grid, the filter-chip counts folded from the API's `categoryCounts`, and the mobile carousel with its autoplay tick, pause flag, single resume timer and swipe gestures;
- the projects page (`ProjectsPage`): nine-per-page client-side pagination, the "1 … p-1 p p+1 … last" page bar, previous/next clamping, the page reset on filter or search change, the chip counts and the featured sublist;
- the hero carousel (`HeroSection`): modular next/previous, dots, unconditional autoplay, the consultation modal and the call-to-action dispatch;
- the testimonial carousel (`TestimonialsSection`);
- the editor's image-embed popover (`EmbedImage`).

Pure derivations (filtering, slicing, counting, page arithmetic) are Dafny functions with lemmas. Each component's React state is a class whose fields are the `useState` variables. Its handlers are methods that state the whole new state. Timers are discrete events: the autoplay `Tick`, and `ResumeFire` for the resume timer. The data hooks' output is a plain input sequence.

Shared modules: `Wrappers` (Option, string truthiness), `Seqs` (`Array.prototype.filter` and `slice`, subsequence), `Cyclic` (wrap-around index arithmetic), `JsText` (`toLowerCase` on ASCII letters, `trim`), `Records` (the project record).

## Model

| member | source | states |
|---|---|---|
| `ProjectsSection.FilteredProjectsSpec` | components/q8design/ProjectsSection.jsx:100-106 | with "all" the list is the input; otherwise it holds exactly the projects with a non-empty category equal to the filter ignoring case, each as often as in the input, as an order-preserving subsequence |
| `ProjectsSection.DisplayList` | components/q8design/ProjectsSection.jsx:108 | the shown list is the prefix of the filtered list of length min(6, length) |
| `ProjectsSection.ProjectsForView` | components/q8design/ProjectsSection.jsx:58-63 | the full list is used exactly when it has loaded and is non-empty; while it is loading or empty the featured list is used; an empty view means both sources gave nothing usable |
| `ProjectsSection.CountsFromApi` | components/q8design/ProjectsSection.jsx:70-86 | the `forEach` loop builds exactly the fold of the entries in order; an absent array gives the empty map |
| `ProjectsSection.FoldCountsKeys` | components/q8design/ProjectsSection.jsx:73-85 | a key is in the map iff some non-null entry has that truthy `_id` |
| `ProjectsSection.FoldCountsLastWins` | components/q8design/ProjectsSection.jsx:73-85 | a key's value in the map is the count (missing count read as 0) of the last entry carrying that `_id`: later entries overwrite earlier ones |
| `ProjectsSection.TotalAll` | components/q8design/ProjectsSection.jsx:87 | the "all" total is the API's reported count when there is one, even 0, else the length of the full list |
| `ProjectsSection.FilterChipsFromApi` | components/q8design/ProjectsSection.jsx:92-98 | the "all" chip shows the total; each category chip shows 0 when no API entry carries its id, and otherwise the count of the last entry that does |
| `ProjectsSection.SlideStepsAreCyclic` | components/q8design/ProjectsSection.jsx:181-197 | on an in-range index, next and previous are the modular successor and predecessor, stay in range and undo each other |
| `ProjectsSection.SwipeSpec` | components/q8design/ProjectsSection.jsx:206-220 | a swipe of more than 50 moves forward with wrap, less than -50 moves back with wrap, anything within ±50 stays; the index stays in range |
| `ProjectsSection.Carousel.constructor` | components/q8design/ProjectsSection.jsx:9-16 | filter "all", slide 0, touch coordinates 0, not paused, no resume timer |
| `ProjectsSection.Carousel.PauseAutoSlide` | components/q8design/ProjectsSection.jsx:163-174 | sets paused, cancels the pending resume timer if any and arms exactly one new one, which is then the only armed timer |
| `ProjectsSection.Carousel.ResumeFire` | components/q8design/ProjectsSection.jsx:170-173 | the firing timer is the referenced one; paused is cleared and no timer remains |
| `ProjectsSection.AtMostOneResumeTimer` | components/q8design/ProjectsSection.jsx:163-174 | under the invariant every handler keeps, at most one resume timer is pending |
| `ProjectsSection.Carousel.Tick` | components/q8design/ProjectsSection.jsx:131-147 | with more than one slide and not paused, the index advances with wrap; otherwise nothing changes |
| `ProjectsSection.Carousel.GoToSlide` | components/q8design/ProjectsSection.jsx:176-179 | the index becomes the dot's, and autoplay is paused with one fresh resume timer |
| `ProjectsSection.Carousel.NextSlide` | components/q8design/ProjectsSection.jsx:181-188 | i+1 below the last slide, else 0; pauses with one fresh resume timer |
| `ProjectsSection.Carousel.PrevSlide` | components/q8design/ProjectsSection.jsx:190-197 | i-1 above 0, else the last slide; pauses with one fresh resume timer |
| `ProjectsSection.Carousel.TouchStart` | components/q8design/ProjectsSection.jsx:152-156 | records the start, clears the end, pauses with one fresh resume timer |
| `ProjectsSection.Carousel.TouchMove` | components/q8design/ProjectsSection.jsx:158-160 | records the end coordinate |
| `ProjectsSection.Carousel.TouchEnd` | components/q8design/ProjectsSection.jsx:199-226 | with a zero coordinate nothing but the coordinates changes and there is no pause; otherwise the index moves by the swipe rule and autoplay pauses; both coordinates end at 0 |
| `ProjectsSection.Carousel.SelectFilter` | components/q8design/ProjectsSection.jsx:111-119 | a real change of filter resets the index to 0, clears paused and cancels the pending resume timer; re-selecting the same chip changes nothing |
| `ProjectsSection.Carousel.ReceiveProjects` | components/q8design/ProjectsSection.jsx:58-65 | new data replaces the list and leaves the index as it was |
| `ProjectsPage.TotalPages` | components/q8design/ProjectsPage.jsx:40 | the fewest pages of nine holding n projects: n ≤ 9t and 9(t-1) < n; zero pages exactly for an empty list |
| `ProjectsPage.PaginationBarShown` | components/q8design/ProjectsPage.jsx:267 | the page bar renders iff there are more than nine projects |
| `ProjectsPage.PageContents` | components/q8design/ProjectsPage.jsx:41-43 | page p is the contiguous run `all[(p-1)*9 .. (p-1)*9+9)` clipped to the list, at most nine projects; pages past the last are empty |
| `ProjectsPage.ConcatPagesIsPrefix` | components/q8design/ProjectsPage.jsx:41-43 | the first k pages laid end to end are the first 9k projects |
| `ProjectsPage.PagesPartitionList` | components/q8design/ProjectsPage.jsx:40-43 | pages 1..totalPages laid end to end give back the whole list, each project once and in order |
| `ProjectsPage.PageOfProject` | components/q8design/ProjectsPage.jsx:40-43 | project j is item j mod 9 of page j div 9 + 1, which is an existing page |
| `ProjectsPage.PageNavigationInRange` | components/q8design/ProjectsPage.jsx:269-323 | from a page in [1, totalPages] both buttons stay in range, are clamped at the ends and undo each other away from the ends |
| `ProjectsPage.PageBarButtons` | components/q8design/ProjectsPage.jsx:283-310 | a page gets a button iff it is the first, the last or within one of the current page; it gets an ellipsis iff it has no button and is exactly two away from the current page; each slot carries its own page number |
| `ProjectsPage.PageBarMarksEveryGap` | components/q8design/ProjectsPage.jsx:283-310 | every hidden page is in a stretch with an ellipsis and no button between the two |
| `ProjectsPage.CategoryCount` | components/q8design/ProjectsPage.jsx:55-58 | a category count, an exact case-sensitive match count, never exceeds the list length |
| `ProjectsPage.FilterChips` | components/q8design/ProjectsPage.jsx:53-59 | five chips, the first being "all" with the list length |
| `ProjectsPage.CategoryCountsBounded` | components/q8design/ProjectsPage.jsx:54-58 | counts for distinct category ids sum to at most the list length: no project is counted twice |
| `ProjectsPage.ChipCountsBounded` | components/q8design/ProjectsPage.jsx:53-59 | the four category chips together count at most the "all" chip |
| `ProjectsPage.FeaturedProjectsSpec` | components/q8design/ProjectsPage.jsx:50 | the featured list holds exactly the featured projects, with their multiplicity, in list order |
| `ProjectsPage.PageState.constructor` | components/q8design/ProjectsPage.jsx:19-22 | filter "all", empty search, page 1 |
| `ProjectsPage.PageState.SelectFilter` | components/q8design/ProjectsPage.jsx:46-48 | a change of filter resets the page to 1; the same filter leaves it |
| `ProjectsPage.PageState.SetSearch` | components/q8design/ProjectsPage.jsx:46-48 | a change of search term resets the page to 1; the same term leaves it |
| `ProjectsPage.PageState.ViewAll` | components/q8design/ProjectsPage.jsx:245-248 | filter becomes "all" and search "", and the page goes back to 1 if either changed |
| `ProjectsPage.PageState.ClearSearch` | components/q8design/ProjectsPage.jsx:255 | only the search is cleared, with the page reset if it changed |
| `ProjectsPage.PageState.PrevPage` | components/q8design/ProjectsPage.jsx:271 | page becomes max(1, p-1) |
| `ProjectsPage.PageState.NextPage` | components/q8design/ProjectsPage.jsx:315 | page becomes min(totalPages, p+1) and stays at least 1 |
| `ProjectsPage.PageState.GoToPage` | components/q8design/ProjectsPage.jsx:293 | a page button sets that page |
| `ProjectsPage.PageState.ReceiveProjects` | components/q8design/ProjectsPage.jsx:25-37 | a fetch result replaces the list and keeps the page |
| `Cyclic.Succ` | components/q8design/HeroSection.jsx:62-64 | `(i+1) % n` stays in [0, n): i+1 below the last slide, 0 after it |
| `Cyclic.Pred` | components/q8design/HeroSection.jsx:66-68 | `(i-1+n) % n` stays in [0, n): i-1 above 0, the last slide from 0 |
| `Cyclic.SuccPredInverse` | components/q8design/HeroSection.jsx:62-68 | previous after next, and next after previous, return to the same slide |
| `Cyclic.AdvanceWithinTwoTurns` | components/q8design/HeroSection.jsx:50-55 | k autoplay ticks from i land on i+k, wrapped once past the last slide |
| `Cyclic.FullCycle` | components/q8design/HeroSection.jsx:50-55 | n ticks return to the starting slide |
| `HeroSection.OnlyThirdSlideOpensForm` | components/q8design/HeroSection.jsx:13-47 | exactly the third slide has no link |
| `HeroSection.HeroCarousel.constructor` | components/q8design/HeroSection.jsx:9-10 | form closed, first slide |
| `HeroSection.HeroCarousel.NextSlide` | components/q8design/HeroSection.jsx:62-64 | the index becomes the modular successor and stays on a slide |
| `HeroSection.HeroCarousel.PrevSlide` | components/q8design/HeroSection.jsx:66-68 | the index becomes the modular predecessor and stays on a slide |
| `HeroSection.HeroCarousel.AutoplayTick` | components/q8design/HeroSection.jsx:50-55 | every tick advances, with no pause state |
| `HeroSection.HeroCarousel.GoToSlide` | components/q8design/HeroSection.jsx:186-189 | a dot sets the index to its position, which is on a slide |
| `HeroSection.HeroCarousel.ToggleForm` | components/q8design/HeroSection.jsx:80-82 | flips the form flag, so two toggles restore it |
| `HeroSection.HeroCarousel.KeyDown` | components/q8design/HeroSection.jsx:85-94 | Escape closes an open form; a closed form has no listener, so nothing changes |
| `HeroSection.HeroCarousel.BackdropClick` | components/q8design/HeroSection.jsx:253-255 | a click on the backdrop itself closes the form; a click inside the dialog does not |
| `HeroSection.HeroCarousel.CloseButton` | components/q8design/HeroSection.jsx:259-263 | the close button closes the open form |
| `HeroSection.HeroCarousel.CtaClick` | components/q8design/HeroSection.jsx:71-77 | a slide with a link navigates there and leaves the form alone; the slide without one toggles the form |
| `TestimonialsSection.StepsAreCyclic` | components/q8design/TestimonialsSection.jsx:48-58 | next maps n-1 to 0 and otherwise adds 1; prev maps 0 to n-1 and otherwise subtracts 1; both stay in range and are mutual inverses |
| `TestimonialsSection.PressNextIsAdvance` | components/q8design/TestimonialsSection.jsx:48-52 | k presses of next are k steps round the carousel |
| `TestimonialsSection.PressNextFullCycle` | components/q8design/TestimonialsSection.jsx:8-52 | three presses of next return to the starting testimonial |
| `TestimonialsSection.TestimonialCarousel.constructor` | components/q8design/TestimonialsSection.jsx:6 | starts on the first testimonial |
| `TestimonialsSection.TestimonialCarousel.NextTestimonial` | components/q8design/TestimonialsSection.jsx:48-52 | applies the next step and keeps the index in range |
| `TestimonialsSection.TestimonialCarousel.PrevTestimonial` | components/q8design/TestimonialsSection.jsx:54-58 | applies the prev step and keeps the index in range |
| `TestimonialsSection.TestimonialCarousel.SelectDot` | components/q8design/TestimonialsSection.jsx:162-165 | a dot sets the index to its position |
| `TestimonialsSection.TestimonialCarousel.CurrentData` | components/q8design/TestimonialsSection.jsx:60 | the lookup is always defined and yields the testimonial at the index |
| `JsText.TrimStart` | components/editor/ToolBar/EmbedImage.tsx:15 | drops exactly the leading JavaScript whitespace |
| `JsText.TrimEnd` | components/editor/ToolBar/EmbedImage.tsx:15 | drops exactly the trailing JavaScript whitespace |
| `JsText.TrimEmptyIffBlank` | components/editor/ToolBar/EmbedImage.tsx:15 | `url.trim()` is empty iff the url is whitespace only |
| `EmbedImage.SubmitOutcomeSpec` | components/editor/ToolBar/EmbedImage.tsx:14-21 | `onSubmit` is called iff the url has a non-whitespace character, and then with the untrimmed url and the caption |
| `EmbedImage.EmbedImageForm.constructor` | components/editor/ToolBar/EmbedImage.tsx:10-12 | url "", alt "", hidden |
| `EmbedImage.EmbedImageForm.HandleSubmit` | components/editor/ToolBar/EmbedImage.tsx:14-21 | always hides; a blank url sends nothing and keeps both fields; otherwise sends one call and clears both fields |
| `EmbedImage.EmbedImageForm.ShowForm` | components/editor/ToolBar/EmbedImage.tsx:24 | shows the form |
| `EmbedImage.EmbedImageForm.HideForm` | components/editor/ToolBar/EmbedImage.tsx:23 | hides the form and keeps url and alt; hiding is idempotent |
| `EmbedImage.EmbedImageForm.ToggleButton` | components/editor/ToolBar/EmbedImage.tsx:33 | the toolbar button flips visibility |
| `EmbedImage.EmbedImageForm.KeyDown` | components/editor/ToolBar/EmbedImage.tsx:28-30 | Escape hides without clearing; other keys change nothing |
| `EmbedImage.EmbedImageForm.Cancel` | components/editor/ToolBar/EmbedImage.tsx:63 | Cancel hides without clearing |
| `EmbedImage.EmbedImageForm.SetUrl` | components/editor/ToolBar/EmbedImage.tsx:46 | the url field takes the typed value |
| `EmbedImage.EmbedImageForm.SetAlt` | components/editor/ToolBar/EmbedImage.tsx:53 | the caption field takes the typed value |

## Known gaps

Facts about the code that a reader might not expect. The model states each of them as written:

- `totalPages` is 0 for an empty list; it is not clamped to 1 (ProjectsPage.jsx:40).
- The section carousel's index is reset only by a filter change. It is not clamped or reset when new data arrives (ProjectsSection.jsx:111-119).
- A gesture end with an unset (zero) coordinate neither pauses autoplay nor moves (ProjectsSection.jsx:200-204).
- The image-embed popover passes the url untrimmed to `onSubmit`. Trimming only decides whether to call it (EmbedImage.tsx:15-17).
- The projects page has no client-side search predicate: the filter and the search term are sent to the server through the data hook (ProjectsPage.jsx:25-37), which is not part of this model, so how overlapping fetches are ordered is not modelled.

## Left out

- JSX markup, styling, icons, images and layout breakpoints: rendering only.
- The `useProjects` data hook and its fetch: network I/O. Its result is an input sequence, given to the constructors and to `ReceiveProjects`. The loading and error flags and the retry button's page reload are left out too (ProjectsSection.jsx:66-67, ProjectsPage.jsx:61-90).
- `router.push`: the model returns it as a `Navigate` effect and does not follow it. `ContactForm` is left out.
- Timer durations (5 s autoplay, 8 s resume), React effect scheduling and unmount cleanup: ticks and timer firings are discrete events.
- The legacy `displayProjects` state effect (ProjectsSection.jsx:48-55): it is written but never read for rendering.
- The completion-count map (ProjectsSection.jsx:79-86): `CountsFromApi` is the same loop, but no chip displays that map.
- `toLowerCase` is modelled on ASCII letters only. The category ids compared are ASCII.
- Touch coordinates are integers. The browser's `clientX` may be fractional, which makes no difference to the comparisons with ±50 except at the exact threshold.
- `Math.ceil(n / 9)` is computed on integers. For list lengths up to the fetch limit of 100 the floating-point division gives the same result.
- The hero's `%` is JavaScript's truncating remainder. It agrees with Dafny's `%` here because the invariant keeps both operands non-negative.
- ProjectsSection.Carousel.PrevSlide: with zero slides the source sets the index to -1. The arrows render only with more than one slide, so this is never reached. The model states the source's value and does not prove the index stays in range after new data arrives (see "Known gaps"). `NextSlide` and `PrevSlide` are bound only to the two mobile arrows (ProjectsSection.jsx:368, 378); the desktop view is a plain grid with no arrows (ProjectsSection.jsx:409-474). Those arrows are `disabled` on the first and the last slide (ProjectsSection.jsx:369, 379), so no arrow click reaches a wrap branch while the index is on a slide: only the autoplay tick (ProjectsSection.jsx:136-141) and a swipe (ProjectsSection.jsx:212-219) wrap, and the next arrow's else-branch runs only with a stale index at or above the length after new data. The model lets either event happen on any slide, which admits more behaviour than the page offers.
- ProjectsPage.PageState.PrevPage and ProjectsPage.PageState.NextPage require more than one page: the buttons render only then (ProjectsPage.jsx:267).
