/**
 * The listing logic of the home page (app/page.tsx): normalising the fetched
 * project rows into card records, the page count, the window of page-number
 * buttons, the slice of projects shown on the current page, the previous/next
 * controls and the accordion of expandable sections.
 */
module HomePage {
  import opened Wrappers
  import opened Numerals
  import opened ProjectCard

  const ItemsPerPage: nat := 9
  const MaxVisiblePages: nat := 5

  // ---------------------------------------------------------------------------
  // Rows of the `project` table and their normalisation

  /** The `theme` column as it may arrive: an array, a single number, or null. */
  datatype RawTheme = ThemeArray(items: seq<int>) | ThemeNumber(n: int) | ThemeNull

  datatype RawProject = RawProject(
    id: int,
    title: Option<string>,
    description: Option<string>,
    theme: RawTheme,
    teamName: Option<string>,
    members: Option<seq<Member>>,
    thumbnail: Option<string>,
    demoUrl: Option<string>,
    sourceUrl: Option<string>,
    videoUrl: Option<string>)

  /** `Number(p.theme)` for a value that is not an array; `Number(null)` is 0. */
  function ThemeAsNumber(t: RawTheme): int
    requires !t.ThemeArray?
  {
    match t
    case ThemeNumber(n) => n
    case ThemeNull => 0
  }

  /** The card record for one row. */
  function ToCard(p: RawProject): (c: Project)
    ensures c.id == IntToString(p.id) && ParseBigInt(c.id) == Some(p.id)
    ensures c.description == p.description.GetOr("")
    ensures p.theme.ThemeArray? ==> c.theme == p.theme.items
    ensures !p.theme.ThemeArray? ==> c.theme == [ThemeAsNumber(p.theme)]
    ensures p.members.None? ==> c.members == []
    ensures p.members.Some? ==> c.members == p.members.value
    ensures p.thumbnail.None? ==> c.thumbnail == Placeholder
    ensures p.thumbnail.Some? ==> c.thumbnail == p.thumbnail.value
    ensures c.title == p.title.GetOr("") && c.teamName == p.teamName.GetOr("")
    ensures c.demoUrl == p.demoUrl && c.sourceUrl == p.sourceUrl && c.videoUrl == p.videoUrl
  {
    ParseIntToString(p.id);
    Project(
      IntToString(p.id),
      p.title.GetOr(""),
      p.description.GetOr(""),
      if p.theme.ThemeArray? then p.theme.items else [ThemeAsNumber(p.theme)],
      p.teamName.GetOr(""),
      p.members.GetOr([]),
      p.thumbnail.GetOr(Placeholder),
      p.demoUrl,
      p.sourceUrl,
      p.videoUrl)
  }

  /** The `map` over the fetched rows: one card per row, in the same order. */
  function ToCards(rows: seq<RawProject>): (cards: seq<Project>)
    ensures |cards| == |rows|
    ensures forall i :: 0 <= i < |rows| ==> cards[i] == ToCard(rows[i])
  {
    if rows == [] then [] else [ToCard(rows[0])] + ToCards(rows[1..])
  }

  /** What one fetch of the `project` table returned. */
  datatype FetchResult = FetchFailed | Fetched(data: Option<seq<RawProject>>)

  /** The projects list after a fetch: unchanged on error, `data || []` mapped otherwise. */
  function AfterFetch(current: seq<Project>, result: FetchResult): (projects: seq<Project>)
    ensures result.FetchFailed? ==> projects == current
    ensures result == Fetched(None) ==> projects == []
    ensures result.Fetched? && result.data.Some? ==>
              |projects| == |result.data.value|
              && forall i :: 0 <= i < |projects| ==> projects[i] == ToCard(result.data.value[i])
  {
    match result
    case FetchFailed => current
    case Fetched(data) => ToCards(data.GetOr([]))
  }

  /** Distinct rows with distinct ids give cards with distinct ids (the cards' React keys). */
  lemma CardIdsDistinct(rows: seq<RawProject>)
    requires forall i, j :: 0 <= i < j < |rows| ==> rows[i].id != rows[j].id
    ensures forall i, j :: 0 <= i < j < |rows| ==> ToCards(rows)[i].id != ToCards(rows)[j].id
  {
    forall i, j | 0 <= i < j < |rows| {
      IntToStringInjective(rows[i].id, rows[j].id);
    }
  }

  // ---------------------------------------------------------------------------
  // Pagination

  /** `Math.ceil(count / 9)`. */
  function TotalPages(count: nat): (pages: nat)
    ensures pages * ItemsPerPage >= count
    ensures pages > 0 ==> (pages - 1) * ItemsPerPage < count
  {
    (count + ItemsPerPage - 1) / ItemsPerPage
  }

  function Max(a: int, b: int): int { if a >= b then a else b }
  function Min(a: int, b: int): int { if a <= b then a else b }

  /** First and last page number of the button window. */
  function WindowStart(totalPages: nat, currentPage: int): int {
    if totalPages <= MaxVisiblePages then 1 else Max(1, currentPage - 2)
  }

  function WindowEnd(totalPages: nat, currentPage: int): int {
    if totalPages <= MaxVisiblePages then totalPages
    else Min(totalPages, WindowStart(totalPages, currentPage) + MaxVisiblePages - 1)
  }

  /** The consecutive integers lo, lo + 1, ..., hi (empty when hi < lo). */
  function Interval(lo: int, hi: int): (r: seq<int>)
    ensures |r| == if hi < lo then 0 else hi - lo + 1
    ensures forall i :: 0 <= i < |r| ==> r[i] == lo + i
    decreases hi - lo
  {
    if hi < lo then [] else Interval(lo, hi - 1) + [hi]
  }

  /** The page-number buttons shown for `currentPage` out of `totalPages`. */
  function PageNumbers(totalPages: nat, currentPage: int): (pages: seq<int>)
    ensures totalPages <= MaxVisiblePages ==> pages == Interval(1, totalPages)
    ensures |pages| <= MaxVisiblePages
    ensures forall i :: 0 <= i < |pages| ==> 1 <= pages[i] <= totalPages
    ensures forall i :: 0 < i < |pages| ==> pages[i] == pages[i - 1] + 1
    ensures totalPages > MaxVisiblePages && |pages| > 0 ==> pages[0] == Max(1, currentPage - 2)
    ensures totalPages > MaxVisiblePages && |pages| > 0 ==>
              pages[|pages| - 1] == Min(totalPages, pages[0] + MaxVisiblePages - 1)
    ensures 1 <= currentPage <= totalPages ==> currentPage in pages
  {
    var pages := Interval(WindowStart(totalPages, currentPage), WindowEnd(totalPages, currentPage));
    assert 1 <= currentPage <= totalPages ==> pages[currentPage - WindowStart(totalPages, currentPage)] == currentPage;
    pages
  }

  /** Past the third page the window is never shorter than three buttons, and never hides the current page. */
  lemma WindowNearTheEnd(totalPages: nat, currentPage: int)
    requires totalPages > MaxVisiblePages && 1 <= currentPage <= totalPages
    ensures 3 <= |PageNumbers(totalPages, currentPage)|
    ensures currentPage == totalPages ==> |PageNumbers(totalPages, currentPage)| == 3
  {
  }

  /** `getPageNumbers`: builds the button list with the two `for` loops of the page. */
  method GetPageNumbers(totalPages: nat, currentPage: int) returns (pages: seq<int>)
    ensures pages == PageNumbers(totalPages, currentPage)
  {
    pages := [];
    if totalPages <= MaxVisiblePages {
      var i := 1;
      while i <= totalPages
        invariant 1 <= i <= totalPages + 1
        invariant pages == Interval(1, i - 1)
      {
        pages := pages + [i];
        i := i + 1;
      }
    } else {
      var start := Max(1, currentPage - 2);
      var end := Min(totalPages, start + MaxVisiblePages - 1);
      var i := start;
      while i <= end
        invariant start <= i <= Max(start, end + 1)
        invariant pages == Interval(start, i - 1)
      {
        pages := pages + [i];
        i := i + 1;
      }
    }
  }

  /** JavaScript `Array.prototype.slice`: negative positions count from the end, all are clamped. */
  function SlicePosition(len: nat, k: int): (p: nat)
    ensures p <= len
  {
    if k < 0 then Max(len + k, 0) else Min(k, len)
  }

  function JsSlice<T>(s: seq<T>, start: int, end: int): (r: seq<T>)
    ensures |r| <= |s|
  {
    var from, to := SlicePosition(|s|, start), SlicePosition(|s|, end);
    if from < to then s[from..to] else []
  }

  /** The lazily grown prefix kept in `displayedProjects` for the current page. */
  function DisplayedProjects<T>(projects: seq<T>, currentPage: int): seq<T> {
    JsSlice(projects, 0, (currentPage - 1) * ItemsPerPage + ItemsPerPage)
  }

  /** The cards rendered: the current page's slice of `displayedProjects`. */
  function PageItems<T>(projects: seq<T>, currentPage: int): seq<T> {
    JsSlice(DisplayedProjects(projects, currentPage), (currentPage - 1) * ItemsPerPage, currentPage * ItemsPerPage)
  }

  /** The two-stage slice is the page's own slice of the project list: at most nine items, non-empty on every page. */
  lemma PageItemsIsPageSlice<T>(projects: seq<T>, currentPage: int)
    requires currentPage >= 1
    ensures PageItems(projects, currentPage) == JsSlice(projects, (currentPage - 1) * ItemsPerPage, currentPage * ItemsPerPage)
    ensures |PageItems(projects, currentPage)| <= ItemsPerPage
    ensures currentPage <= TotalPages(|projects|) ==>
              PageItems(projects, currentPage) == projects[(currentPage - 1) * ItemsPerPage .. Min(|projects|, currentPage * ItemsPerPage)]
              && |PageItems(projects, currentPage)| > 0
  {
    var lo, hi := (currentPage - 1) * ItemsPerPage, currentPage * ItemsPerPage;
    var shown := DisplayedProjects(projects, currentPage);
    assert shown == projects[..Min(|projects|, hi)];
    if lo < Min(|projects|, hi) {
      assert shown[lo..Min(|projects|, hi)] == projects[lo..Min(|projects|, hi)];
    }
  }

  /** Pages 1 to k, one after the other, list the first 9k projects. */
  lemma {:induction false} PagesConcatenate<T>(projects: seq<T>, k: nat)
    ensures Concat(projects, k) == projects[..Min(|projects|, k * ItemsPerPage)]
  {
    if k > 0 {
      PagesConcatenate(projects, k - 1);
      PageItemsIsPageSlice(projects, k);
      var lo, hi := Min(|projects|, (k - 1) * ItemsPerPage), Min(|projects|, k * ItemsPerPage);
      assert projects[..hi] == projects[..lo] + projects[lo..hi];
    }
  }

  function Concat<T>(projects: seq<T>, k: nat): seq<T> {
    if k == 0 then [] else Concat(projects, k - 1) + PageItems(projects, k)
  }

  /** Every project is shown on exactly one page: the pages in order are the whole list. */
  lemma PagesCoverAllProjects<T>(projects: seq<T>)
    ensures Concat(projects, TotalPages(|projects|)) == projects
  {
    PagesConcatenate(projects, TotalPages(|projects|));
  }

  /** The pagination controls, drawn only when there is more than one page. */
  datatype PageControl = Previous | Next | PageButton(page: int)

  function ControlsShown(totalPages: nat): bool {
    totalPages > 1
  }

  function PreviousDisabled(currentPage: int): bool {
    currentPage == 1
  }

  function NextDisabled(totalPages: nat, currentPage: int): bool {
    currentPage == totalPages
  }

  /** The current page after pressing a control; a disabled or absent control changes nothing. */
  function Press(totalPages: nat, currentPage: int, control: PageControl): (next: int)
    ensures 1 <= currentPage <= Max(1, totalPages) ==> 1 <= next <= Max(1, totalPages)
    ensures control == Previous && ControlsShown(totalPages) ==> (next == currentPage <==> PreviousDisabled(currentPage))
    ensures control == Next && ControlsShown(totalPages) ==> (next == currentPage <==> NextDisabled(totalPages, currentPage))
    ensures control == Previous && ControlsShown(totalPages) && !PreviousDisabled(currentPage) ==> next == currentPage - 1
    ensures control == Next && ControlsShown(totalPages) && !NextDisabled(totalPages, currentPage) ==> next == currentPage + 1
    ensures control.PageButton? && ControlsShown(totalPages) && control.page in PageNumbers(totalPages, currentPage) ==>
              next == control.page
    ensures !ControlsShown(totalPages) ==> next == currentPage
  {
    if !ControlsShown(totalPages) then currentPage
    else match control
      case Previous => if PreviousDisabled(currentPage) then currentPage else currentPage - 1
      case Next => if NextDisabled(totalPages, currentPage) then currentPage else currentPage + 1
      case PageButton(p) => if p in PageNumbers(totalPages, currentPage) then p else currentPage
  }

  function PressAll(totalPages: nat, currentPage: int, controls: seq<PageControl>): int
    decreases |controls|
  {
    if controls == [] then currentPage
    else PressAll(totalPages, Press(totalPages, currentPage, controls[0]), controls[1..])
  }

  /** From the first page, any sequence of clicks keeps the current page between 1 and the page count. */
  lemma {:induction false} PagesStayInRange(totalPages: nat, currentPage: int, controls: seq<PageControl>)
    requires 1 <= currentPage <= Max(1, totalPages)
    ensures 1 <= PressAll(totalPages, currentPage, controls) <= Max(1, totalPages)
    decreases |controls|
  {
    if controls != [] {
      PagesStayInRange(totalPages, Press(totalPages, currentPage, controls[0]), controls[1..]);
    }
  }

  // ---------------------------------------------------------------------------
  // The accordion of expandable sections

  /** `toggleSection`: opening a section closes every other one; toggling an open section closes all. */
  function ToggleSection(expanded: set<string>, sectionId: string): (r: set<string>)
    ensures |r| <= 1
    ensures sectionId in r <==> sectionId !in expanded
    ensures forall other :: other in r ==> other == sectionId
  {
    if sectionId in expanded then {} else {sectionId}
  }

  /** Toggling the same closed section twice closes everything again. */
  lemma ToggleTwiceClosesAll(expanded: set<string>, sectionId: string)
    requires sectionId !in expanded
    ensures ToggleSection(ToggleSection(expanded, sectionId), sectionId) == {}
  {
  }
}
