/**
 * The tower table (TorresTable.jsx): the search filter, the fixed-size
 * pagination with its "Mostrando" range, the two badge lookups, and the
 * `searchTerm`/`currentPage` component state with its pager steps.
 */
module TorresTable {
  import opened Wrappers
  import opened Seqs
  import opened Towers
  import opened Search

  // --------------------------------------------------------------- filtering

  /** `torres.filter(...)` with the table's search predicate. */
  function FilteredTorres(torres: seq<Tower>, searchTerm: string): (r: seq<Tower>)
    ensures forall t :: t in r <==> t in torres && TextMatch(t, searchTerm)
    ensures IsSubseq(r, torres)
    ensures forall t :: multiset(r)[t] == if TextMatch(t, searchTerm) then multiset(torres)[t] else 0
  {
    var keep := (t: Tower) => TextMatch(t, searchTerm);
    assert forall t :: t in Filter(torres, keep) <==> t in torres && TextMatch(t, searchTerm) by {
      forall t ensures t in Filter(torres, keep) <==> t in torres && TextMatch(t, searchTerm) {
        FilterMembers(torres, keep, t);
      }
    }
    assert forall t :: multiset(Filter(torres, keep))[t] == if TextMatch(t, searchTerm) then multiset(torres)[t] else 0 by {
      forall t ensures multiset(Filter(torres, keep))[t] == if TextMatch(t, searchTerm) then multiset(torres)[t] else 0 {
        FilterMultiplicity(torres, keep, t);
      }
    }
    FilterIsSubseq(torres, keep);
    Filter(torres, keep)
  }

  /** With an empty search box the table lists every tower that has a name, an address or an id. */
  lemma EmptySearchKeeps(torres: seq<Tower>, t: Tower)
    requires t in torres
    ensures t in FilteredTorres(torres, "") <==> t.nombre.Some? || t.direccion.Some? || t.id.Some?
  {
    EmptyTermMatch(t);
  }

  // -------------------------------------------------------------- pagination

  const ItemsPerPage: nat := 10

  function Min(a: int, b: int): int { if a <= b then a else b }
  function Max(a: int, b: int): int { if a >= b then a else b }

  /** `Math.ceil(n / itemsPerPage)`: the least page count that holds `n` rows. */
  function TotalPages(n: nat): (r: nat)
    ensures r * ItemsPerPage >= n
    ensures r == 0 || (r - 1) * ItemsPerPage < n
  {
    (n + ItemsPerPage - 1) / ItemsPerPage
  }

  /** `(currentPage - 1) * itemsPerPage` */
  function StartIndex(page: int): int {
    (page - 1) * ItemsPerPage
  }

  /**
   * `Array.prototype.slice(start, end)` for `0 <= start`: both ends are
   * clamped to the length, and an end before the start gives nothing.
   */
  function Slice<T>(s: seq<T>, start: nat, end: int): (r: seq<T>)
    ensures start >= |s| || end <= start ==> r == []
    ensures start < |s| && start < end ==> r == s[start..Min(end, |s|)]
  {
    var hi := Min(end, |s|);
    if start >= |s| || hi <= start then [] else s[start..hi]
  }

  /** `paginatedTorres` for page `page` (pages are counted from 1). */
  function Page(filtered: seq<Tower>, page: int): (r: seq<Tower>)
    requires page >= 1
    ensures |r| <= ItemsPerPage
    ensures forall i :: 0 <= i < |r| ==> StartIndex(page) + i < |filtered| && r[i] == filtered[StartIndex(page) + i]
  {
    Slice(filtered, StartIndex(page), StartIndex(page) + ItemsPerPage)
  }

  /** Pages `1..k`, one after another. */
  function Pages(filtered: seq<Tower>, k: nat): seq<Tower> {
    if k == 0 then [] else Pages(filtered, k - 1) + Page(filtered, k)
  }

  /** The first `k` pages hold exactly the first `10 * k` rows (or all of them). */
  lemma {:induction false} PagesPrefix(filtered: seq<Tower>, k: nat)
    ensures Pages(filtered, k) == filtered[..Min(k * ItemsPerPage, |filtered|)]
  {
    if k > 0 {
      PagesPrefix(filtered, k - 1);
      var start := StartIndex(k);
      assert start == (k - 1) * ItemsPerPage && k * ItemsPerPage == start + ItemsPerPage;
      var lo := Min(start, |filtered|);
      var hi := Min(start + ItemsPerPage, |filtered|);
      assert Page(filtered, k) == filtered[lo..hi];
      assert filtered[..lo] + filtered[lo..hi] == filtered[..hi];
    }
  }

  /** Reading every page in turn shows every filtered row once, in order. */
  lemma PagesCoverFiltered(filtered: seq<Tower>)
    ensures Pages(filtered, TotalPages(|filtered|)) == filtered
  {
    PagesPrefix(filtered, TotalPages(|filtered|));
  }

  /** Every page before the last is full; the last holds the remainder. */
  lemma PageSizes(filtered: seq<Tower>, page: int)
    requires 1 <= page <= TotalPages(|filtered|)
    ensures page < TotalPages(|filtered|) ==> |Page(filtered, page)| == ItemsPerPage
    ensures page == TotalPages(|filtered|) ==> |Page(filtered, page)| == |filtered| - StartIndex(page)
    ensures |Page(filtered, page)| > 0
  {
  }

  /** A page past the last one is empty (the page is not reset when the search narrows the list). */
  lemma PageBeyondLastIsEmpty(filtered: seq<Tower>, page: int)
    requires page > TotalPages(|filtered|)
    ensures Page(filtered, page) == []
  {
  }

  /**
   * The "Mostrando {from} a {to} de {n}" line: on an existing page it counts
   * exactly the rows shown, and past the last page `to` falls below `from`.
   */
  function ShownFrom(page: int): int { StartIndex(page) + 1 }
  function ShownTo(page: int, n: nat): int { Min(StartIndex(page) + ItemsPerPage, n) }

  lemma ShownRangeCountsRows(filtered: seq<Tower>, page: int)
    requires page >= 1
    ensures page <= TotalPages(|filtered|) ==>
              1 <= ShownFrom(page) <= ShownTo(page, |filtered|) <= |filtered| &&
              ShownTo(page, |filtered|) - ShownFrom(page) + 1 == |Page(filtered, page)|
    ensures page > TotalPages(|filtered|) ==> ShownTo(page, |filtered|) < ShownFrom(page)
  {
  }

  // ------------------------------------------------------------------ badges

  const StatusColors: map<string, string> := map[
    "operativa" := "bg-green-100 text-green-800 border-green-200",
    "mantenimiento" := "bg-yellow-100 text-yellow-800 border-yellow-200",
    "limitada" := "bg-orange-100 text-orange-800 border-orange-200",
    "inactiva" := "bg-red-100 text-red-800 border-red-200"]

  const StatusLabels: map<string, string> := map[
    "operativa" := "Operativa",
    "mantenimiento" := "Mantenimiento",
    "limitada" := "Limitada",
    "inactiva" := "Inactiva"]

  const ConvenioColors: map<string, string> := map[
    "Policia" := "bg-blue-100 text-blue-800 border-blue-200",
    "Ecom" := "bg-red-100 text-red-800 border-red-200",
    "De tercero" := "bg-yellow-100 text-yellow-800 border-yellow-200"]

  const ConvenioGray := "bg-gray-100 text-gray-800 border-gray-200"

  /** `StatusBadge` colours: a known state's own colours, anything else the `inactiva` ones. */
  function StatusColor(estado: Option<string>): (r: string)
    ensures estado.Some? && estado.value in StatusColors ==> r == StatusColors[estado.value]
    ensures !(estado.Some? && estado.value in StatusColors) ==> r == StatusColors["inactiva"]
  {
    if estado.Some? && estado.value in StatusColors then StatusColors[estado.value] else StatusColors["inactiva"]
  }

  /** `StatusBadge` label: a known state's label, anything else `'Desconocido'`. */
  function StatusLabel(estado: Option<string>): (r: string)
    ensures estado.Some? && estado.value in StatusLabels ==> r == StatusLabels[estado.value]
    ensures !(estado.Some? && estado.value in StatusLabels) ==> r == "Desconocido"
  {
    if estado.Some? && estado.value in StatusLabels then StatusLabels[estado.value] else "Desconocido"
  }

  /**
   * An unknown state is drawn in the `inactiva` colours but is told apart by
   * its label; the four known states have four different colours.
   */
  lemma StatusBadgeDefaults(estado: Option<string>)
    ensures !(estado.Some? && estado.value in StatusColors) ==>
              StatusColor(estado) == StatusColor(Some("inactiva")) &&
              StatusLabel(estado) == "Desconocido" != StatusLabel(Some("inactiva"))
    ensures forall a, b :: a in StatusColors && b in StatusColors && a != b ==> StatusColors[a] != StatusColors[b]
  {
  }

  /** `ConvenioBadge` colours: the three agreement types, gray otherwise. */
  function ConvenioColor(tipoConvenio: Option<string>): (r: string)
    ensures tipoConvenio.Some? && tipoConvenio.value in ConvenioColors ==> r == ConvenioColors[tipoConvenio.value]
    ensures !(tipoConvenio.Some? && tipoConvenio.value in ConvenioColors) ==> r == ConvenioGray
  {
    if tipoConvenio.Some? && tipoConvenio.value in ConvenioColors then ConvenioColors[tipoConvenio.value]
    else ConvenioGray
  }

  /** `ConvenioBadge` label: `tipoConvenio || 'N/A'`. */
  function ConvenioLabel(tipoConvenio: Option<string>): (r: string)
    ensures r == "N/A" <==> tipoConvenio.None? || tipoConvenio.value in {"", "N/A"}
    ensures tipoConvenio.Some? && tipoConvenio.value != "" ==> r == tipoConvenio.value
  {
    if tipoConvenio.Some? && tipoConvenio.value != "" then tipoConvenio.value else "N/A"
  }

  // ------------------------------------------------------------ table state

  /** The `searchTerm` and `currentPage` state of the table. */
  class TableState {
    var searchTerm: string
    var currentPage: int

    /** Pages are counted from 1 and every step keeps it so. */
    predicate Valid()
      reads this
    {
      currentPage >= 1
    }

    constructor ()
      ensures Valid()
      ensures searchTerm == "" && currentPage == 1
    {
      searchTerm := "";
      currentPage := 1;
    }

    function Filtered(torres: seq<Tower>): seq<Tower>
      reads this
    {
      FilteredTorres(torres, searchTerm)
    }

    /** The rows the table body shows. */
    function Visible(torres: seq<Tower>): (r: seq<Tower>)
      reads this
      requires Valid()
      ensures |r| <= ItemsPerPage
      ensures forall t :: t in r ==> t in torres && TextMatch(t, searchTerm)
    {
      Page(Filtered(torres), currentPage)
    }

    /** The pager is rendered only when there is more than one page. */
    predicate PagerShown(torres: seq<Tower>)
      reads this
    {
      TotalPages(|Filtered(torres)|) > 1
    }

    /** Typing in the search box: the page is left where it was. */
    method SetSearchTerm(value: string)
      modifies this
      requires Valid()
      ensures Valid()
      ensures searchTerm == value && currentPage == old(currentPage)
    {
      searchTerm := value;
    }

    /** "Anterior": one page back, never below 1. */
    method PrevPage(torres: seq<Tower>)
      modifies this
      requires Valid() && PagerShown(torres)
      ensures Valid()
      ensures searchTerm == old(searchTerm)
      ensures currentPage == Max(1, old(currentPage) - 1)
    {
      currentPage := Max(1, currentPage - 1);
    }

    /** "Siguiente": one page on, never past the last page; from beyond the end it lands on the last page. */
    method NextPage(torres: seq<Tower>)
      modifies this
      requires Valid() && PagerShown(torres)
      ensures Valid()
      ensures searchTerm == old(searchTerm)
      ensures currentPage == Min(TotalPages(|Filtered(torres)|), old(currentPage) + 1)
      ensures currentPage <= TotalPages(|Filtered(torres)|)
    {
      currentPage := Min(TotalPages(|Filtered(torres)|), currentPage + 1);
    }
  }

  /**
   * A narrowed search can strand the table: with a single page of matches
   * and the page index left at 2 or more, no row is shown and no pager is
   * drawn to go back, although matches exist.
   */
  lemma StrandedPage(torres: seq<Tower>, searchTerm: string, page: int)
    requires page >= 2
    requires 0 < |FilteredTorres(torres, searchTerm)| <= ItemsPerPage
    ensures TotalPages(|FilteredTorres(torres, searchTerm)|) == 1
    ensures Page(FilteredTorres(torres, searchTerm), page) == []
  {
  }
}
