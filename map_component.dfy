/**
 * The simulated map (MapComponent.jsx): the filter the parent's `filters`
 * object drives, the marker colour by agreement type, the marker grid
 * placement and the reset of the filters.
 */
module MapComponent {
  import opened Wrappers
  import opened Seqs
  import opened Towers
  import opened Text
  import opened Search
  import TorresTable

  /**
   * The parent's `filters` object. `search` and `convenio` may be absent
   * (`undefined`); `maintenance` is carried but no filter reads it.
   */
  datatype MapFilters = MapFilters(search: Option<string>, convenio: Option<string>, maintenance: string)

  /** `!filters.search || <text match>`: no search text lets every tower through. */
  predicate SearchMatch(t: Tower, search: Option<string>)
    ensures SearchMatch(t, search) <==> search.None? || search.value == "" || TextMatch(t, LowerStr(search.value))
    ensures t.nombre.None? && t.direccion.None? && t.id.None? ==> (SearchMatch(t, search) <==> search.None? || search.value == "")
  {
    if search.Some? then CaseInsensitive(t, search.value); search.value == "" || TextMatch(t, search.value)
    else true
  }

  /** `!filters.convenio || filters.convenio === 'all' || torre.tipo_convenio === filters.convenio` */
  predicate ConvenioMatch(t: Tower, convenio: Option<string>)
    ensures convenio == t.tipo_convenio ==> ConvenioMatch(t, convenio)
    ensures ConvenioMatch(t, convenio) && t.tipo_convenio.None? ==> convenio.None? || convenio.value == "" || convenio.value == "all"
  {
    convenio.None? || convenio.value == "" || convenio.value == "all" || t.tipo_convenio == Some(convenio.value)
  }

  predicate Keep(t: Tower, filters: MapFilters) {
    SearchMatch(t, filters.search) && ConvenioMatch(t, filters.convenio)
  }

  /** The towers drawn on the map: those passing both tests, in their original order. */
  function MapFiltered(torres: seq<Tower>, filters: MapFilters): (r: seq<Tower>)
    ensures forall t :: t in r <==> t in torres && Keep(t, filters)
    ensures IsSubseq(r, torres)
    ensures |r| <= |torres|
    ensures forall t :: multiset(r)[t] == if Keep(t, filters) then multiset(torres)[t] else 0
  {
    var keep := (t: Tower) => Keep(t, filters);
    assert forall t :: t in Filter(torres, keep) <==> t in torres && Keep(t, filters) by {
      forall t ensures t in Filter(torres, keep) <==> t in torres && Keep(t, filters) {
        FilterMembers(torres, keep, t);
      }
    }
    assert forall t :: multiset(Filter(torres, keep))[t] == if Keep(t, filters) then multiset(torres)[t] else 0 by {
      forall t ensures multiset(Filter(torres, keep))[t] == if Keep(t, filters) then multiset(torres)[t] else 0 {
        FilterMultiplicity(torres, keep, t);
      }
    }
    FilterIsSubseq(torres, keep);
    Filter(torres, keep)
  }

  /**
   * A non-empty search is the table's search; an empty or missing one keeps
   * even towers without name, address or id, which the table's filter drops.
   */
  lemma SearchMatchAgainstTable(t: Tower, search: Option<string>)
    ensures search.Some? && search.value != "" ==> (SearchMatch(t, search) <==> TextMatch(t, search.value))
    ensures search.None? || search.value == "" ==> SearchMatch(t, search)
    ensures t.nombre.None? && t.direccion.None? && t.id.None? ==> !TextMatch(t, "")
  {
    EmptyTermMatch(t);
  }

  /** An agreement filter other than empty or `'all'` keeps exactly the towers of that agreement type. */
  lemma ConvenioFilterExact(torres: seq<Tower>, search: Option<string>, convenio: string, maintenance: string, t: Tower)
    requires convenio != "" && convenio != "all"
    requires t in torres && SearchMatch(t, search)
    ensures t in MapFiltered(torres, MapFilters(search, Some(convenio), maintenance)) <==> t.tipo_convenio == Some(convenio)
  {
  }

  /** `getConvenioColor` */
  function ConvenioColor(tipoConvenio: Option<string>): (r: string)
    ensures tipoConvenio == Some("Policia") ==> r == "#3b82f6"
    ensures tipoConvenio == Some("Ecom") ==> r == "#ef4444"
    ensures tipoConvenio == Some("De tercero") ==> r == "#eab308"
    ensures !(tipoConvenio.Some? && tipoConvenio.value in {"Policia", "Ecom", "De tercero"}) ==> r == DefaultColor
  {
    match tipoConvenio
    case Some("Policia") => "#3b82f6"
    case Some("Ecom") => "#ef4444"
    case Some("De tercero") => "#eab308"
    case _ => DefaultColor
  }

  const DefaultColor := "#6b7280"

  /** The map and the table agree on which towers have no recognised agreement: gray in both. */
  lemma ColoursAgreeOnUnknown(tipoConvenio: Option<string>)
    ensures ConvenioColor(tipoConvenio) == DefaultColor <==> TorresTable.ConvenioColor(tipoConvenio) == TorresTable.ConvenioGray
  {
  }

  // ------------------------------------------------------------------ markers

  /** `20 + (index * 15) % 60`: left offset in percent of the marker for the `index`-th tower. */
  function MarkerX(index: nat): (x: int)
    ensures x in {20, 35, 50, 65}
  {
    20 + (index * 15) % 60
  }

  /** `20 + Math.floor(index / 4) * 20`: top offset in percent. */
  function MarkerY(index: nat): (y: int)
    ensures y >= 20
  {
    20 + (index / 4) * 20
  }

  /** The markers fill rows of four, left to right, one row below the other. */
  lemma {:induction false} MarkerGrid(index: nat)
    ensures MarkerX(index) == 20 + 15 * (index % 4)
    ensures MarkerY(index + 1) == if index % 4 == 3 then MarkerY(index) + 20 else MarkerY(index)
  {
    assert index * 15 == (index / 4) * 60 + (index % 4) * 15;
  }

  /** Later towers never sit higher, and two towers never share a marker spot. */
  lemma MarkerPlacement(i: nat, j: nat)
    ensures i <= j ==> MarkerY(i) <= MarkerY(j)
    ensures i != j ==> MarkerX(i) != MarkerX(j) || MarkerY(i) != MarkerY(j)
  {
    MarkerGrid(i);
    MarkerGrid(j);
    if i <= j {
      assert i / 4 <= j / 4;
    }
    if i != j && MarkerX(i) == MarkerX(j) {
      assert i % 4 == j % 4;
      assert i / 4 != j / 4;
    }
  }

  // ------------------------------------------------------------------- reset

  /** `clearFilters`: the object handed to `onFiltersChange`. */
  const ClearedFilters: MapFilters := MapFilters(Some(""), Some("all"), "")

  /** After clearing, every tower is drawn. */
  lemma ClearedFiltersKeepAll(torres: seq<Tower>)
    ensures MapFiltered(torres, ClearedFilters) == torres
  {
    FilterKeepsAll(torres, (t: Tower) => Keep(t, ClearedFilters));
  }
}
