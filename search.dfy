/**
 * The free-text search predicate that the tower table and the map each
 * write out: the lower-cased name or address includes the lower-cased
 * term, or the decimal id includes the raw term. A missing field
 * (`torre.nombre?.…` on `undefined`) contributes nothing.
 */
module Search {
  import opened Wrappers
  import opened Text
  import opened Towers

  predicate TextMatch(t: Tower, term: string)
    ensures TextMatch(t, term) ==> t.nombre.Some? || t.direccion.Some? || t.id.Some?
  {
    || (t.nombre.Some? && Contains(LowerStr(t.nombre.value), LowerStr(term)))
    || (t.direccion.Some? && Contains(LowerStr(t.direccion.value), LowerStr(term)))
    || (t.id.Some? && Contains(DecimalString(t.id.value), term))
  }

  /** The empty term matches exactly the towers with a name, an address or an id. */
  lemma EmptyTermMatch(t: Tower)
    ensures TextMatch(t, "") <==> t.nombre.Some? || t.direccion.Some? || t.id.Some?
  {
    assert LowerStr("") == "";
    if t.nombre.Some? { ContainsTrivial(t.nombre.value, LowerStr(t.nombre.value)); }
    if t.direccion.Some? { ContainsTrivial(t.direccion.value, LowerStr(t.direccion.value)); }
    if t.id.Some? { ContainsTrivial("", DecimalString(t.id.value)); }
  }

  /** A digit string includes only digit strings. */
  lemma DigitsContainDigits(hay: string, needle: string)
    requires IsDigits(hay) && Contains(hay, needle)
    ensures IsDigits(needle)
  {
    ContainsIff(hay, needle);
    var i :| OccursAt(hay, needle, i);
    forall k | 0 <= k < |needle| ensures IsDigit(needle[k]) {
      assert needle[k] == hay[i..i + |needle|][k] == hay[i + k];
    }
  }

  /** Lower-casing changes no digit string, and only digit strings lower-case to one. */
  lemma LowerDigits(term: string)
    ensures IsDigits(LowerStr(term)) <==> IsDigits(term)
    ensures IsDigits(term) ==> LowerStr(term) == term
  {
    if IsDigits(LowerStr(term)) {
      forall k | 0 <= k < |term| ensures IsDigit(term[k]) {
        assert LowerStr(term)[k] == Lower(term[k]);
      }
    }
  }

  /**
   * The search ignores the letter case of the term in all three fields: for
   * the id, because a decimal id only includes terms without letters.
   */
  lemma CaseInsensitive(t: Tower, term: string)
    ensures TextMatch(t, term) <==> TextMatch(t, LowerStr(term))
  {
    LowerStrIdempotent(term);
    LowerDigits(term);
    if t.id.Some? {
      var ds := DecimalString(t.id.value);
      if Contains(ds, term) {
        DigitsContainDigits(ds, term);
      }
      if Contains(ds, LowerStr(term)) {
        DigitsContainDigits(ds, LowerStr(term));
      }
    }
  }

  /** Searching for a tower's own id always finds it. */
  lemma OwnIdMatches(t: Tower)
    requires t.id.Some?
    ensures TextMatch(t, DecimalString(t.id.value))
  {
    ContainsTrivial(DecimalString(t.id.value), "");
  }

  /** Searching for a tower's own name, in any ASCII letter case, finds it. */
  lemma OwnNameMatches(t: Tower, term: string)
    requires t.nombre.Some? && LowerStr(term) == LowerStr(t.nombre.value)
    ensures TextMatch(t, term)
  {
    ContainsTrivial(LowerStr(t.nombre.value), "");
  }
}
