/**
 * The classification engine: an ordered catalog of (type name, pattern)
 * entries and the first-match-wins search over it. Everything here holds
 * for any catalog; the ledger's own catalog is in module BitfinexCatalog.
 */
module Classifier {
  import opened Wrappers
  import opened Regex

  datatype Entry = Entry(name: string, pattern: Pattern)

  /** Entries in insertion order; the order decides precedence. */
  type Catalog = seq<Entry>

  /** Whether entry `k`'s pattern matches the description. */
  predicate Matches(catalog: Catalog, k: nat, d: string)
    requires k < |catalog|
  {
    Match(catalog[k].pattern, d).Some?
  }

  /**
   * Index of the first entry, at or after `from`, whose pattern matches:
   * it matches, and no entry between `from` and it does. `None` exactly
   * when no entry from `from` on matches.
   */
  function FirstMatchFrom(catalog: Catalog, d: string, from: nat): (r: Option<nat>)
    requires from <= |catalog|
    ensures r.Some? ==> from <= r.value < |catalog| && Matches(catalog, r.value, d)
    ensures r.Some? ==> forall j :: from <= j < r.value ==> !Matches(catalog, j, d)
    ensures r.None? ==> forall j :: from <= j < |catalog| ==> !Matches(catalog, j, d)
    decreases |catalog| - from
  {
    if from == |catalog| then None
    else if Matches(catalog, from, d) then Some(from)
    else FirstMatchFrom(catalog, d, from + 1)
  }

  /** The index of the winning entry for description `d`, if any. */
  function FirstMatch(catalog: Catalog, d: string): (r: Option<nat>)
    ensures r.Some? ==> r.value < |catalog| && Matches(catalog, r.value, d)
    ensures r.Some? ==> forall j :: 0 <= j < r.value ==> !Matches(catalog, j, d)
    ensures r.None? ==> forall j :: 0 <= j < |catalog| ==> !Matches(catalog, j, d)
  {
    FirstMatchFrom(catalog, d, 0)
  }

  datatype Classification = Matched(name: string, meta: Captures) | Unmatched

  /**
   * The classifier: the first matching entry's name and its `groupdict()`,
   * or `Unmatched` when no entry matches.
   */
  function Classify(catalog: Catalog, d: string): (r: Classification)
    ensures r.Unmatched? <==> forall k :: 0 <= k < |catalog| ==> !Matches(catalog, k, d)
    ensures r.Matched? ==> exists k :: 0 <= k < |catalog| && IsWinner(catalog, k, d, r)
  {
    match FirstMatch(catalog, d)
    case None => Unmatched
    case Some(k) =>
      var r := Matched(catalog[k].name, Match(catalog[k].pattern, d).value);
      assert IsWinner(catalog, k, d, r);
      r
  }

  /**
   * Entry `k` is the one that produced `r`: it matches with `r.meta`, its
   * name is `r.name`, no earlier entry matches, and `r.meta` has exactly the
   * pattern's named groups as keys.
   */
  ghost predicate IsWinner(catalog: Catalog, k: nat, d: string, r: Classification)
    requires k < |catalog|
  {
    && r.Matched?
    && catalog[k].name == r.name
    && Match(catalog[k].pattern, d) == Some(r.meta)
    && r.meta.Keys == PatternGroups(catalog[k].pattern)
    && forall j :: 0 <= j < k ==> !Matches(catalog, j, d)
  }

  /** The first-match index is pinned down by its two defining properties. */
  lemma FirstMatchCharacterized(catalog: Catalog, d: string, k: nat)
    requires k < |catalog|
    ensures FirstMatch(catalog, d) == Some(k) <==>
      Matches(catalog, k, d) && forall j :: 0 <= j < k ==> !Matches(catalog, j, d)
  {
    if Matches(catalog, k, d) && forall j :: 0 <= j < k ==> !Matches(catalog, j, d) {
      assert FirstMatch(catalog, d).Some?;
    }
  }

  /**
   * Precedence: when entries `i < j` both match `d`, entry `j` is never the
   * winner; the winner is `i` or an entry before it.
   */
  lemma EarlierEntryWins(catalog: Catalog, d: string, i: nat, j: nat)
    requires i < j < |catalog|
    requires Matches(catalog, i, d) && Matches(catalog, j, d)
    ensures FirstMatch(catalog, d).Some? && FirstMatch(catalog, d).value <= i
  {
  }

  /** An entry whose pattern repeats an earlier entry's pattern is never selected. */
  lemma ShadowedEntryNeverWins(catalog: Catalog, i: nat, j: nat, d: string)
    requires i < j < |catalog| && catalog[i].pattern == catalog[j].pattern
    ensures FirstMatch(catalog, d) != Some(j)
  {
    if FirstMatch(catalog, d) == Some(j) {
      assert Matches(catalog, i, d);
    }
  }

  /**
   * Appending entries at the end of the catalog never changes the
   * classification of a description that an existing entry already matches.
   */
  lemma {:induction false} AppendKeepsEarlierWinner(catalog: Catalog, extra: Catalog, d: string)
    requires FirstMatch(catalog, d).Some?
    ensures FirstMatch(catalog + extra, d) == FirstMatch(catalog, d)
    ensures Classify(catalog + extra, d) == Classify(catalog, d)
  {
    var k := FirstMatch(catalog, d).value;
    var both := catalog + extra;
    assert both[k] == catalog[k];
    forall j | 0 <= j < k
      ensures !Matches(both, j, d)
    {
      assert both[j] == catalog[j];
      assert !Matches(catalog, j, d);
    }
    FirstMatchCharacterized(both, d, k);
  }
}
