/** The supplier directory (src/pages/Supplier.tsx): the supplier list
    narrowed by one text search over name, region and materials. */
module SupplierPage {
  import opened Text
  import opened Seqs
  import opened SampleData

  /** The name, the region or one of the materials mentions the term,
      ignoring case. */
  predicate MatchesSearch(s: Supplier, term: string) {
    || ContainsIgnoreCase(s.name, term)
    || ContainsIgnoreCase(s.region, term)
    || exists m :: m in s.materials && ContainsIgnoreCase(m, term)
  }

  /** `filterSuppliers`: an empty search shows every supplier; otherwise
      the matching ones, in directory order. */
  function FilterSuppliers(suppliers: seq<Supplier>, search: string): (r: seq<Supplier>)
    ensures IsSubsequence(r, suppliers)
    ensures |r| <= |suppliers|
    ensures search == "" ==> r == suppliers
    ensures forall s :: s in r <==> s in suppliers && (search == "" || MatchesSearch(s, search))
    ensures forall s :: multiset(r)[s] == if search == "" || MatchesSearch(s, search) then multiset(suppliers)[s] else 0
  {
    if search != "" then Filter(suppliers, (s: Supplier) => MatchesSearch(s, search))
    else
      SubsequenceReflexive(suppliers);
      suppliers
  }

  /** The search ignores case: terms that agree up to case select the same
      suppliers. */
  lemma SearchIgnoresCase(suppliers: seq<Supplier>, t: string, t': string)
    requires Lower(t) == Lower(t')
    ensures FilterSuppliers(suppliers, t) == FilterSuppliers(suppliers, t')
  {
    forall s: Supplier
      ensures MatchesSearch(s, t) == MatchesSearch(s, t')
    {
      ContainsIgnoreCaseUpToCase(s.name, s.name, t, t');
      ContainsIgnoreCaseUpToCase(s.region, s.region, t, t');
      forall m | m in s.materials
        ensures ContainsIgnoreCase(m, t) == ContainsIgnoreCase(m, t')
      {
        ContainsIgnoreCaseUpToCase(m, m, t, t');
      }
    }
    assert |t| == |Lower(t)| == |t'|;
    if t != "" {
      FilterExtensional(suppliers, (s: Supplier) => MatchesSearch(s, t), (s: Supplier) => MatchesSearch(s, t'));
    }
  }

  /** Searching for one of its materials, in any case, finds the supplier. */
  lemma SearchByMaterialFinds(suppliers: seq<Supplier>, s: Supplier, m: string, t: string)
    requires s in suppliers && m in s.materials && Lower(t) == Lower(m)
    ensures s in FilterSuppliers(suppliers, t)
  {
    ContainsSelf(Lower(m));
    assert ContainsIgnoreCase(m, t);
  }
}
