/** The inventory table's search box and category select (src/pages/Inventory.tsx):
    which products the table shows, and which categories the select offers. The
    `sortBy` state is never read, so the table keeps the store's order. */
module InventoryFilter {
  import opened Types
  import opened Sequences

  /** `toLowerCase` on one character, for ASCII letters. */
  function LowerChar(c: char): char
  {
    if 'A' <= c <= 'Z' then (c as int + 32) as char else c
  }

  /** `s.toLowerCase()`: same length, no upper-case ASCII letter left. */
  function Lower(s: string): (r: string)
    ensures |r| == |s|
    ensures forall c :: c in r ==> !('A' <= c <= 'Z')
  {
    seq(|s|, i requires 0 <= i < |s| => LowerChar(s[i]))
  }

  /** Lower-casing twice is lower-casing once. */
  lemma LowerIdempotent(s: string)
    ensures Lower(Lower(s)) == Lower(s)
  {
  }

  /** `u` is an ASCII capital and `l` the same letter in lower case. */
  predicate IsCapitalOf(u: char, l: char)
  {
    'A' <= u <= 'Z' && l as int == u as int + ('a' as int - 'A' as int)
  }

  /** The two strings spell the same text up to the case of ASCII letters: position by
      position the characters agree, or one is the capital of the other. */
  predicate SameIgnoringCase(s: string, t: string)
  {
    && |s| == |t|
    && forall i :: 0 <= i < |s| ==> s[i] == t[i] || IsCapitalOf(s[i], t[i]) || IsCapitalOf(t[i], s[i])
  }

  /** Two strings lower-case to the same string exactly when they differ only in the
      case of letters. */
  lemma LowerIffSameIgnoringCase(s: string, t: string)
    ensures Lower(s) == Lower(t) <==> SameIgnoringCase(s, t)
  {
    if Lower(s) == Lower(t) {
      forall i | 0 <= i < |s|
        ensures s[i] == t[i] || IsCapitalOf(s[i], t[i]) || IsCapitalOf(t[i], s[i])
      {
        assert Lower(s)[i] == Lower(t)[i];
      }
    }
    if SameIgnoringCase(s, t) {
      forall i | 0 <= i < |s|
        ensures Lower(s)[i] == Lower(t)[i]
      {
      }
    }
  }

  /** The search ignores case: two search terms that differ only in the case of letters
      match the same products. */
  lemma SearchIgnoresCase(p: Product, t: string, t': string)
    requires SameIgnoringCase(t, t')
    ensures MatchesSearch(p, t) <==> MatchesSearch(p, t')
  {
    LowerIffSameIgnoringCase(t, t');
  }

  /** `haystack.includes(needle)`: the needle starts at some position of the haystack. */
  predicate Includes(haystack: string, needle: string)
    decreases |haystack|
  {
    needle <= haystack || (haystack != [] && Includes(haystack[1..], needle))
  }

  /** The needle occurs in the haystack starting at position `i`. */
  predicate OccursAt(haystack: string, needle: string, i: int)
  {
    0 <= i <= |haystack| - |needle| && haystack[i..i + |needle|] == needle
  }

  /** `Includes` holds exactly when the needle occurs as a contiguous slice. */
  lemma IncludesIffSlice(haystack: string, needle: string)
    ensures Includes(haystack, needle) <==> exists i :: OccursAt(haystack, needle, i)
  {
    if Includes(haystack, needle) {
      var i := IncludesFindsSlice(haystack, needle);
    }
    if exists i :: OccursAt(haystack, needle, i) {
      var i :| OccursAt(haystack, needle, i);
      SliceGivesIncludes(haystack, needle, i);
    }
  }

  /** A haystack that includes the needle has it at some position. */
  lemma {:induction false} IncludesFindsSlice(haystack: string, needle: string) returns (i: int)
    requires Includes(haystack, needle)
    ensures OccursAt(haystack, needle, i)
    decreases |haystack|
  {
    if needle <= haystack {
      i := 0;
    } else {
      var j := IncludesFindsSlice(haystack[1..], needle);
      assert haystack[j + 1..j + 1 + |needle|] == haystack[1..][j..j + |needle|];
      i := j + 1;
    }
  }

  /** A needle at some position of the haystack is included in it. */
  lemma {:induction false} SliceGivesIncludes(haystack: string, needle: string, i: int)
    requires OccursAt(haystack, needle, i)
    ensures Includes(haystack, needle)
    decreases i
  {
    if i == 0 {
      assert needle <= haystack;
    } else {
      assert haystack[1..][i - 1..i - 1 + |needle|] == haystack[i..i + |needle|];
      SliceGivesIncludes(haystack[1..], needle, i - 1);
    }
  }

  /** The search matches the lower-cased description or the lower-cased vendor code. */
  predicate MatchesSearch(p: Product, searchTerm: string)
  {
    || Includes(Lower(p.description), Lower(searchTerm))
    || Includes(Lower(p.vendorCode), Lower(searchTerm))
  }

  /** No category selected (the empty string is falsy), or exactly the selected one. */
  predicate MatchesCategory(p: Product, selectedCategory: string)
  {
    selectedCategory == "" || p.category == selectedCategory
  }

  /** The test `filteredProducts` applies to each product. */
  function Shown(searchTerm: string, selectedCategory: string): Product -> bool
  {
    p => MatchesSearch(p, searchTerm) && MatchesCategory(p, selectedCategory)
  }

  /** `filteredProducts`: the products passing both tests, in store order. */
  function FilteredProducts(ps: seq<Product>, searchTerm: string, selectedCategory: string): (r: seq<Product>)
    ensures IsSubsequence(r, ps)
    ensures forall p :: p in r ==> p in ps && MatchesSearch(p, searchTerm) && MatchesCategory(p, selectedCategory)
    ensures forall p :: p in ps && MatchesSearch(p, searchTerm) && MatchesCategory(p, selectedCategory) ==> p in r
    ensures forall p :: multiset(r)[p] ==
              if MatchesSearch(p, searchTerm) && MatchesCategory(p, selectedCategory) then multiset(ps)[p] else 0
  {
    FilterSpec(ps, Shown(searchTerm, selectedCategory));
    Filter(ps, Shown(searchTerm, selectedCategory))
  }

  /** With an empty search and no category every product is shown, in order. */
  lemma EmptyFilterShowsAll(ps: seq<Product>)
    ensures FilteredProducts(ps, "", "") == ps
  {
    assert Lower("") == "";
    forall p | p in ps
      ensures Shown("", "")(p)
    {
      assert "" <= Lower(p.description);
    }
    FilterKeepsAll(ps, Shown("", ""));
  }

  /** Every shown product carries the lower-cased search term as a slice of its
      lower-cased description or vendor code. */
  lemma ShownContainsTerm(ps: seq<Product>, searchTerm: string, selectedCategory: string, p: Product)
    requires p in FilteredProducts(ps, searchTerm, selectedCategory)
    ensures var t := Lower(searchTerm);
      (exists i :: OccursAt(Lower(p.description), t, i)) || (exists i :: OccursAt(Lower(p.vendorCode), t, i))
  {
    IncludesIffSlice(Lower(p.description), Lower(searchTerm));
    IncludesIffSlice(Lower(p.vendorCode), Lower(searchTerm));
  }

  /** With a category selected, every shown product is in exactly that category. */
  lemma ShownInSelectedCategory(ps: seq<Product>, searchTerm: string, selectedCategory: string)
    requires selectedCategory != ""
    ensures forall p :: p in FilteredProducts(ps, searchTerm, selectedCategory) ==> p.category == selectedCategory
  {
  }

  /** Filtering the shown products again with the same inputs changes nothing. */
  lemma FilteredProductsIdempotent(ps: seq<Product>, searchTerm: string, selectedCategory: string)
    ensures FilteredProducts(FilteredProducts(ps, searchTerm, selectedCategory), searchTerm, selectedCategory)
         == FilteredProducts(ps, searchTerm, selectedCategory)
  {
    FilterIdempotent(ps, Shown(searchTerm, selectedCategory));
  }

  /** `products.map(p => p.category)` */
  function CategoryColumn(ps: seq<Product>): seq<string>
  {
    seq(|ps|, i requires 0 <= i < |ps| => ps[i].category)
  }

  /** `categories`: each product category once, in order of first appearance. */
  function Categories(ps: seq<Product>): seq<string>
  {
    Dedup(CategoryColumn(ps))
  }

  /** The category list has no repeats, holds exactly the categories of the products,
      and lists them in the order in which they first appear in the store. */
  lemma CategoriesSpec(ps: seq<Product>)
    ensures var r := Categories(ps);
      && NoDuplicates(r)
      && (forall p :: p in ps ==> p.category in r)
      && (forall c :: c in r ==> exists p :: p in ps && p.category == c)
      && (forall i, j :: 0 <= i < j < |r| ==>
            FirstIndex(CategoryColumn(ps), r[i]) < FirstIndex(CategoryColumn(ps), r[j]))
  {
    var column := CategoryColumn(ps);
    DedupMembers(column);
    DedupOrder(column);
    forall p | p in ps
      ensures p.category in column
    {
      var i :| 0 <= i < |ps| && ps[i] == p;
      assert column[i] == p.category;
    }
  }
}
