/** The order in which the text report lists binary images:
    `Images.OrderBy(img => img.ImageBaseAddress)`, which LINQ documents as a
    stable sort, so images with the same base address keep their report order. */
module ImageOrder {
  import opened ReportInfo

  predicate SortedByBase(s: seq<BinaryImageInfo>)
  {
    forall i, j :: 0 <= i < j < |s| ==> s[i].imageBaseAddress <= s[j].imageBaseAddress
  }

  /** `[x]` when `x` has base address `base`, otherwise nothing. */
  function Keep(x: BinaryImageInfo, base: int): seq<BinaryImageInfo>
  {
    if x.imageBaseAddress == base then [x] else []
  }

  /** The images of `s` whose base address is `base`, in order. */
  function WithBase(s: seq<BinaryImageInfo>, base: int): seq<BinaryImageInfo>
  {
    if |s| == 0 then [] else WithBase(s[..|s| - 1], base) + Keep(s[|s| - 1], base)
  }

  /** Puts `x` into the sorted `s` after every image whose base is not larger. */
  function Insert(s: seq<BinaryImageInfo>, x: BinaryImageInfo): (r: seq<BinaryImageInfo>)
    ensures |r| == |s| + 1
    ensures multiset(r) == multiset(s) + multiset{x}
  {
    if |s| == 0 then [x]
    else if s[|s| - 1].imageBaseAddress <= x.imageBaseAddress then s + [x]
    else
      assert s == s[..|s| - 1] + [s[|s| - 1]];
      Insert(s[..|s| - 1], x) + [s[|s| - 1]]
  }

  /** An insertion sort: each image goes after the sorted images before it. */
  function SortByBase(s: seq<BinaryImageInfo>): (r: seq<BinaryImageInfo>)
  {
    if |s| == 0 then []
    else Insert(SortByBase(s[..|s| - 1]), s[|s| - 1])
  }

  lemma WithBaseSnoc(s: seq<BinaryImageInfo>, x: BinaryImageInfo, base: int)
    ensures WithBase(s + [x], base) == WithBase(s, base) + Keep(x, base)
  {
    assert (s + [x])[..|s|] == s;
  }

  /** No image of `s` has a base address above `bound`. */
  predicate AllAtMost(s: seq<BinaryImageInfo>, bound: int)
  {
    forall i :: 0 <= i < |s| ==> s[i].imageBaseAddress <= bound
  }

  lemma {:induction false} InsertAtMost(s: seq<BinaryImageInfo>, x: BinaryImageInfo, bound: int)
    requires AllAtMost(s, bound) && x.imageBaseAddress <= bound
    ensures AllAtMost(Insert(s, x), bound)
    decreases |s|
  {
    if |s| > 0 && s[|s| - 1].imageBaseAddress > x.imageBaseAddress {
      InsertAtMost(s[..|s| - 1], x, bound);
    }
  }

  lemma SortedSnoc(s: seq<BinaryImageInfo>, y: BinaryImageInfo)
    requires SortedByBase(s) && AllAtMost(s, y.imageBaseAddress)
    ensures SortedByBase(s + [y])
  {
  }

  lemma {:induction false} InsertSorted(s: seq<BinaryImageInfo>, x: BinaryImageInfo)
    requires SortedByBase(s)
    ensures SortedByBase(Insert(s, x))
    decreases |s|
  {
    if |s| > 0 && s[|s| - 1].imageBaseAddress > x.imageBaseAddress {
      var init, last := s[..|s| - 1], s[|s| - 1];
      InsertSorted(init, x);
      InsertAtMost(init, x, last.imageBaseAddress);
      SortedSnoc(Insert(init, x), last);
    }
  }

  /** Two images with different base addresses are never both kept. */
  lemma KeepCommutes(w: seq<BinaryImageInfo>, x: BinaryImageInfo, y: BinaryImageInfo, base: int)
    requires x.imageBaseAddress != y.imageBaseAddress
    ensures w + Keep(x, base) + Keep(y, base) == w + Keep(y, base) + Keep(x, base)
  {
    if x.imageBaseAddress == base {
      assert Keep(y, base) == [];
    } else {
      assert Keep(x, base) == [];
    }
  }

  lemma {:induction false} InsertStable(s: seq<BinaryImageInfo>, x: BinaryImageInfo, base: int)
    ensures WithBase(Insert(s, x), base) == WithBase(s, base) + Keep(x, base)
    decreases |s|
  {
    if |s| == 0 {
      WithBaseSnoc([], x, base);
      assert [] + [x] == [x];
    } else if s[|s| - 1].imageBaseAddress <= x.imageBaseAddress {
      WithBaseSnoc(s, x, base);
    } else {
      var init, last := s[..|s| - 1], s[|s| - 1];
      assert Insert(s, x) == Insert(init, x) + [last];
      InsertStable(init, x, base);
      WithBaseSnoc(Insert(init, x), last, base);
      assert WithBase(s, base) == WithBase(init, base) + Keep(last, base);
      KeepCommutes(WithBase(init, base), x, last, base);
    }
  }

  /** The sorted images are in ascending base-address order. */
  lemma {:induction false} SortByBaseIsSorted(s: seq<BinaryImageInfo>)
    ensures SortedByBase(SortByBase(s))
  {
    if |s| > 0 {
      SortByBaseIsSorted(s[..|s| - 1]);
      InsertSorted(SortByBase(s[..|s| - 1]), s[|s| - 1]);
    }
  }

  /** Sorting neither drops nor duplicates an image. */
  lemma {:induction false} SortByBaseIsPermutation(s: seq<BinaryImageInfo>)
    ensures multiset(SortByBase(s)) == multiset(s)
  {
    if |s| > 0 {
      SortByBaseIsPermutation(s[..|s| - 1]);
      assert s == s[..|s| - 1] + [s[|s| - 1]];
    }
  }

  /** The sort is stable: images with equal base addresses keep their relative order. */
  lemma {:induction false} SortByBaseIsStable(s: seq<BinaryImageInfo>, base: int)
    ensures WithBase(SortByBase(s), base) == WithBase(s, base)
  {
    if |s| > 0 {
      var init, last := s[..|s| - 1], s[|s| - 1];
      SortByBaseIsStable(init, base);
      InsertStable(SortByBase(init), last, base);
    }
  }
}
