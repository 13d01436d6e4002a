/**
 * The lookup helpers shared by the linters: a binary search over a strictly
 * ascending table of strings and an MSB-first bitfield membership test.
 * Both only ever raise the caller's `valid` flag, never lower it.
 */
module SearchUtils {
  import opened CStr
  import opened Arith

  /** Every earlier entry compares below every later one under strcmp. */
  predicate StrictlySorted(h: seq<string>) {
    forall i, j :: 0 <= i < j < |h| ==> StrCmp(h[i], h[j]) < 0
  }

  /** Each entry compares below its successor under strcmp. */
  predicate AdjacentAscending(h: seq<string>) {
    forall i :: 0 < i < |h| ==> StrCmp(h[i - 1], h[i]) < 0
  }

  lemma {:induction false} AdjacentAscendingIsStrictlySorted(h: seq<string>)
    requires AdjacentAscending(h)
    ensures StrictlySorted(h)
  {
    if |h| > 1 {
      var t := h[..|h| - 1];
      assert AdjacentAscending(t);
      AdjacentAscendingIsStrictlySorted(t);
      forall i | 0 <= i < |h| - 1
        ensures StrCmp(h[i], h[|h| - 1]) < 0
      {
        if i < |h| - 2 {
          StrCmpTransitive(h[i], h[|h| - 2], h[|h| - 1]);
        }
      }
    }
  }

  /** The linear search an unsorted table would need: found iff some entry equals the needle. */
  function LinearSearch(needle: string, haystack: seq<string>): bool {
    haystack != [] &&
      (haystack[|haystack| - 1] == needle || LinearSearch(needle, haystack[..|haystack| - 1]))
  }

  /** The scan finds the needle exactly when it is an entry. */
  lemma {:induction false} LinearSearchIsMembership(needle: string, haystack: seq<string>)
    ensures LinearSearch(needle, haystack) <==> needle in haystack
  {
    if haystack != [] {
      var init := haystack[..|haystack| - 1];
      LinearSearchIsMembership(needle, init);
      assert haystack == init + [haystack[|haystack| - 1]];
    }
  }

  /**
   * GS1_LINTER_BINARY_SEARCH: `valid` ends up raised exactly when the needle
   * is an entry, provided the table is strictly ascending; on any table it is
   * raised only for a genuine entry.
   */
  method BinarySearch(needle: string, haystack: seq<string>, valid0: bool) returns (valid: bool)
    ensures valid0 ==> valid
    ensures valid ==> valid0 || needle in haystack
    ensures StrictlySorted(haystack) ==> (valid <==> valid0 || needle in haystack)
  {
    valid := valid0;
    var s, e := 0, |haystack|;
    while s < e
      invariant 0 <= s <= e <= |haystack|
      invariant valid == valid0
      invariant StrictlySorted(haystack) ==>
        forall i :: 0 <= i < |haystack| && haystack[i] == needle ==> s <= i < e
      decreases e - s
    {
      var m := s + (e - s) / 2;
      var cmp := StrCmp(haystack[m], needle);
      StrCmpZeroIffEqual(haystack[m], needle);
      if cmp < 0 {
        if StrictlySorted(haystack) {
          forall i | 0 <= i < m ensures haystack[i] != needle {
            StrCmpAntisymmetric(haystack[i], haystack[m]);
          }
        }
        s := m + 1;
      } else if cmp > 0 {
        e := m;
      } else {
        valid := true;
        break;
      }
    }
  }

  function Pow2(n: nat): (p: nat)
    ensures p >= 1
  {
    if n == 0 then 1 else 2 * Pow2(n - 1)
  }

  /** The low `w` bits of `x`, most significant first. */
  function WordBits(x: nat, w: nat): (b: seq<bool>)
    ensures |b| == w
  {
    if w == 0 then [] else WordBits(x / 2, w - 1) + [x % 2 == 1]
  }

  /** A table of `w`-bit words read as one bit string, word by word, each MSB first. */
  function BitfieldBits(haystack: seq<nat>, w: nat): (b: seq<bool>)
    ensures |b| == |haystack| * w
  {
    if haystack == [] then [] else WordBits(haystack[0], w) + BitfieldBits(haystack[1..], w)
  }

  lemma DivDiv(x: nat, k: nat)
    ensures x / 2 / Pow2(k) == x / Pow2(k + 1)
  {
    var a, b := Pow2(k), x / 2;
    var q, r := b / a, b % a;
    assert b == a * q + r && 0 <= r < a;
    assert x == 2 * b + x % 2;
    assert x == Pow2(k + 1) * q + (2 * r + x % 2);
    assert 0 <= 2 * r + x % 2 < Pow2(k + 1);
    DivModUnique(x, Pow2(k + 1), q, 2 * r + x % 2);
  }

  /** Bit `i` of a word, counting from the most significant, is the C mask test `x & (1 << (w-1) >> i)`. */
  lemma {:induction false} WordBitAt(x: nat, w: nat, i: nat)
    requires i < w
    ensures WordBits(x, w)[i] == ((x / Pow2(w - 1 - i)) % 2 == 1)
  {
    if i < w - 1 {
      WordBitAt(x / 2, w - 1, i);
      DivDiv(x, w - 2 - i);
    }
  }

  lemma {:induction false} BitfieldBitAt(haystack: seq<nat>, w: nat, n: nat)
    requires 0 < w && n / w < |haystack|
    ensures n < |BitfieldBits(haystack, w)|
    ensures BitfieldBits(haystack, w)[n] == WordBits(haystack[n / w], w)[n % w]
  {
    var q, r := n / w, n % w;
    assert n == w * q + r;
    if q > 0 {
      DivModUnique(n - w, w, q - 1, r);
      BitfieldBitAt(haystack[1..], w, n - w);
    } else {
      DivModUnique(n, w, 0, n);
    }
  }

  /**
   * GS1_LINTER_BITFIELD_LOOKUP over `w`-bit words: `valid` is raised exactly
   * when bit `needle` of the table, counted MSB first through the words, is set.
   */
  method BitfieldLookup(needle: nat, haystack: seq<nat>, w: nat, valid0: bool) returns (valid: bool)
    requires 0 < w && needle / w < |haystack|
    ensures needle < |BitfieldBits(haystack, w)|
      && (valid <==> valid0 || BitfieldBits(haystack, w)[needle])
  {
    var word, bit := needle / w, needle % w;
    valid := valid0;
    BitfieldBitAt(haystack, w, needle);
    WordBitAt(haystack[word], w, bit);
    if (haystack[word] / Pow2(w - 1 - bit)) % 2 == 1 {
      valid := true;
    }
  }
}
