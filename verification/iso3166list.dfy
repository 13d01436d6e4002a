/**
 * The `iso3166list` linter (lint_iso3166list.c): the data must be a
 * non-empty concatenation of ISO 3166 num-3 country codes.
 */
module Iso3166List {
  import opened LintResult
  import opened Iso3166

  /** The `k`-th three-character group of the data. */
  function Group(data: string, k: nat): (g: string)
    requires 3 * k + 3 <= |data|
    ensures |g| == 3 && forall j :: 0 <= j < 3 ==> g[j] == data[3 * k + j]
  {
    data[3 * k..3 * k + 3]
  }

  /** The first `n` groups are all accepted by the lookup. */
  predicate GroupsMember(data: string, lookup: Lookup, n: nat)
    requires 3 * n <= |data|
  {
    forall k :: 0 <= k < n ==> IsMember(lookup, Group(data, k))
  }

  /** Every complete group of the data is accepted by the lookup. */
  predicate AllGroupsMember(data: string, lookup: Lookup) {
    GroupsMember(data, lookup, |data| / 3)
  }

  /**
   * gs1_lint_iso3166list: the first group the lookup rejects, scanning left
   * to right, is reported as a three-character span; when every complete
   * group is accepted, a leftover tail of one or two characters, or empty
   * data, is reported as the span of that tail.
   */
  method LintIso3166List(data: string, lookup: Lookup) returns (r: LintResult)
    ensures r.Ok? <==> |data| > 0 && |data| % 3 == 0 && AllGroupsMember(data, lookup)
    ensures r.Err? ==> r.code == NotIso3166
    ensures SpanWithin(r, data)
    ensures r.Err? && r.len == 3 ==>
      && r.pos % 3 == 0 && r.pos + 3 <= |data|
      && !IsMember(lookup, Group(data, r.pos / 3))
      && GroupsMember(data, lookup, r.pos / 3)
    ensures r.Err? && r.len != 3 ==>
      && AllGroupsMember(data, lookup)
      && r.len == |data| % 3 && r.pos == |data| - r.len
  {
    var p, q := 0, |data|;
    ghost var k := 0;
    while p + 3 <= q
      invariant p == 3 * k && p <= q == |data|
      invariant GroupsMember(data, lookup, k)
    {
      var c3 := data[p..p + 3];
      var ret := LintIso3166(c3, lookup);
      assert c3 == Group(data, k);
      if ret != Ok {
        return Err(NotIso3166, p, 3);
      }
      p := p + 3;
      k := k + 1;
    }
    assert k == q / 3;
    if p != q || q == 0 {
      return Err(NotIso3166, p, q - p);
    }
    return Ok;
  }

  /** The codes written one after another. */
  function Concat(codes: seq<string>): string {
    if codes == [] then [] else Concat(codes[..|codes| - 1]) + codes[|codes| - 1]
  }

  lemma {:induction false} GroupsOfConcat(codes: seq<string>)
    requires forall i :: 0 <= i < |codes| ==> |codes[i]| == 3
    ensures |Concat(codes)| == 3 * |codes|
    ensures forall k :: 0 <= k < |codes| ==> Group(Concat(codes), k) == codes[k]
  {
    if codes != [] {
      var init := codes[..|codes| - 1];
      GroupsOfConcat(init);
      var s := Concat(codes);
      assert s == Concat(init) + codes[|codes| - 1];
      forall k | 0 <= k < |codes|
        ensures Group(s, k) == codes[k]
      {
        if k < |codes| - 1 {
          assert Group(s, k) == Group(Concat(init), k);
        } else {
          assert Group(s, k) == s[|Concat(init)|..];
        }
      }
    }
  }

  /**
   * Any non-empty run of codes the lookup accepts, written one after
   * another, is accepted as a list: every group is one of those codes.
   */
  lemma ConcatOfMembersIsAccepted(codes: seq<string>, lookup: Lookup)
    requires codes != []
    requires forall i :: 0 <= i < |codes| ==> |codes[i]| == 3 && IsMember(lookup, codes[i])
    ensures |Concat(codes)| > 0 && |Concat(codes)| % 3 == 0
    ensures AllGroupsMember(Concat(codes), lookup)
  {
    GroupsOfConcat(codes);
    var s := Concat(codes);
    assert |s| / 3 == |codes|;
    forall k | 0 <= k < |s| / 3 ensures IsMember(lookup, Group(s, k)) {
      assert Group(s, k) == codes[k];
    }
  }
}
