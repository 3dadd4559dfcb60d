/** The mint list of a command and the pairs it stands for. */
module MintPairs {
  import opened Wrappers

  type Mint = int

  predicate StrictlySorted(s: seq<int>) {
    forall i, j :: 0 <= i < j < |s| ==> s[i] < s[j]
  }

  function Insert(s: seq<Mint>, m: Mint): seq<Mint> {
    if s == [] then [m]
    else if m < s[0] then [m] + s
    else if m == s[0] then s
    else [s[0]] + Insert(s[1..], m)
  }

  lemma {:induction false} InsertIs(s: seq<Mint>, m: Mint)
    requires StrictlySorted(s)
    ensures StrictlySorted(Insert(s, m))
    ensures forall x :: x in Insert(s, m) <==> x == m || x in s
  {
    if s != [] && m > s[0] {
      InsertIs(s[1..], m);
      var r := Insert(s[1..], m);
      assert forall x :: x in s <==> x == s[0] || x in s[1..];
      forall x | x in r
        ensures s[0] < x
      {
        if x != m { var i :| 0 <= i < |s[1..]| && s[1..][i] == x; assert s[i + 1] == x; }
      }
    }
  }

  /** `unique_mints`: a `BTreeSet` of the arguments, rejected below two. */
  method UniqueMints(mints: seq<Mint>) returns (r: Option<seq<Mint>>)
    ensures r.Some? ==> StrictlySorted(r.value) && |r.value| >= 2 && forall m :: m in r.value <==> m in mints
    ensures r.Some? <==> exists i, j :: 0 <= i < j < |mints| && mints[i] != mints[j]
  {
    var sorted: seq<Mint> := [];
    for i := 0 to |mints|
      invariant StrictlySorted(sorted) && forall m :: m in sorted <==> m in mints[..i]
    {
      InsertIs(sorted, mints[i]);
      assert mints[..i + 1] == mints[..i] + [mints[i]];
      sorted := Insert(sorted, mints[i]);
    }
    assert mints[..|mints|] == mints;
    if |sorted| < 2 {
      AllTheSame(mints, sorted);
      return None;
    }
    assert sorted[0] in mints && sorted[1] in mints && sorted[0] < sorted[1];
    var i :| 0 <= i < |mints| && mints[i] == sorted[0];
    var j :| 0 <= j < |mints| && mints[j] == sorted[1];
    assert i < j || j < i;
    return Some(sorted);
  }

  lemma AllTheSame(mints: seq<Mint>, sorted: seq<Mint>)
    requires |sorted| < 2 && forall m :: m in mints ==> m in sorted
    ensures forall i, j :: 0 <= i < j < |mints| ==> mints[i] == mints[j]
  {
    forall i, j | 0 <= i < j < |mints|
      ensures mints[i] == mints[j]
    {
      assert mints[i] in mints && mints[j] in mints;
      assert mints[i] == sorted[0] && mints[j] == sorted[0];
    }
  }

  /** `unordered_pairs`: every two mints once, in the order of the list. */
  method UnorderedPairs(mints: seq<Mint>) returns (pairs: seq<(Mint, Mint)>)
    requires StrictlySorted(mints)
    ensures forall a, b :: (a, b) in pairs <==> a in mints && b in mints && a < b
    ensures forall i, j :: 0 <= i < j < |pairs| ==> pairs[i] != pairs[j]
    ensures 2 * |pairs| == |mints| * (|mints| - 1)
  {
    hide PairsOf, StrictlySorted;
    pairs := [];
    var n := |mints|;
    NoRows(mints);
    for i := 0 to n
      invariant PairsOf(mints, pairs, i)
      invariant forall x, y :: 0 <= x < y < |pairs| ==> pairs[x] != pairs[y]
      invariant 2 * |pairs| == i * (2 * n - i - 1)
    {
      ghost var before := pairs;
      for j := i + 1 to n
        invariant |pairs| == |before| + j - i - 1
        invariant forall x :: 0 <= x < |before| ==> pairs[x] == before[x]
        invariant forall x :: |before| <= x < |pairs| ==> pairs[x] == (mints[i], mints[x - |before| + i + 1])
      {
        pairs := pairs + [(mints[i], mints[j])];
      }
      RowCount(i, n);
      PairsAfterRow(mints, before, pairs, i);
    }
    PairsAreAll(mints, pairs);
  }

  lemma NoRows(mints: seq<Mint>)
    ensures PairsOf(mints, [], 0)
  {
  }

  /** The pairs of the rows up to `i`. */
  ghost predicate PairsOf(mints: seq<Mint>, pairs: seq<(Mint, Mint)>, i: nat) {
    forall a, b :: (a, b) in pairs <==> exists k, l :: 0 <= k < i && k < l < |mints| && a == mints[k] && b == mints[l]
  }

  lemma PairsAreAll(mints: seq<Mint>, pairs: seq<(Mint, Mint)>)
    requires StrictlySorted(mints) && PairsOf(mints, pairs, |mints|)
    ensures forall a, b :: (a, b) in pairs <==> a in mints && b in mints && a < b
  {
    forall a, b
      ensures (a, b) in pairs <==> a in mints && b in mints && a < b
    {
      if a in mints && b in mints && a < b {
        var k :| 0 <= k < |mints| && mints[k] == a;
        var l :| 0 <= l < |mints| && mints[l] == b;
        assert k < l;
      }
    }
  }

  lemma RowCount(i: nat, n: nat)
    ensures (i + 1) * (2 * n - (i + 1) - 1) == i * (2 * n - i - 1) + 2 * (n - i - 1)
  {
  }

  lemma PairsAfterRow(mints: seq<Mint>, before: seq<(Mint, Mint)>, pairs: seq<(Mint, Mint)>, i: nat)
    requires StrictlySorted(mints) && i < |mints| && |pairs| == |before| + |mints| - i - 1
    requires forall x :: 0 <= x < |before| ==> pairs[x] == before[x]
    requires forall x :: |before| <= x < |pairs| ==> pairs[x] == (mints[i], mints[x - |before| + i + 1])
    requires PairsOf(mints, before, i)
    requires forall x, y :: 0 <= x < y < |before| ==> before[x] != before[y]
    ensures PairsOf(mints, pairs, i + 1)
    ensures forall x, y :: 0 <= x < y < |pairs| ==> pairs[x] != pairs[y]
  {
    forall a, b
      ensures (a, b) in pairs <==> exists k, l :: 0 <= k < i + 1 && k < l < |mints| && a == mints[k] && b == mints[l]
    {
      if (a, b) in pairs {
        var x :| 0 <= x < |pairs| && pairs[x] == (a, b);
        if x < |before| { assert before[x] == (a, b); }
      }
      if k, l :| 0 <= k < i + 1 && k < l < |mints| && a == mints[k] && b == mints[l] {
        if k < i {
          assert (a, b) in before;
          var x :| 0 <= x < |before| && before[x] == (a, b);
          assert pairs[x] == (a, b);
        } else {
          assert pairs[|before| + l - i - 1] == (a, b);
        }
      }
    }
    forall x, y | 0 <= x < y < |pairs|
      ensures pairs[x] != pairs[y]
    {
      if x < |before| <= y {
        assert before[x] in before && (before[x].0, before[x].1) in before;
        var k, l :| 0 <= k < i && k < l < |mints| && before[x].0 == mints[k] && before[x].1 == mints[l];
      }
    }
  }
}
