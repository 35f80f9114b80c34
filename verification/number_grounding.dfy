/**
  Does a number the model extracted appear in the buyer's own words (ai/llm_first_orders.go)?
  A run is one number as the buyer typed it, split into its digit groups.
 */
module NumberGrounding {

  function Concat(groups: seq<string>): string {
    if groups == [] then "" else Concat(groups[..|groups| - 1]) + groups[|groups| - 1]
  }

  // Some contiguous, non-empty range of groups reads as one of the variants.
  ghost predicate RangeIn(groups: seq<string>, variants: seq<string>, i: int, j: int) {
    0 <= i < j <= |groups| && Concat(groups[i..j]) in variants
  }

  ghost predicate RunHasNumber(groups: seq<string>, variants: seq<string>) {
    exists i, j :: RangeIn(groups, variants, i, j)
  }

  ghost predicate TextHasNumber(runs: seq<seq<string>>, variants: seq<string>) {
    exists r :: 0 <= r < |runs| && RunHasNumber(runs[r], variants)
  }

  function MaxLength(variants: seq<string>): nat {
    if variants == [] then 0
    else
      var m, n := MaxLength(variants[..|variants| - 1]), |variants[|variants| - 1]|;
      if n > m then n else m
  }

  lemma {:induction false} MaxLengthBounds(variants: seq<string>)
    ensures forall v :: v in variants ==> |v| <= MaxLength(variants)
  {
    if variants != [] {
      MaxLengthBounds(variants[..|variants| - 1]);
    }
  }

  lemma {:induction false} ConcatSnoc(groups: seq<string>, i: nat, j: nat)
    requires i <= j < |groups|
    ensures Concat(groups[i..j + 1]) == Concat(groups[i..j]) + groups[j]
  {
    assert groups[i..j + 1][..j - i] == groups[i..j];
  }

  // A longer range never reads shorter, so stopping at the first range that is too long is safe.
  lemma {:induction false} LongerRange(groups: seq<string>, i: nat, j: nat, k: nat)
    requires i <= j <= k <= |groups|
    ensures |Concat(groups[i..j])| <= |Concat(groups[i..k])|
  {
    if j < k {
      LongerRange(groups, i, j, k - 1);
      ConcatSnoc(groups, i, k - 1);
    }
  }

  lemma {:induction false} TooLongFromHere(groups: seq<string>, variants: seq<string>, i: nat, j: nat)
    requires i < j <= |groups| && |Concat(groups[i..j])| > MaxLength(variants)
    ensures forall k :: j <= k ==> !RangeIn(groups, variants, i, k)
  {
    MaxLengthBounds(variants);
    forall k: int | j <= k <= |groups| ensures !RangeIn(groups, variants, i, k) {
      LongerRange(groups, i, j, k);
    }
  }

  method LongestVariant(variants: seq<string>) returns (maxLen: nat)
    ensures maxLen == MaxLength(variants)
  {
    maxLen := 0;
    for k := 0 to |variants|
      invariant maxLen == MaxLength(variants[..k])
    {
      assert variants[..k + 1][..k] == variants[..k];
      if |variants[k]| > maxLen {
        maxLen := |variants[k]|;
      }
    }
    assert variants[..|variants|] == variants;
  }

  // The ranges that start at group i.
  method RangeFrom(groups: seq<string>, variants: seq<string>, maxLen: nat, i: nat) returns (found: bool)
    requires i < |groups| && maxLen == MaxLength(variants)
    ensures found <==> exists j :: RangeIn(groups, variants, i, j)
  {
    var joined := "";
    assert groups[i..i] == [];
    for j := i to |groups|
      invariant joined == Concat(groups[i..j])
      invariant forall k :: k <= j ==> !RangeIn(groups, variants, i, k)
    {
      ConcatSnoc(groups, i, j);
      joined := joined + groups[j];
      if |joined| > maxLen {
        TooLongFromHere(groups, variants, i, j + 1);
        return false;
      }
      for v := 0 to |variants|
        invariant joined !in variants[..v]
      {
        if joined == variants[v] {
          assert RangeIn(groups, variants, i, j + 1);
          return true;
        }
      }
      assert variants[..|variants|] == variants;
    }
    found := false;
  }

  // The pruned search answers exactly whether some contiguous range of groups is a variant: the
  // early break loses no match, and nothing carved out of a longer group counts.
  method HasNumber(runs: seq<seq<string>>, variants: seq<string>) returns (found: bool)
    ensures found <==> TextHasNumber(runs, variants)
  {
    var maxLen := LongestVariant(variants);
    for r := 0 to |runs|
      invariant forall q :: 0 <= q < r ==> !RunHasNumber(runs[q], variants)
    {
      var groups := runs[r];
      for i := 0 to |groups|
        invariant forall h, j :: h < i ==> !RangeIn(groups, variants, h, j)
      {
        var here := RangeFrom(groups, variants, maxLen, i);
        if here {
          assert RunHasNumber(runs[r], variants);
          return true;
        }
      }
    }
    found := false;
  }
}
