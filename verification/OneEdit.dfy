/** Two alias names a single typo apart (src/cli.ts:299-327). */
module OneEdit {

  predicate Substituted(a: string, b: string) {
    |a| == |b| && exists i :: 0 <= i < |a| && a[i] != b[i] && b == a[i := b[i]]
  }

  predicate InsertedAt(a: string, b: string, i: nat)
    requires |b| == |a| + 1 && i <= |a|
  {
    b == a[..i] + [b[i]] + a[i..]
  }

  predicate Inserted(a: string, b: string) {
    |b| == |a| + 1 && exists i :: 0 <= i <= |a| && InsertedAt(a, b, i)
  }

  predicate SwappedAt(a: string, b: string, i: nat)
    requires i + 1 < |a| == |b|
  {
    b == a[i := a[i + 1]][i + 1 := a[i]]
  }

  predicate Transposed(a: string, b: string) {
    |a| == |b| && exists i :: 0 <= i < |a| - 1 && SwappedAt(a, b, i)
  }

  /** b is a different name that one substitution, insertion, deletion or adjacent swap makes of a. */
  predicate OneEdit(a: string, b: string) {
    a != b && (Substituted(a, b) || Inserted(a, b) || Inserted(b, a) || Transposed(a, b))
  }

  /** One edit away is symmetric. */
  lemma OneEditSymmetric(a: string, b: string)
    ensures OneEdit(a, b) <==> OneEdit(b, a)
  {
    SubstitutedBack(a, b);
    SubstitutedBack(b, a);
    TransposedBack(a, b);
    TransposedBack(b, a);
  }

  lemma SubstitutedBack(a: string, b: string)
    ensures Substituted(a, b) ==> Substituted(b, a)
  {
    if Substituted(a, b) {
      var i :| 0 <= i < |a| && a[i] != b[i] && b == a[i := b[i]];
      assert a == b[i := a[i]];
    }
  }

  lemma TransposedBack(a: string, b: string)
    ensures Transposed(a, b) ==> Transposed(b, a)
  {
    if Transposed(a, b) {
      var i :| 0 <= i < |a| - 1 && SwappedAt(a, b, i);
      assert a == b[i := b[i + 1]][i + 1 := b[i]];
      assert SwappedAt(b, a, i);
    }
  }

  /** True exactly for names one edit apart. */
  method WithinOneEdit(a: string, b: string) returns (r: bool)
    ensures r <==> OneEdit(a, b)
  {
    if a == b { return false; }
    var s, l := if |a| <= |b| then a else b, if |a| <= |b| then b else a;
    if |l| - |s| > 1 { return false; }
    if |s| == |l| {
      r := OneDiffOrSwap(a, b);
    } else {
      r := OneSkip(s, l);
    }
  }

  /** Equal lengths: one difference, or two adjacent ones that cross over. */
  method OneDiffOrSwap(s: string, l: string) returns (r: bool)
    requires |s| == |l| && s != l
    ensures r <==> Substituted(s, l) || Transposed(s, l)
  {
    var diffs: seq<nat> := [];
    for i := 0 to |s|
      invariant DiffsUpTo(s, l, diffs, i)
    {
      if s[i] != l[i] { diffs := diffs + [i]; }
    }
    if |diffs| == 1 {
      OnlyDiff(s, l, diffs);
      return true;
    }
    if |diffs| == 2 {
      var i, j := diffs[0], diffs[1];
      TwoDiffs(s, l, diffs);
      return j == i + 1 && s[i] == l[j] && s[j] == l[i];
    }
    SomeDiff(s, l, diffs);
    ThreeDiffs(s, l, diffs[0], diffs[1], diffs[2]);
    r := false;
  }

  /** The positions below n where the names differ, in order. */
  predicate DiffsUpTo(s: string, l: string, diffs: seq<nat>, n: nat)
    requires n <= |s| == |l|
  {
    && (forall k :: 0 <= k < |diffs| ==> diffs[k] < n && s[diffs[k]] != l[diffs[k]])
    && (forall j, k :: 0 <= j < k < |diffs| ==> diffs[j] < diffs[k])
    && (forall i: nat :: i < n && s[i] != l[i] ==> i in diffs)
  }

  lemma OnlyDiff(s: string, l: string, diffs: seq<nat>)
    requires |s| == |l| && DiffsUpTo(s, l, diffs, |s|) && |diffs| == 1
    ensures Substituted(s, l)
  {
    var i := diffs[0];
    forall k | 0 <= k < |s| && k != i ensures s[k] == l[k] { assert s[k] != l[k] ==> k in diffs; }
    assert l == s[i := l[i]];
  }

  lemma TwoDiffs(s: string, l: string, diffs: seq<nat>)
    requires |s| == |l| && DiffsUpTo(s, l, diffs, |s|) && |diffs| == 2
    ensures !Substituted(s, l)
    ensures Transposed(s, l) <==> diffs[1] == diffs[0] + 1 && s[diffs[0]] == l[diffs[1]] && s[diffs[1]] == l[diffs[0]]
  {
    var i, j := diffs[0], diffs[1];
    forall k | 0 <= k < |s| && k != i && k != j ensures s[k] == l[k] { assert s[k] != l[k] ==> k in diffs; }
    if Transposed(s, l) {
      var k :| 0 <= k < |s| - 1 && SwappedAt(s, l, k);
      assert forall x :: 0 <= x < |s| && x != k && x != k + 1 ==> s[x] == l[x];
      assert l[k] == s[k + 1] && l[k + 1] == s[k];
      assert i in {k, k + 1} && j in {k, k + 1};
    }
    if j == i + 1 && s[i] == l[j] && s[j] == l[i] {
      assert l == s[i := s[i + 1]][i + 1 := s[i]];
      assert SwappedAt(s, l, i);
    }
  }

  lemma SomeDiff(s: string, l: string, diffs: seq<nat>)
    requires |s| == |l| && s != l && DiffsUpTo(s, l, diffs, |s|)
    ensures diffs != []
  {
    var i :| 0 <= i < |s| && s[i] != l[i];
    assert i in diffs;
  }

  lemma ThreeDiffs(s: string, l: string, x: nat, y: nat, z: nat)
    requires x < y < z < |s| == |l| && s[x] != l[x] && s[y] != l[y] && s[z] != l[z]
    ensures !Substituted(s, l) && !Transposed(s, l)
  {
    forall i: nat | i < |s| - 1 ensures !SwappedAt(s, l, i) {
      var swapped := s[i := s[i + 1]][i + 1 := s[i]];
      assert forall k :: 0 <= k < |s| && k != i && k != i + 1 ==> swapped[k] == s[k];
      assert swapped[x] == s[x] || swapped[y] == s[y] || swapped[z] == s[z];
    }
  }

  /** One longer: everything matches once a single character of the longer name is skipped. */
  method OneSkip(s: string, l: string) returns (r: bool)
    requires |l| == |s| + 1
    ensures r <==> Inserted(s, l)
  {
    var i, j := 0, 0;
    var skipped := false;
    ghost var at := 0;
    while i < |s| && j < |l|
      invariant i <= |s| && j == i + if skipped then 1 else 0
      invariant !skipped ==> s[..i] == l[..i]
      invariant skipped ==> at <= i && s[..at] == l[..at] && s[at..i] == l[at + 1..j] && at < |s| && s[at] != l[at]
      decreases |l| - j
    {
      if s[i] == l[j] {
        assert !skipped ==> s[..i + 1] == s[..i] + [s[i]] && l[..i + 1] == l[..i] + [l[i]];
        assert skipped ==> s[at..i + 1] == s[at..i] + [s[i]] && l[at + 1..j + 1] == l[at + 1..j] + [l[j]];
        i, j := i + 1, j + 1;
        continue;
      }
      if skipped {
        SecondMismatch(s, l, at, i);
        return false;
      }
      skipped, at := true, i;
      j := j + 1;
    }
    if skipped {
      assert l == s[..at] + [l[at]] + s[at..];
      assert InsertedAt(s, l, at);
    } else {
      assert l == s[..|s|] + [l[|s|]] + s[|s|..];
      assert InsertedAt(s, l, |s|);
    }
    r := true;
  }

  /** An insertion at p matches the names below it in place and above it one apart. */
  lemma InsertionMatches(s: string, l: string, p: nat)
    requires |l| == |s| + 1 && p <= |s|
    ensures InsertedAt(s, l, p) ==>
      (forall x :: 0 <= x < p ==> l[x] == s[x]) && (forall x :: p <= x < |s| ==> l[x + 1] == s[x])
  {
    var whole := s[..p] + [l[p]] + s[p..];
    assert forall x :: 0 <= x < p ==> whole[x] == s[x];
    assert forall x :: p <= x < |s| ==> whole[x + 1] == s[x];
  }

  /** Two places that do not match rule out every insertion point. */
  lemma SecondMismatch(s: string, l: string, at: nat, i: nat)
    requires |l| == |s| + 1 && at <= i < |s| && s[at] != l[at] && s[i] != l[i + 1]
    ensures !Inserted(s, l)
  {
    forall p | 0 <= p <= |s| ensures !InsertedAt(s, l, p) {
      InsertionMatches(s, l, p);
    }
  }
}
