/**
 * The default ordering of `Array.prototype.sort` on strings: lexicographic
 * comparison character by character, a proper prefix first. No locale rules.
 */
module StringOrder {

  predicate Less(a: string, b: string)
    decreases |a|
  {
    if a == [] then b != []
    else if b == [] then false
    else if a[0] != b[0] then a[0] < b[0]
    else Less(a[1..], b[1..])
  }

  lemma {:induction false} LessIrreflexive(a: string)
    ensures !Less(a, a)
    decreases |a|
  {
    if a != [] {
      LessIrreflexive(a[1..]);
    }
  }

  lemma {:induction false} LessTransitive(a: string, b: string, c: string)
    requires Less(a, b) && Less(b, c)
    ensures Less(a, c)
    decreases |a|
  {
    if a != [] && a[0] == b[0] && b[0] == c[0] {
      LessTransitive(a[1..], b[1..], c[1..]);
    }
  }

  lemma {:induction false} LessTotal(a: string, b: string)
    requires a != b
    ensures Less(a, b) || Less(b, a)
    decreases |a|
  {
    if a != [] && b != [] && a[0] == b[0] {
      assert a == [a[0]] + a[1..] && b == [b[0]] + b[1..];
      LessTotal(a[1..], b[1..]);
    }
  }

  lemma LessAsymmetric(a: string, b: string)
    requires Less(a, b)
    ensures !Less(b, a)
  {
    if Less(b, a) {
      LessTransitive(a, b, a);
      LessIrreflexive(a);
    }
  }

  /** Ascending with no repetition: what sorting a duplicate-free list yields. */
  predicate StrictlySorted(s: seq<string>) {
    forall i, j :: 0 <= i < j < |s| ==> Less(s[i], s[j])
  }

  lemma StrictlySortedNoDup(s: seq<string>)
    requires StrictlySorted(s)
    ensures forall i, j :: 0 <= i < j < |s| ==> s[i] != s[j]
  {
    forall i, j | 0 <= i < j < |s| ensures s[i] != s[j] {
      if s[i] == s[j] {
        LessIrreflexive(s[i]);
      }
    }
  }

  /** Inserts `x` into a strictly sorted list at its place; no effect when `x` is already there. */
  function Insert(s: seq<string>, x: string): (r: seq<string>)
    requires StrictlySorted(s)
    ensures StrictlySorted(r)
    ensures forall y :: y in r <==> y in s || y == x
    ensures |r| == if x in s then |s| else |s| + 1
  {
    if s == [] then [x]
    else if x == s[0] then s
    else if Less(x, s[0]) then
      assert forall j :: 0 < j < |s| ==> Less(s[0], s[j]);
      forall j | 0 <= j < |s| ensures Less(x, s[j]) {
        if j > 0 {
          LessTransitive(x, s[0], s[j]);
        }
      }
      assert forall y :: y in s ==> Less(x, y);
      LessIrreflexive(x);
      [x] + s
    else
      LessTotal(x, s[0]);
      var rest := Insert(s[1..], x);
      assert forall y :: y in s[1..] ==> Less(s[0], y);
      assert s == [s[0]] + s[1..];
      assert s[0] !in s[1..] by {
        LessIrreflexive(s[0]);
      }
      [s[0]] + rest
  }

  /** A strictly sorted list is determined by its elements. */
  lemma {:induction false} StrictlySortedUnique(a: seq<string>, b: seq<string>)
    requires StrictlySorted(a) && StrictlySorted(b)
    requires forall y :: y in a <==> y in b
    ensures a == b
    decreases |a|
  {
    if b != [] {
      assert b[0] in a;
    }
    if a != [] {
      assert b != [] by {
        assert a[0] in b;
      }
      if a[0] != b[0] {
        assert a[0] in b && b[0] in a;
        assert Less(b[0], a[0]);
        assert Less(a[0], b[0]);
        LessAsymmetric(a[0], b[0]);
        assert false;
      }
      forall y ensures y in a[1..] <==> y in b[1..] {
        if y in a[1..] {
          assert Less(a[0], y);
          LessIrreflexive(y);
          assert y in b;
        }
        if y in b[1..] {
          assert Less(b[0], y);
          LessIrreflexive(y);
          assert y in a;
        }
      }
      StrictlySortedUnique(a[1..], b[1..]);
      assert a == [a[0]] + a[1..] && b == [b[0]] + b[1..];
    }
  }
}
