/** Sequence helpers for the identity-based de-duplication of `list({...})`. */
module Collections {

  /** No element occurs twice (for objects, equality is identity). */
  predicate NoDuplicates<T(==)>(s: seq<T>) {
    forall i, j :: 0 <= i < j < |s| ==> s[i] != s[j]
  }

  /**
   * The distinct elements of `s`, each once. Python's `list(set(...))` leaves
   * their order unspecified; this one keeps first occurrences in order, and its
   * contract promises only what Python does: the same members, no duplicates.
   */
  function Distinct<T(==)>(s: seq<T>): (r: seq<T>)
    ensures NoDuplicates(r)
    ensures forall i :: 0 <= i < |r| ==> r[i] in s
    ensures forall i :: 0 <= i < |s| ==> s[i] in r
    ensures |r| <= |s|
  {
    if s == [] then []
    else
      var rest := Distinct(s[..|s| - 1]);
      var last := s[|s| - 1];
      assert s == s[..|s| - 1] + [last];
      if last in rest then rest else rest + [last]
  }

  /** Two equal entries at distinct positions are a duplicate. */
  lemma RepeatedElement<T>(s: seq<T>, i: nat, j: nat)
    requires i < j < |s| && s[i] == s[j]
    ensures !NoDuplicates(s)
  {
  }

  /** A duplicate-free sequence that holds x and nothing else is exactly [x]. */
  lemma SingleDistinctValue<T>(s: seq<T>, x: T)
    requires NoDuplicates(s)
    requires x in s
    requires forall i :: 0 <= i < |s| ==> s[i] == x
    ensures s == [x]
  {
    if |s| > 1 {
      RepeatedElement(s, 0, 1);
      assert false;
    }
  }

  /** Three or more entries drawn from only two values include a duplicate. */
  lemma ThreeFromTwo<T>(s: seq<T>, x: T, y: T)
    requires |s| >= 3
    requires forall i :: 0 <= i < |s| ==> s[i] == x || s[i] == y
    ensures !NoDuplicates(s)
  {
    if s[0] == s[1] {
      RepeatedElement(s, 0, 1);
    } else if s[0] == s[2] {
      RepeatedElement(s, 0, 2);
    } else {
      RepeatedElement(s, 1, 2);
    }
  }

  /** A duplicate-free sequence that holds two different values x and y and nothing else has length 2. */
  lemma TwoDistinctValues<T>(s: seq<T>, x: T, y: T)
    requires NoDuplicates(s)
    requires x != y && x in s && y in s
    requires forall i :: 0 <= i < |s| ==> s[i] == x || s[i] == y
    ensures |s| == 2
  {
    if |s| > 2 {
      ThreeFromTwo(s, x, y);
      assert false;
    }
  }
}
