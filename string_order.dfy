/**
 * The natural order of Java strings (`String.compareTo`), and the sorted,
 * duplicate-free collection of names that a `TreeSet<String>` maintains.
 */
module StringOrder {

  /**
   * The sign of Java's `a.compareTo(b)`: the first differing character decides,
   * and a proper prefix sorts first. Java returns the difference itself; every
   * caller in the modelled code only looks at its sign.
   */
  function CompareStrings(a: string, b: string): (r: int)
    ensures -1 <= r <= 1
    ensures r == 0 <==> a == b
  {
    if a == [] then (if b == [] then 0 else -1)
    else if b == [] then 1
    else if a[0] < b[0] then -1
    else if b[0] < a[0] then 1
    else
      var r := CompareStrings(a[1..], b[1..]);
      assert a == [a[0]] + a[1..] && b == [b[0]] + b[1..];
      r
  }

  lemma {:induction false} CompareStringsAntisymmetric(a: string, b: string)
    ensures CompareStrings(a, b) == -CompareStrings(b, a)
  {
    if a != [] && b != [] && a[0] == b[0] {
      CompareStringsAntisymmetric(a[1..], b[1..]);
    }
  }

  lemma {:induction false} CompareStringsTransitive(a: string, b: string, c: string)
    requires CompareStrings(a, b) < 0 && CompareStrings(b, c) < 0
    ensures CompareStrings(a, c) < 0
  {
    if a != [] && a[0] == b[0] && b[0] == c[0] {
      CompareStringsTransitive(a[1..], b[1..], c[1..]);
    }
  }

  /** Strictly increasing under `CompareStrings`: sorted and free of duplicates. */
  ghost predicate StrictlySorted(s: seq<string>) {
    forall i, j | 0 <= i < j < |s| :: CompareStrings(s[i], s[j]) < 0
  }

  /** `TreeSet.add`: put `x` in its place, unless it is already there. */
  function Insert(s: seq<string>, x: string): (r: seq<string>)
    requires StrictlySorted(s)
    ensures StrictlySorted(r)
    ensures forall y :: y in r <==> y in s || y == x
  {
    if s == [] then [x]
    else
      var c := CompareStrings(x, s[0]);
      if c < 0 then
        assert forall j | 0 <= j < |s| :: CompareStrings(x, s[j]) < 0 by {
          forall j | 0 < j < |s| ensures CompareStrings(x, s[j]) < 0 {
            CompareStringsTransitive(x, s[0], s[j]);
          }
        }
        [x] + s
      else if c == 0 then s
      else
        var rest := Insert(s[1..], x);
        CompareStringsAntisymmetric(x, s[0]);
        assert forall y | y in rest :: CompareStrings(s[0], y) < 0 by {
          forall y | y in rest ensures CompareStrings(s[0], y) < 0 {
            if y != x {
              var j :| 0 <= j < |s[1..]| && s[1..][j] == y;
              assert s[j + 1] == y;
            }
          }
        }
        [s[0]] + rest
  }

  /** `TreeSet.addAll`: insert every name of `names`, in turn. */
  function InsertAll(s: seq<string>, names: seq<string>): (r: seq<string>)
    requires StrictlySorted(s)
    ensures StrictlySorted(r)
    ensures forall y :: y in r <==> y in s || y in names
    decreases |names|
  {
    if names == [] then s
    else
      var r := InsertAll(Insert(s, names[0]), names[1..]);
      assert forall y :: y in names <==> y == names[0] || y in names[1..] by {
        assert names == [names[0]] + names[1..];
      }
      r
  }

  /** Adding two lists of names in turn is adding their concatenation. */
  lemma {:induction false} InsertAllAppend(s: seq<string>, a: seq<string>, b: seq<string>)
    requires StrictlySorted(s)
    ensures InsertAll(InsertAll(s, a), b) == InsertAll(s, a + b)
    decreases |a|
  {
    if a == [] {
      assert a + b == b;
    } else {
      assert (a + b)[0] == a[0] && (a + b)[1..] == a[1..] + b;
      InsertAllAppend(Insert(s, a[0]), a[1..], b);
    }
  }

  /**
   * A sorted, duplicate-free sequence is determined by its members: it is the
   * one strictly sorted arrangement of its set.
   */
  lemma {:induction false} StrictlySortedUnique(s: seq<string>, t: seq<string>)
    requires StrictlySorted(s) && StrictlySorted(t)
    requires forall y :: y in s <==> y in t
    ensures s == t
    decreases |s| + |t|, |t|
  {
    if s != [] {
      assert s[0] in t && t != [] && t[0] in s;
      if s[0] != t[0] {
        var i :| 0 <= i < |t| && t[i] == s[0];
        var j :| 0 <= j < |s| && s[j] == t[0];
        CompareStringsAntisymmetric(s[0], t[0]);
      }
      forall y ensures y in s[1..] <==> y in t[1..] {
        TailMembers(s, y);
        TailMembers(t, y);
      }
      StrictlySortedUnique(s[1..], t[1..]);
    } else if t != [] {
      StrictlySortedUnique(t, s);
    }
  }

  /** The tail of a sorted sequence holds its members other than the first. */
  lemma TailMembers(s: seq<string>, y: string)
    requires StrictlySorted(s) && s != []
    ensures y in s[1..] <==> y in s && y != s[0]
  {
    if y in s[1..] {
      var i :| 0 <= i < |s[1..]| && s[1..][i] == y;
      assert s[i + 1] == y;
    }
    if y in s && y != s[0] {
      var i :| 0 <= i < |s| && s[i] == y;
      assert s[1..][i - 1] == y;
    }
  }
}
