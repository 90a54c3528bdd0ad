/** Option, identifiers and the string order shared by every other module. */
module Text {

  datatype Option<+T> = None | Some(value: T)

  function Lookup<V>(m: map<string, V>, key: string): Option<V>
  {
    if key in m then Some(m[key]) else None
  }

  predicate IsSpace(c: char)
  {
    c in {' ', '\t', '\n', '\r', '\U{000B}', '\U{000C}'}
  }

  /** Removes white space at both ends, as the services do before using an identifier. */
  function Strip(s: string): (t: string)
    ensures t != "" ==> !IsSpace(t[0]) && !IsSpace(t[|t| - 1])
    ensures |t| <= |s|
    decreases |s|
  {
    if s == "" then s
    else if IsSpace(s[0]) then Strip(s[1..])
    else if IsSpace(s[|s| - 1]) then Strip(s[..|s| - 1])
    else s
  }

  predicate Trimmed(s: string)
  {
    Strip(s) == s
  }

  predicate Blank(s: string)
  {
    Strip(s) == ""
  }

  lemma StripIsTrimmed(s: string)
    ensures Trimmed(Strip(s))
  {
  }

  /** Code-point order on strings, the last tie-break of the result calculation. */
  predicate Leq(a: string, b: string)
    decreases |a|
  {
    a == "" || (b != "" && (a[0] < b[0] || (a[0] == b[0] && Leq(a[1..], b[1..]))))
  }

  lemma {:induction false} LeqTotal(a: string, b: string)
    ensures Leq(a, b) || Leq(b, a)
    decreases |a|
  {
    if a != "" && b != "" && a[0] == b[0] {
      LeqTotal(a[1..], b[1..]);
    }
  }

  lemma {:induction false} LeqAntisymmetric(a: string, b: string)
    requires Leq(a, b) && Leq(b, a)
    ensures a == b
    decreases |a|
  {
    if a != "" {
      LeqAntisymmetric(a[1..], b[1..]);
      assert a == [a[0]] + a[1..] && b == [b[0]] + b[1..];
    }
  }

  lemma {:induction false} LeqTransitive(a: string, b: string, c: string)
    requires Leq(a, b) && Leq(b, c)
    ensures Leq(a, c)
    decreases |a|
  {
    if a != "" && a[0] == b[0] && b[0] == c[0] {
      LeqTransitive(a[1..], b[1..], c[1..]);
    }
  }

  predicate Least(s: set<string>, m: string)
  {
    m in s && forall k :: k in s ==> Leq(m, k)
  }

  lemma {:induction false} LeastExists(s: set<string>)
    requires s != {}
    ensures exists m :: Least(s, m)
    decreases |s|
  {
    var k :| k in s;
    var rest := s - {k};
    LeqTotal(k, k);
    assert forall j :: j in s ==> j == k || j in rest;
    if rest == {} {
      assert Least(s, k);
    } else {
      LeastExists(rest);
      var m :| Least(rest, m);
      LeqTotal(k, m);
      if Leq(m, k) {
        assert Least(s, m);
      } else {
        forall j | j in s ensures Leq(k, j) {
          if j != k {
            LeqTransitive(k, m, j);
          }
        }
        assert Least(s, k);
      }
    }
  }

  lemma LeastUnique(s: set<string>, j: string, k: string)
    requires Least(s, j) && Least(s, k)
    ensures j == k
  {
    LeqAntisymmetric(j, k);
  }

  /** The first address in sorted order. */
  function First(s: set<string>): (first: Option<string>)
    ensures first.None? <==> s == {}
    ensures first.Some? ==> Least(s, first.value)
  {
    if s == {} then None
    else
      LeastExists(s);
      assert forall j, k :: Least(s, j) && Least(s, k) ==> j == k by {
        forall j, k | Least(s, j) && Least(s, k) ensures j == k {
          LeastUnique(s, j, k);
        }
      }
      var m :| m in s && Least(s, m);
      Some(m)
  }

  /** `sorted(s)`. */
  function Sorted(s: set<string>): (ids: seq<string>)
    ensures forall k :: k in s <==> k in ids
    ensures |ids| == |s|
    decreases |s|
  {
    match First(s)
    case None => []
    case Some(k) => [k] + Sorted(s - {k})
  }

  lemma {:induction false} SortedIsDistinct(s: set<string>)
    ensures forall i, j :: 0 <= i < j < |Sorted(s)| ==> Sorted(s)[i] != Sorted(s)[j]
    decreases |s|
  {
    if s != {} {
      var k := First(s).value;
      SortedIsDistinct(s - {k});
      assert forall i :: 0 <= i < |Sorted(s - {k})| ==> Sorted(s - {k})[i] in s - {k};
    }
  }
}
