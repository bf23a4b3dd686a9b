/** Sequence helpers shared by the containers: sums of reals, the first
    index of a value, erasure and swapping of one entry. */
module SeqUtil {

  datatype Option<T> = None | Some(value: T)

  function Sum(s: seq<real>): real {
    if s == [] then 0.0 else Sum(s[..|s| - 1]) + s[|s| - 1]
  }

  lemma {:induction false} SumConcat(a: seq<real>, b: seq<real>)
    ensures Sum(a + b) == Sum(a) + Sum(b)
  {
    if b == [] {
      assert a + b == a;
    } else {
      assert (a + b)[..|a + b| - 1] == a + b[..|b| - 1];
      SumConcat(a, b[..|b| - 1]);
    }
  }

  lemma SumSingle(x: real)
    ensures Sum([x]) == x
  {
    assert [x][..0] == [];
  }

  /** Erasing one entry takes exactly its value off the sum. */
  lemma {:induction false} SumRemoveAt(s: seq<real>, n: nat)
    requires n < |s|
    ensures Sum(RemoveAt(s, n)) == Sum(s) - s[n]
  {
    var a, m, b := s[..n], [s[n]], s[n + 1..];
    assert s == a + m + b;
    SumConcat(a + m, b);
    SumConcat(a, m);
    SumConcat(a, b);
    SumSingle(s[n]);
  }

  /** Overwriting one entry changes the sum by the difference. */
  lemma {:induction false} SumUpdate(s: seq<real>, n: nat, v: real)
    requires n < |s|
    ensures Sum(s[n := v]) == Sum(s) - s[n] + v
  {
    var t := s[n := v];
    var a, b := s[..n], s[n + 1..];
    assert t[..n] == a && t[n + 1..] == b;
    assert t == a + [v] + b;
    assert s == a + [s[n]] + b;
    SumConcat(a + [s[n]], b);
    SumConcat(a, [s[n]]);
    SumConcat(a + [v], b);
    SumConcat(a, [v]);
    SumSingle(s[n]);
    SumSingle(v);
  }

  function RemoveAt<T>(s: seq<T>, n: nat): (r: seq<T>)
    requires n < |s|
    ensures |r| == |s| - 1
  {
    s[..n] + s[n + 1..]
  }

  /** The entries before n stay in place and the ones after it move down by one. */
  lemma RemoveAtIndex<T>(s: seq<T>, n: nat)
    requires n < |s|
    ensures forall i :: 0 <= i < n ==> RemoveAt(s, n)[i] == s[i]
    ensures forall i :: n <= i < |s| - 1 ==> RemoveAt(s, n)[i] == s[i + 1]
  {
  }

  function Swapped<T>(s: seq<T>, i: nat, j: nat): seq<T>
    requires i < |s| && j < |s|
  {
    s[i := s[j]][j := s[i]]
  }

  /** Swapping two entries keeps the sum. */
  lemma SumSwapped(s: seq<real>, i: nat, j: nat)
    requires i < |s| && j < |s|
    ensures Sum(Swapped(s, i, j)) == Sum(s)
  {
    SumUpdate(s, i, s[j]);
    SumUpdate(s[i := s[j]], j, s[i]);
  }

  /** The first index holding x, or -1: the linear scans of GetTimeIndex,
      GetSignalIndex, DaqToReadoutChannel and the ID lookups. */
  function IndexOf<T(==)>(s: seq<T>, x: T): (r: int)
    ensures -1 <= r < |s|
    ensures r == -1 <==> x !in s
    ensures 0 <= r ==> s[r] == x && forall k :: 0 <= k < r ==> s[k] != x
  {
    if s == [] then -1
    else if s[0] == x then 0
    else
      var r := IndexOf(s[1..], x);
      assert x in s <==> x in s[1..] by {
        assert s == [s[0]] + s[1..];
      }
      if r == -1 then -1 else r + 1
  }

  /** An index holding x with no earlier x is the first index of x. */
  lemma IndexOfAt<T>(s: seq<T>, i: nat, x: T)
    requires i < |s| && s[i] == x && forall k :: 0 <= k < i ==> s[k] != x
    ensures IndexOf(s, x) == i
  {
  }

  /** An entry is found at its own index or earlier. */
  lemma IndexOfAtMost<T>(s: seq<T>, i: nat)
    requires i < |s|
    ensures 0 <= IndexOf(s, s[i]) <= i
  {
  }

  /** Swapping two entries keeps the same elements. */
  lemma SwappedMultiset<T>(s: seq<T>, i: nat, j: nat)
    requires i < |s| && j < |s|
    ensures multiset(Swapped(s, i, j)) == multiset(s)
  {
  }

  /** A non-empty sequence is its prefix followed by its last element. */
  lemma SplitLast<T>(s: seq<T>)
    requires |s| > 0
    ensures s == s[..|s| - 1] + [s[|s| - 1]]
  {
  }
}
