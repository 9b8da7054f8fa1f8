/** Small shared vocabulary: an optional value (a nullable pointer in the
    source) and a few facts about sequences used as abstract lists. */
module Common {

  datatype Option<+T> = None | Some(value: T)

  /** No element occurs twice. */
  ghost predicate Distinct<T>(s: seq<T>)
  {
    forall i, j :: 0 <= i < j < |s| ==> s[i] != s[j]
  }

  /** The first element, or None for the empty list (a list's head pointer). */
  function First<T>(s: seq<T>): (r: Option<T>)
    ensures r.None? <==> s == []
    ensures s != [] ==> r == Some(s[0])
  {
    if s == [] then None else Some(s[0])
  }

  /** The last element, or None for the empty list (a list's tail pointer). */
  function Last<T>(s: seq<T>): (r: Option<T>)
    ensures r.None? <==> s == []
    ensures s != [] ==> r == Some(s[|s| - 1])
  {
    if s == [] then None else Some(s[|s| - 1])
  }

  /** The list with position k taken out. */
  function RemoveAt<T>(s: seq<T>, k: nat): (r: seq<T>)
    requires k < |s|
    ensures |r| == |s| - 1
    ensures forall i :: 0 <= i < k ==> r[i] == s[i]
    ensures forall i :: k <= i < |r| ==> r[i] == s[i + 1]
  {
    s[..k] + s[k + 1..]
  }

  lemma RemoveAtKeepsOthers<T>(s: seq<T>, k: nat, x: T)
    requires k < |s| && x in s && x != s[k]
    ensures x in RemoveAt(s, k)
  {
    var i :| 0 <= i < |s| && s[i] == x;
    if i < k {
      assert RemoveAt(s, k)[i] == x;
    } else {
      assert RemoveAt(s, k)[i - 1] == x;
    }
  }

  lemma RemoveAtDistinct<T>(s: seq<T>, k: nat)
    requires k < |s| && Distinct(s)
    ensures Distinct(RemoveAt(s, k)) && s[k] !in RemoveAt(s, k)
  {
    var r := RemoveAt(s, k);
    forall i, j | 0 <= i < j < |r| ensures r[i] != r[j] {
      var i' := if i < k then i else i + 1;
      var j' := if j < k then j else j + 1;
      assert r[i] == s[i'] && r[j] == s[j'];
    }
    forall i | 0 <= i < |r| ensures r[i] != s[k] {
      var i' := if i < k then i else i + 1;
      assert r[i] == s[i'];
    }
  }

  /** In a list without repetitions, taking out position k removes exactly
      the element found there. */
  lemma {:induction false} RemoveAtMembers<T>(s: seq<T>, k: nat)
    requires k < |s| && Distinct(s)
    ensures forall y :: y in RemoveAt(s, k) <==> y in s && y != s[k]
  {
    RemoveAtDistinct(s, k);
    forall y | y in s && y != s[k] ensures y in RemoveAt(s, k) {
      RemoveAtKeepsOthers(s, k, y);
    }
    forall y | y in RemoveAt(s, k) ensures y in s {
      var i :| 0 <= i < |s| - 1 && RemoveAt(s, k)[i] == y;
      assert y == s[if i < k then i else i + 1];
    }
  }

  /** The position of x in s (the first one). */
  function IndexOf<T(==)>(s: seq<T>, x: T): (k: nat)
    requires x in s
    ensures k < |s| && s[k] == x
    ensures forall i :: 0 <= i < k ==> s[i] != x
  {
    if s[0] == x then 0 else 1 + IndexOf(s[1..], x)
  }

  /** A list without repetitions drawn from 0..N-1 has at most N elements. */
  lemma {:induction false} DistinctBelow(r: seq<nat>, N: nat)
    requires Distinct(r) && forall j :: 0 <= j < |r| ==> r[j] < N
    ensures |r| <= N
    decreases N
  {
    if r != [] {
      assert r[0] < N;
      if N - 1 in r {
        var k := IndexOf(r, N - 1);
        var r' := RemoveAt(r, k);
        RemoveAtDistinct(r, k);
        forall j | 0 <= j < |r'| ensures r'[j] < N - 1 {
          assert r'[j] == r[if j < k then j else j + 1];
        }
        DistinctBelow(r', N - 1);
      } else {
        forall j | 0 <= j < |r| ensures r[j] < N - 1 {
          assert r[j] != N - 1;
        }
        DistinctBelow(r, N - 1);
      }
    }
  }
}
