/** The table mechanics the four services share. Every record carries an
    integer `Id`; the services reach it through a projection `key`. */
module Tables {
  import opened Results

  /** i is the index `findIndex(r => r.Id === k)` returns. */
  predicate IsFirst<T>(s: seq<T>, key: T -> int, k: int, i: int)
  {
    0 <= i < |s| && key(s[i]) == k && forall j :: 0 <= j < i ==> key(s[j]) != k
  }

  /** No record has Id k. */
  predicate Absent<T>(s: seq<T>, key: T -> int, k: int)
  {
    forall j :: 0 <= j < |s| ==> key(s[j]) != k
  }

  /** `findIndex(r => r.Id === k)`, with None for -1. */
  function IndexOf<T>(s: seq<T>, key: T -> int, k: int): (r: Option<nat>)
    ensures r.Some? ==> IsFirst(s, key, k, r.value)
    ensures r.None? <==> Absent(s, key, k)
  {
    if s == [] then None
    else if key(s[0]) == k then Some(0)
    else match IndexOf(s[1..], key, k)
      case None => None
      case Some(i) => Some(i + 1)
  }

  /** At most one index is the first one with a given Id. */
  lemma FirstIsUnique<T>(s: seq<T>, key: T -> int, k: int, i: int, j: int)
    requires IsFirst(s, key, k, i) && IsFirst(s, key, k, j)
    ensures i == j
  {
  }

  function Max(a: int, b: int): int { if a < b then b else a }

  /** `s.reduce((max, r) => Math.max(max, r.Id), start)`: the largest of
      start and all the Ids. */
  function MaxIdFrom<T>(start: int, s: seq<T>, key: T -> int): (m: int)
    ensures start <= m
    ensures forall i :: 0 <= i < |s| ==> key(s[i]) <= m
    ensures m == start || exists i :: 0 <= i < |s| && key(s[i]) == m
    decreases |s|
  {
    if s == [] then start
    else
      var m := MaxIdFrom(Max(start, key(s[0])), s[1..], key);
      assert m != Max(start, key(s[0])) ==> exists i :: 0 <= i < |s[1..]| && key(s[1..][i]) == m;
      assert m != Max(start, key(s[0])) ==> exists i :: 1 <= i < |s| && key(s[i]) == m by {
        if m != Max(start, key(s[0])) {
          var i :| 0 <= i < |s[1..]| && key(s[1..][i]) == m;
          assert key(s[i + 1]) == m;
        }
      }
      m
  }

  /** The Id `create` mints: the largest Id (0 for an empty table) plus one.
      It is positive and differs from every Id in the table, and it is the
      least such number: 1, or one more than some Id. */
  function NextId<T>(s: seq<T>, key: T -> int): (n: int)
    ensures n >= 1
    ensures Absent(s, key, n)
    ensures s == [] ==> n == 1
    ensures forall i :: 0 <= i < |s| ==> key(s[i]) < n
    ensures n == 1 || exists i :: 0 <= i < |s| && key(s[i]) == n - 1
  {
    MaxIdFrom(0, s, key) + 1
  }

  /** `splice(i, 1)`: the record at i removed, the rest in their order. */
  function RemoveAt<T>(s: seq<T>, i: nat): (r: seq<T>)
    requires i < |s|
    ensures |r| == |s| - 1
    ensures forall j :: 0 <= j < i ==> r[j] == s[j]
    ensures forall j :: i <= j < |r| ==> r[j] == s[j + 1]
  {
    s[..i] + s[i + 1..]
  }

  /** The table invariant: Ids are positive and pairwise distinct. */
  predicate UniqueIds<T>(s: seq<T>, key: T -> int)
  {
    && (forall i :: 0 <= i < |s| ==> key(s[i]) > 0)
    && (forall i, j :: 0 <= i < j < |s| ==> key(s[i]) != key(s[j]))
  }

  /** `create` keeps the invariant: the appended record carries NextId. */
  lemma AppendKeepsUnique<T>(s: seq<T>, key: T -> int, x: T)
    requires UniqueIds(s, key)
    requires key(x) == NextId(s, key)
    ensures UniqueIds(s + [x], key)
  {
  }

  /** `delete` keeps the invariant. */
  lemma RemoveKeepsUnique<T>(s: seq<T>, key: T -> int, i: nat)
    requires UniqueIds(s, key) && i < |s|
    ensures UniqueIds(RemoveAt(s, i), key)
  {
    var r := RemoveAt(s, i);
    forall a, b | 0 <= a < b < |r|
      ensures key(r[a]) != key(r[b])
    {
      var a' := if a < i then a else a + 1;
      var b' := if b < i then b else b + 1;
      assert r[a] == s[a'] && r[b] == s[b'] && a' < b';
    }
  }

  /** `update` keeps the invariant when the Id of the record is unchanged. */
  lemma ReplaceKeepsUnique<T>(s: seq<T>, key: T -> int, i: nat, x: T)
    requires UniqueIds(s, key) && i < |s|
    requires key(x) == key(s[i])
    ensures UniqueIds(s[i := x], key)
  {
  }

  /** After `create`, looking up the minted Id finds the appended record. */
  lemma AppendedIsFound<T>(s: seq<T>, key: T -> int, x: T)
    requires key(x) == NextId(s, key)
    ensures IndexOf(s + [x], key, key(x)) == Some(|s|)
  {
    var r := IndexOf(s + [x], key, key(x));
    assert IsFirst(s + [x], key, key(x), |s|);
    FirstIsUnique(s + [x], key, key(x), r.value, |s|);
  }

  /** After `delete` on a table that keeps the invariant, the deleted Id is
      no longer found. Without the invariant a duplicate could remain. */
  lemma RemovedIsGone<T>(s: seq<T>, key: T -> int, i: nat)
    requires UniqueIds(s, key) && i < |s|
    ensures Absent(RemoveAt(s, i), key, key(s[i]))
  {
    var r := RemoveAt(s, i);
    forall j | 0 <= j < |r|
      ensures key(r[j]) != key(s[i])
    {
      if j < i {
        assert r[j] == s[j];
      } else {
        assert r[j] == s[j + 1];
      }
    }
  }

  /** After an `update` that keeps the Id, looking the Id up again finds
      the same index, now holding the merged record. */
  lemma ReplacedIsFound<T>(s: seq<T>, key: T -> int, i: nat, x: T)
    requires IsFirst(s, key, key(x), i)
    ensures IndexOf(s[i := x], key, key(x)) == Some(i)
  {
    var r := IndexOf(s[i := x], key, key(x));
    assert IsFirst(s[i := x], key, key(x), i);
    FirstIsUnique(s[i := x], key, key(x), r.value, i);
  }
}
