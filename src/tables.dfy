/** Repository tables as sequences of rows in primary-key order. Keys are
    handed out by a counter, so a table's keys ascend and stay below it. */
module Tables {
  import opened Wrappers

  /** Keys ascend strictly, are positive, and are below the next key to hand out. */
  predicate KeysAscend<T>(s: seq<T>, key: T -> int, next: int) {
    next > 0 &&
    (forall i, j :: 0 <= i < j < |s| ==> key(s[i]) < key(s[j])) &&
    (forall i :: 0 <= i < |s| ==> 0 < key(s[i]) < next)
  }

  /** Position of the first row satisfying `p`. */
  function IndexWhere<T>(s: seq<T>, p: T -> bool): (r: Option<nat>)
    ensures r.Some? ==> r.value < |s| && p(s[r.value]) &&
                        forall i :: 0 <= i < r.value ==> !p(s[i])
    ensures r.None? ==> forall i :: 0 <= i < |s| ==> !p(s[i])
  {
    if s == [] then None
    else if p(s[0]) then Some(0)
    else match IndexWhere(s[1..], p)
      case None => None
      case Some(k) => Some(k + 1)
  }

  /** Position of the row with key `k`: `findById`. */
  function IndexOfKey<T>(s: seq<T>, key: T -> int, k: int): (r: Option<nat>)
    ensures r.Some? ==> r.value < |s| && key(s[r.value]) == k
    ensures r.None? ==> forall i :: 0 <= i < |s| ==> key(s[i]) != k
  {
    IndexWhere(s, x => key(x) == k)
  }

  /** The keys of a table, in table order. */
  function KeysOf<T>(s: seq<T>, key: T -> int): (r: seq<int>)
    ensures |r| == |s| && forall i :: 0 <= i < |s| ==> r[i] == key(s[i])
  {
    seq(|s|, i requires 0 <= i < |s| => key(s[i]))
  }

  /** `existsById`. */
  predicate HasKey<T>(s: seq<T>, key: T -> int, k: int) {
    k in KeysOf(s, key)
  }

  lemma HasKeyIff<T>(s: seq<T>, key: T -> int, k: int)
    ensures HasKey(s, key, k) <==> IndexOfKey(s, key, k).Some?
  {
    if IndexOfKey(s, key, k).Some? {
      assert KeysOf(s, key)[IndexOfKey(s, key, k).value] == k;
    }
  }

  /** Rows satisfying `p`, in table order. */
  function Filter<T>(s: seq<T>, p: T -> bool): (r: seq<T>)
    ensures |r| <= |s|
    ensures forall i :: 0 <= i < |r| ==> r[i] in s && p(r[i])
    ensures forall i :: 0 <= i < |s| && p(s[i]) ==> s[i] in r
  {
    if s == [] then [] else (if p(s[0]) then [s[0]] else []) + Filter(s[1..], p)
  }

  lemma {:induction false} FilterKeysAscend<T>(s: seq<T>, key: T -> int, next: int, p: T -> bool)
    requires KeysAscend(s, key, next)
    ensures KeysAscend(Filter(s, p), key, next)
  {
    if s != [] {
      assert KeysAscend(s[1..], key, next);
      FilterKeysAscend(s[1..], key, next, p);
      var r := Filter(s, p);
      var t := Filter(s[1..], p);
      forall i, j | 0 <= i < j < |r| ensures key(r[i]) < key(r[j]) {
        if p(s[0]) && i == 0 {
          assert r[j] in t;
          assert r[j] in s[1..];
          var k :| 0 <= k < |s[1..]| && s[1..][k] == r[j];
          assert s[k + 1] == r[j];
        }
      }
      forall i | 0 <= i < |r| ensures 0 < key(r[i]) < next {
        assert r[i] in s;
      }
    }
  }

  lemma AppendKeysAscend<T>(s: seq<T>, key: T -> int, next: int, x: T)
    requires KeysAscend(s, key, next) && key(x) == next
    ensures KeysAscend(s + [x], key, next + 1)
  {
  }

  lemma ReplaceKeysAscend<T>(s: seq<T>, key: T -> int, next: int, i: nat, x: T)
    requires KeysAscend(s, key, next) && i < |s| && key(x) == key(s[i])
    ensures KeysAscend(s[i := x], key, next)
  {
  }

  /** Removing the row at position `i` keeps the keys ascending. */
  lemma RemoveKeysAscend<T>(s: seq<T>, key: T -> int, next: int, i: nat)
    requires KeysAscend(s, key, next) && i < |s|
    ensures KeysAscend(s[..i] + s[i + 1..], key, next)
  {
    var r := s[..i] + s[i + 1..];
    forall a, b | 0 <= a < b < |r| ensures key(r[a]) < key(r[b]) {
      var a' := if a < i then a else a + 1;
      var b' := if b < i then b else b + 1;
      assert r[a] == s[a'] && r[b] == s[b'];
    }
  }

  /** Sum of a projection over the rows. */
  function SumOf<T>(s: seq<T>, f: T -> real): real {
    if s == [] then 0.0 else SumOf(s[..|s| - 1], f) + f(s[|s| - 1])
  }

  lemma {:induction false} SumOfConcat<T>(a: seq<T>, b: seq<T>, f: T -> real)
    ensures SumOf(a + b, f) == SumOf(a, f) + SumOf(b, f)
  {
    if b != [] {
      assert (a + b)[..|a + b| - 1] == a + b[..|b| - 1];
      SumOfConcat(a, b[..|b| - 1], f);
    } else {
      assert a + b == a;
    }
  }

  /** Number of rows satisfying `p`. */
  function CountOf<T>(s: seq<T>, p: T -> bool): (n: nat)
    ensures n == |Filter(s, p)|
  {
    if s == [] then 0 else (if p(s[0]) then 1 else 0) + CountOf(s[1..], p)
  }

  /** Removing a row keeps every other key. */
  lemma RemoveKeepsOtherKeys<T>(s: seq<T>, key: T -> int, i: nat, k: int)
    requires i < |s| && HasKey(s, key, k) && k != key(s[i])
    ensures HasKey(s[..i] + s[i + 1..], key, k)
  {
    var r := s[..i] + s[i + 1..];
    var j :| 0 <= j < |s| && KeysOf(s, key)[j] == k;
    if j < i {
      assert KeysOf(r, key)[j] == k;
    } else {
      assert KeysOf(r, key)[j - 1] == k;
    }
  }

  /** Removing the row at `i` of a table with unique keys removes its key
      and keeps every other row. */
  lemma RemoveAt<T>(s: seq<T>, key: T -> int, next: int, i: nat)
    requires KeysAscend(s, key, next) && i < |s|
    ensures !HasKey(s[..i] + s[i + 1..], key, key(s[i]))
    ensures forall j :: 0 <= j < |s| && j != i ==> s[j] in s[..i] + s[i + 1..]
  {
    var r := s[..i] + s[i + 1..];
    forall j | 0 <= j < |r| ensures key(r[j]) != key(s[i]) {
      if j < i {
        assert r[j] == s[j];
      } else {
        assert r[j] == s[j + 1];
      }
    }
    HasKeyIff(r, key, key(s[i]));
    forall j | 0 <= j < |s| && j != i ensures s[j] in r {
      if j < i {
        assert r[j] == s[j];
      } else {
        assert r[j - 1] == s[j];
      }
    }
  }

  /** `b[ix[i]] == a[i]` for every `i`, with `ix` strictly increasing:
      `a` is `b` with some elements left out and the rest in order. */
  ghost predicate Embeds<T>(a: seq<T>, b: seq<T>, ix: seq<nat>) {
    |ix| == |a| &&
    (forall i :: 0 <= i < |a| ==> ix[i] < |b| && b[ix[i]] == a[i]) &&
    (forall i, j :: 0 <= i < j < |ix| ==> ix[i] < ix[j])
  }

  function Shift(ix: seq<nat>): (r: seq<nat>)
    ensures |r| == |ix| && forall i :: 0 <= i < |ix| ==> r[i] == ix[i] + 1
  {
    seq(|ix|, i requires 0 <= i < |ix| => ix[i] + 1)
  }

  /** The positions of the rows of `s` satisfying `p`, ascending. */
  function Positions<T>(s: seq<T>, p: T -> bool): seq<nat> {
    if s == [] then [] else (if p(s[0]) then [0] else []) + Shift(Positions(s[1..], p))
  }

  lemma EmbedsSkip<T>(x: T, a: seq<T>, b: seq<T>, ix: seq<nat>)
    requires Embeds(a, b, ix)
    ensures Embeds(a, [x] + b, Shift(ix))
  {
    var sh := Shift(ix);
    forall i | 0 <= i < |a| ensures sh[i] < |[x] + b| && ([x] + b)[sh[i]] == a[i] {
      assert ([x] + b)[ix[i] + 1] == b[ix[i]];
    }
  }

  lemma EmbedsKeep<T>(x: T, a: seq<T>, b: seq<T>, ix: seq<nat>)
    requires Embeds(a, b, ix)
    ensures Embeds([x] + a, [x] + b, [0] + Shift(ix))
  {
    EmbedsSkip(x, a, b, ix);
    var sh := Shift(ix);
    var jx := [0] + sh;
    forall i | 0 <= i < |[x] + a| ensures jx[i] < |[x] + b| && ([x] + b)[jx[i]] == ([x] + a)[i] {
      if i > 0 {
        assert jx[i] == sh[i - 1] && ([x] + a)[i] == a[i - 1];
      }
    }
    forall i, j | 0 <= i < j < |jx| ensures jx[i] < jx[j] {
      assert jx[j] == sh[j - 1];
      if i > 0 {
        assert jx[i] == sh[i - 1];
      }
    }
  }

  /** Filtering keeps the surviving rows in their original order: they sit
      at the ascending positions `Positions(s, p)` of `s`. */
  lemma {:induction false} FilterEmbeds<T>(s: seq<T>, p: T -> bool)
    ensures Embeds(Filter(s, p), s, Positions(s, p))
  {
    if s != [] {
      FilterEmbeds(s[1..], p);
      assert s == [s[0]] + s[1..];
      if p(s[0]) {
        EmbedsKeep(s[0], Filter(s[1..], p), s[1..], Positions(s[1..], p));
      } else {
        EmbedsSkip(s[0], Filter(s[1..], p), s[1..], Positions(s[1..], p));
      }
    }
  }

  function Both<T>(p: T -> bool, q: T -> bool): T -> bool {
    x => p(x) && q(x)
  }

  /** Two filters in a row are one filter by the conjunction. */
  lemma {:induction false} FilterBoth<T>(s: seq<T>, p: T -> bool, q: T -> bool)
    ensures Filter(Filter(s, p), q) == Filter(s, Both(p, q))
  {
    if s != [] {
      FilterBoth(s[1..], p, q);
      var fp := Filter(s, p);
      if p(s[0]) {
        assert fp[0] == s[0] && fp[1..] == Filter(s[1..], p);
      } else {
        assert fp == Filter(s[1..], p);
      }
    }
  }

  lemma {:induction false} FilterConcat<T>(a: seq<T>, b: seq<T>, p: T -> bool)
    ensures Filter(a + b, p) == Filter(a, p) + Filter(b, p)
  {
    if a != [] {
      assert (a + b)[1..] == a[1..] + b;
      FilterConcat(a[1..], b, p);
    } else {
      assert a + b == b;
    }
  }

  /** A filter every row passes changes nothing. */
  lemma {:induction false} FilterAll<T>(s: seq<T>, p: T -> bool)
    requires forall i :: 0 <= i < |s| ==> p(s[i])
    ensures Filter(s, p) == s
  {
    if s != [] {
      FilterAll(s[1..], p);
    }
  }

  /** `Array.prototype.slice(begin, end)`: a negative bound counts from the
      end, and both bounds are clamped to the array. */
  function SliceBound(n: nat, k: int): (b: nat)
    ensures b <= n
    ensures 0 <= k <= n ==> b == k
    ensures k > n ==> b == n
  {
    if k < 0 then (if n + k < 0 then 0 else n + k) else if k > n then n else k
  }

  function Slice<T>(s: seq<T>, begin: int, end: int): (r: seq<T>)
    ensures |r| <= |s|
    ensures 0 <= begin <= end ==> |r| <= end - begin
    ensures 0 <= begin <= |s| && begin <= end ==>
      r == s[begin..SliceBound(|s|, end)]
  {
    var b := SliceBound(|s|, begin);
    var e := SliceBound(|s|, end);
    if e <= b then [] else s[b..e]
  }

  /** Sums of projections that agree row by row are equal. */
  lemma {:induction false} SumOfSame<A, B>(a: seq<A>, b: seq<B>, f: A -> real, g: B -> real)
    requires |a| == |b| && forall i :: 0 <= i < |a| ==> f(a[i]) == g(b[i])
    ensures SumOf(a, f) == SumOf(b, g)
  {
    if a != [] {
      SumOfSame(a[..|a| - 1], b[..|b| - 1], f, g);
    }
  }
}
