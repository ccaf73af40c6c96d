/** Shared vocabulary of the domain layer: error-carrying results, JavaScript
    dates, blank-string checks and the keyed-sequence operations that the
    entities and the repository perform with `findIndex`, `push` and `splice`. */
module Common {

  /** The value of an operation that either returns or throws an `Error` with a message. */
  datatype Result<+T> = Ok(value: T) | Err(error: string) {
    predicate IsFailure() { Err? }
    function PropagateFailure<U>(): Result<U>
      requires Err?
    {
      Err(error)
    }
    function Extract(): T
      requires Ok?
    {
      value
    }
  }

  /** The completion of an operation that returns nothing or throws. */
  datatype Outcome = Pass | Fail(error: string)

  datatype Option<+T> = None | Some(value: T) {
    function GetOr(default: T): T {
      if Some? then value else default
    }
  }

  /** A JavaScript `Date`: a time value in milliseconds since the epoch, or the
      invalid date whose time value is NaN. */
  datatype Date = Time(ms: int) | InvalidDate

  /** The characters `String.prototype.trim` removes: ECMAScript white space and line terminators. */
  predicate IsWhitespace(c: char) {
    c in {'\t', '\n', '\U{000B}', '\U{000C}', '\r', ' ', '\U{00A0}', '\U{1680}',
          '\U{2000}', '\U{2001}', '\U{2002}', '\U{2003}', '\U{2004}', '\U{2005}',
          '\U{2006}', '\U{2007}', '\U{2008}', '\U{2009}', '\U{200A}', '\U{2028}',
          '\U{2029}', '\U{202F}', '\U{205F}', '\U{3000}', '\U{FEFF}'}
  }

  /** `!s || s.trim().length === 0`: the string is empty or only white space. */
  predicate IsBlank(s: string) {
    forall i :: 0 <= i < |s| ==> IsWhitespace(s[i])
  }

  /** `s.findIndex(x => key(x) === k)`: the first position whose key is `k`, or -1. */
  function IndexOf<T, K(==)>(s: seq<T>, key: T -> K, k: K): (i: int)
    ensures -1 <= i < |s|
    ensures i == -1 <==> forall j :: 0 <= j < |s| ==> key(s[j]) != k
    ensures i >= 0 ==> key(s[i]) == k && forall j :: 0 <= j < i ==> key(s[j]) != k
  {
    if s == [] then -1
    else if key(s[0]) == k then 0
    else
      var j := IndexOf(s[1..], key, k);
      if j == -1 then -1 else j + 1
  }

  /** True when `s` holds an element whose key is `k` (`s.some(...)`). */
  predicate HasKey<T, K(==)>(s: seq<T>, key: T -> K, k: K) {
    exists j :: 0 <= j < |s| && key(s[j]) == k
  }

  /** No two elements of `s` share a key. */
  predicate UniqueKeys<T, K(==)>(s: seq<T>, key: T -> K) {
    forall i, j :: 0 <= i < j < |s| ==> key(s[i]) != key(s[j])
  }

  /** Replace-or-append by key: overwrite the first element whose key equals
      that of `x`, or push `x` when there is none. */
  function Upsert<T, K(==)>(s: seq<T>, x: T, key: T -> K): (r: seq<T>)
    ensures HasKey(s, key, key(x)) ==> |r| == |s|
    ensures !HasKey(s, key, key(x)) ==> |r| == |s| + 1
    ensures HasKey(r, key, key(x))
    ensures forall y :: y in r ==> y in s || y == x
  {
    var i := IndexOf(s, key, key(x));
    if i >= 0 then
      var r := s[i := x];
      assert key(r[i]) == key(x);
      r
    else
      var r := s + [x];
      assert key(r[|s|]) == key(x);
      r
  }

  /** `s.splice(i, 1)`: delete position `i`, shifting the later elements down. */
  function RemoveAt<T>(s: seq<T>, i: int): (r: seq<T>)
    requires 0 <= i < |s|
    ensures |r| == |s| - 1
    ensures forall j :: 0 <= j < i ==> r[j] == s[j]
    ensures forall j :: i <= j < |r| ==> r[j] == s[j + 1]
    ensures forall y :: y in r ==> y in s
  {
    s[..i] + s[i + 1..]
  }

  /** `s.filter(x => key(x) !== k)`: drop every element whose key is `k`. */
  function RemoveAllKey<T, K(==)>(s: seq<T>, key: T -> K, k: K): (r: seq<T>)
    ensures |r| <= |s|
    ensures !HasKey(r, key, k)
    ensures forall x :: x in s && key(x) != k ==> x in r
    ensures forall x :: x in r ==> x in s
  {
    if s == [] then []
    else if key(s[0]) == k then RemoveAllKey(s[1..], key, k)
    else [s[0]] + RemoveAllKey(s[1..], key, k)
  }

  /** `filter` keeps every surviving element exactly as often as it occurs. */
  lemma {:induction false} RemoveAllKeyCounts<T, K>(s: seq<T>, key: T -> K, k: K, x: T)
    ensures multiset(RemoveAllKey(s, key, k))[x] == if key(x) == k then 0 else multiset(s)[x]
  {
    if s != [] {
      RemoveAllKeyCounts(s[1..], key, k, x);
      assert s == [s[0]] + s[1..];
    }
  }

  /** Add-if-absent by key (`if (s.some(...)) return; s.push(x)`). */
  function AddIfAbsent<T, K(==)>(s: seq<T>, x: T, key: T -> K): (r: seq<T>)
    ensures HasKey(r, key, key(x))
    ensures forall y :: y in r ==> y in s || y == x
    ensures |r| <= |s| + 1
    ensures HasKey(s, key, key(x)) ==> r == s
    ensures !HasKey(s, key, key(x)) ==> r == s + [x]
  {
    if HasKey(s, key, key(x)) then s
    else
      var r := s + [x];
      assert key(r[|s|]) == key(x);
      r
  }

  /** Adding a key that is already present changes nothing, so adding twice is adding once. */
  lemma AddIfAbsentIdempotent<T, K>(s: seq<T>, x: T, key: T -> K)
    ensures HasKey(s, key, key(x)) ==> AddIfAbsent(s, x, key) == s
    ensures AddIfAbsent(AddIfAbsent(s, x, key), x, key) == AddIfAbsent(s, x, key)
  {
  }

  /** Element `i` is the first one on which `f` throws, with message `e`. */
  ghost predicate FirstFailure<A, B>(xs: seq<A>, f: A -> Result<B>, i: int, e: string) {
    && 0 <= i < |xs|
    && f(xs[i]) == Err(e)
    && forall j :: 0 <= j < i ==> f(xs[j]).Ok?
  }

  /** `xs.map(f)` where `f` may throw: the first failing element aborts the whole map. */
  function MapAll<A, B>(xs: seq<A>, f: A -> Result<B>): (r: Result<seq<B>>)
    ensures r.Ok? <==> forall i :: 0 <= i < |xs| ==> f(xs[i]).Ok?
    ensures r.Ok? ==> |r.value| == |xs| && forall i :: 0 <= i < |xs| ==> f(xs[i]) == Ok(r.value[i])
    ensures r.Err? ==> exists i :: FirstFailure(xs, f, i, r.error)
  {
    if xs == [] then Ok([])
    else
      match f(xs[0])
      case Err(e) =>
        assert FirstFailure(xs, f, 0, e);
        Err(e)
      case Ok(y) =>
        match MapAll(xs[1..], f)
        case Err(e) =>
          assert exists i :: FirstFailure(xs, f, i, e) by {
            var i :| FirstFailure(xs[1..], f, i, e);
            forall j | 0 <= j < i + 1 ensures f(xs[j]).Ok? {
              if j > 0 { assert xs[j] == xs[1..][j - 1]; }
            }
            assert FirstFailure(xs, f, i + 1, e);
          }
          Err(e)
        case Ok(ys) => Ok([y] + ys)
  }

  /** An existing key is overwritten in place at its first position; nothing else moves. */
  lemma UpsertReplacesInPlace<T, K>(s: seq<T>, x: T, key: T -> K)
    requires HasKey(s, key, key(x))
    ensures var i := IndexOf(s, key, key(x));
      0 <= i < |s| && Upsert(s, x, key)[i] == x &&
      forall j :: 0 <= j < |s| && j != i ==> Upsert(s, x, key)[j] == s[j]
  {
  }

  /** A new key is appended at the end. */
  lemma UpsertAppendsNew<T, K>(s: seq<T>, x: T, key: T -> K)
    requires !HasKey(s, key, key(x))
    ensures Upsert(s, x, key) == s + [x]
  {
  }

  /** Replace-or-append keeps keys unique and leaves the key set `keys(s) + {key(x)}`. */
  lemma UpsertKeepsKeysUnique<T, K>(s: seq<T>, x: T, key: T -> K)
    requires UniqueKeys(s, key)
    ensures UniqueKeys(Upsert(s, x, key), key)
    ensures forall k :: HasKey(Upsert(s, x, key), key, k) <==> HasKey(s, key, k) || k == key(x)
  {
    var r := Upsert(s, x, key);
    var i := IndexOf(s, key, key(x));
    if i >= 0 {
      forall k | HasKey(s, key, k) ensures HasKey(r, key, k) {
        var j :| 0 <= j < |s| && key(s[j]) == k;
        assert key(r[j]) == k;
      }
      forall k | HasKey(r, key, k) ensures HasKey(s, key, k) || k == key(x) {
        var j :| 0 <= j < |r| && key(r[j]) == k;
        if j != i { assert key(s[j]) == k; }
      }
    } else {
      assert r == s + [x];
      forall k | HasKey(s, key, k) ensures HasKey(r, key, k) {
        var j :| 0 <= j < |s| && key(s[j]) == k;
        assert key(r[j]) == k;
      }
      forall k | HasKey(r, key, k) ensures HasKey(s, key, k) || k == key(x) {
        var j :| 0 <= j < |r| && key(r[j]) == k;
        if j < |s| { assert key(s[j]) == k; }
      }
    }
  }

  /** Filtering by key keeps the surviving elements in their original relative order. */
  lemma {:induction false} RemoveAllKeepsOrder<T, K>(s: seq<T>, key: T -> K, k: K, i: int, j: int)
    requires 0 <= i < j < |s| && key(s[i]) != k && key(s[j]) != k
    ensures exists p, q ::
      && 0 <= p < q < |RemoveAllKey(s, key, k)|
      && RemoveAllKey(s, key, k)[p] == s[i]
      && RemoveAllKey(s, key, k)[q] == s[j]
  {
    var r := RemoveAllKey(s, key, k);
    var t := RemoveAllKey(s[1..], key, k);
    if i == 0 {
      assert s[j] == s[1..][j - 1];
      assert s[j] in t;
      var q :| 0 <= q < |t| && t[q] == s[j];
      assert r == [s[0]] + t;
      assert r[0] == s[i] && r[q + 1] == s[j];
    } else {
      assert s[i] == s[1..][i - 1] && s[j] == s[1..][j - 1];
      RemoveAllKeepsOrder(s[1..], key, k, i - 1, j - 1);
      var p, q :| 0 <= p < q < |t| && t[p] == s[i] && t[q] == s[j];
      if key(s[0]) == k {
        assert r == t;
      } else {
        assert r == [s[0]] + t;
        assert r[p + 1] == s[i] && r[q + 1] == s[j];
      }
    }
  }

  /** After replace-or-append, the first element with the key of `x` is `x`. */
  lemma UpsertFindsNew<T, K>(s: seq<T>, x: T, key: T -> K)
    ensures 0 <= IndexOf(Upsert(s, x, key), key, key(x))
    ensures Upsert(s, x, key)[IndexOf(Upsert(s, x, key), key, key(x))] == x
  {
    var r := Upsert(s, x, key);
    var i := IndexOf(s, key, key(x));
    if i >= 0 {
      assert key(r[i]) == key(x);
      assert forall j :: 0 <= j < i ==> key(r[j]) != key(x);
      assert IndexOf(r, key, key(x)) == i;
    } else {
      assert key(r[|s|]) == key(x);
      assert forall j :: 0 <= j < |s| ==> key(r[j]) != key(x);
      assert IndexOf(r, key, key(x)) == |s|;
    }
  }
}
