/**
 * The Python built-in behaviours the adapter relies on: list indexing,
 * `numpy.arange`, `os.path.join`, and dictionaries built by comprehension
 * (later pairs overwrite earlier ones; iteration follows first insertion).
 */
module Py {
  import opened Wrappers

  predicate Distinct<T(==)>(s: seq<T>) {
    forall p, q :: 0 <= p < q < |s| ==> s[p] != s[q]
  }

  /** `s[i]` on a list or one-dimensional array: a negative index counts from the end. */
  function At<T>(s: seq<T>, i: int): (r: Result<T>)
    ensures r.Success? <==> -|s| <= i < |s|
    ensures r.Success? ==> r.value == s[if i < 0 then i + |s| else i]
    ensures r.Failure? ==> r.error == IndexError
  {
    if 0 <= i < |s| then Success(s[i])
    else if -|s| <= i < 0 then Success(s[i + |s|])
    else Failure(IndexError)
  }

  /** `numpy.arange(n)`. */
  function Range(n: nat): (r: seq<int>)
    ensures |r| == n && forall i :: 0 <= i < n ==> r[i] == i
  {
    seq(n, i => i)
  }

  /** A POSIX path that starts at the root. */
  predicate IsAbsolute(path: string) {
    |path| > 0 && path[0] == '/'
  }

  predicate EndsWith(s: string, suffix: string) {
    |suffix| <= |s| && s[|s| - |suffix|..] == suffix
  }

  /** `enumerate(s)` with each index shifted by one: `(ind + 1, x)`. */
  function Enumerate1<T>(s: seq<T>): (ps: seq<(int, T)>)
    ensures |ps| == |s| && forall i :: 0 <= i < |s| ==> ps[i] == (i + 1, s[i])
  {
    seq(|s|, i requires 0 <= i < |s| => (i + 1, s[i]))
  }

  /** `zip(a, b)`: stops at the shorter list. */
  function Zip<A, B>(a: seq<A>, b: seq<B>): (ps: seq<(A, B)>)
    ensures |ps| == if |a| <= |b| then |a| else |b|
    ensures forall i :: 0 <= i < |ps| ==> ps[i] == (a[i], b[i])
  {
    var n := if |a| <= |b| then |a| else |b|;
    seq(n, i requires 0 <= i < n => (a[i], b[i]))
  }

  /**
   * `os.path.join(dir, name)` with `/` as separator: an absolute `name`
   * replaces `dir`; otherwise `name` is appended, after a `/` unless `dir` is
   * empty or already ends with one.
   */
  function Join(dir: string, name: string): string {
    if IsAbsolute(name) then name
    else if dir == [] || dir[|dir| - 1] == '/' then dir + name
    else dir + "/" + name
  }

  /** What `Join` keeps of its two parts, and where the separator goes. */
  lemma JoinParts(dir: string, name: string)
    ensures IsAbsolute(name) ==> Join(dir, name) == name
    ensures !IsAbsolute(name) ==> |dir| + |name| <= |Join(dir, name)| <= |dir| + |name| + 1
    ensures !IsAbsolute(name) ==> Join(dir, name)[..|dir|] == dir && EndsWith(Join(dir, name), name)
    ensures !IsAbsolute(name) && dir != [] ==> Join(dir, name)[|Join(dir, name)| - |name| - 1] == '/'
    ensures !IsAbsolute(name) && (dir == [] || dir[|dir| - 1] == '/') ==> |Join(dir, name)| == |dir| + |name|
  {
  }

  /** Joining a relative name onto a path that ends in a directory name keeps that name, then a `/`, then the joined name. */
  lemma JoinAfter(dir: string, last: string, name: string)
    requires EndsWith(dir, last) && last != [] && last[|last| - 1] != '/'
    requires !IsAbsolute(name)
    ensures EndsWith(Join(dir, name), last + "/" + name)
  {
    var r := Join(dir, name);
    assert r == dir + "/" + name;
    assert r[|r| - |last + "/" + name|..] == dir[|dir| - |last|..] + "/" + name;
  }

  function Firsts<K, V>(ps: seq<(K, V)>): (ks: seq<K>)
    ensures |ks| == |ps| && forall i :: 0 <= i < |ps| ==> ks[i] == ps[i].0
  {
    seq(|ps|, i requires 0 <= i < |ps| => ps[i].0)
  }

  function Swap<K, V>(ps: seq<(K, V)>): (qs: seq<(V, K)>)
    ensures |qs| == |ps| && forall i :: 0 <= i < |ps| ==> qs[i] == (ps[i].1, ps[i].0)
  {
    seq(|ps|, i requires 0 <= i < |ps| => (ps[i].1, ps[i].0))
  }

  /**
   * The dictionary `{k: v for k, v in ps}`: every key of `ps` is present and
   * a later pair overwrites an earlier pair with the same key.
   */
  function FromPairs<K(==, !new), V>(ps: seq<(K, V)>): (m: map<K, V>)
    ensures forall k :: k in m <==> k in Firsts(ps)
  {
    if ps == [] then map[]
    else
      var last := ps[|ps| - 1];
      assert Firsts(ps) == Firsts(ps[..|ps| - 1]) + [last.0];
      FromPairs(ps[..|ps| - 1])[last.0 := last.1]
  }

  /** The value a dictionary built from `ps` holds for `ps[i].0` is `ps[i].1` when no later pair reuses the key. */
  lemma {:induction false} FromPairsAt<K(!new), V>(ps: seq<(K, V)>, i: nat)
    requires i < |ps|
    requires forall j :: i < j < |ps| ==> ps[j].0 != ps[i].0
    ensures ps[i].0 in FromPairs(ps) && FromPairs(ps)[ps[i].0] == ps[i].1
  {
    if i < |ps| - 1 {
      FromPairsAt(ps[..|ps| - 1], i);
    }
  }

  /** Every value of a dictionary built from `ps` comes from a pair of `ps` with that key. */
  lemma {:induction false} FromPairsOrigin<K(!new), V>(ps: seq<(K, V)>, k: K) returns (i: nat)
    requires k in FromPairs(ps)
    ensures i < |ps| && ps[i].0 == k && FromPairs(ps)[k] == ps[i].1
  {
    var last := ps[|ps| - 1];
    if last.0 == k {
      i := |ps| - 1;
    } else {
      i := FromPairsOrigin(ps[..|ps| - 1], k);
    }
  }

  /** The keys of `ks` in order of first occurrence: the key order of a dictionary filled from `ks`. */
  function KeyOrder<K(==, !new)>(ks: seq<K>): (order: seq<K>)
    ensures forall k :: k in order <==> k in ks
    ensures Distinct(order)
  {
    if ks == [] then []
    else
      var prev := KeyOrder(ks[..|ks| - 1]);
      var k := ks[|ks| - 1];
      assert ks == ks[..|ks| - 1] + [k];
      if k in prev then prev else prev + [k]
  }

  lemma {:induction false} KeyOrderOfDistinct<K(!new)>(ks: seq<K>)
    requires Distinct(ks)
    ensures KeyOrder(ks) == ks
  {
    if ks != [] {
      var init := ks[..|ks| - 1];
      KeyOrderOfDistinct(init);
      assert ks[|ks| - 1] !in init;
      assert ks == init + [ks[|ks| - 1]];
    }
  }

  /** `d.items()` of the dictionary built from `ps`, in insertion order. */
  function Items<K(==, !new), V>(ps: seq<(K, V)>): (items: seq<(K, V)>)
    ensures Distinct(Firsts(items))
    ensures forall k :: k in Firsts(items) <==> k in Firsts(ps)
    ensures forall i :: 0 <= i < |items| ==> items[i].0 in FromPairs(ps) && items[i].1 == FromPairs(ps)[items[i].0]
  {
    var ks := KeyOrder(Firsts(ps));
    var m := FromPairs(ps);
    var items := seq(|ks|, i requires 0 <= i < |ks| => (ks[i], m[ks[i]]));
    assert Firsts(items) == ks;
    items
  }

  /** With distinct keys the items of the built dictionary are the pairs themselves, in order. */
  lemma ItemsOfDistinct<K(!new), V>(ps: seq<(K, V)>)
    requires Distinct(Firsts(ps))
    ensures Items(ps) == ps
  {
    KeyOrderOfDistinct(Firsts(ps));
    forall i | 0 <= i < |ps|
      ensures FromPairs(ps)[ps[i].0] == ps[i].1
    {
      FromPairsAt(ps, i);
    }
  }

  /** Rebuilding a dictionary from its own items gives the same dictionary. */
  lemma FromPairsOfItems<K(!new), V>(ps: seq<(K, V)>)
    ensures FromPairs(Items(ps)) == FromPairs(ps)
  {
    var items := Items(ps);
    forall k | k in FromPairs(items)
      ensures k in FromPairs(ps) && FromPairs(items)[k] == FromPairs(ps)[k]
    {
      var i := FromPairsOrigin(items, k);
    }
    forall k | k in FromPairs(ps)
      ensures k in FromPairs(items)
    {
      assert k in Firsts(ps);
    }
  }

  /** `[m[k] for k in keys]`: raises KeyError unless every key is present; order is kept. */
  function LookupAll<K(==, !new), V>(m: map<K, V>, keys: seq<K>): (r: Result<seq<V>>)
    ensures r.Success? <==> forall i :: 0 <= i < |keys| ==> keys[i] in m
    ensures r.Success? ==> |r.value| == |keys| && forall i :: 0 <= i < |keys| ==> r.value[i] == m[keys[i]]
    ensures r.Failure? ==> r.error == KeyError
  {
    if keys == [] then Success([])
    else
      var last := keys[|keys| - 1];
      assert keys == keys[..|keys| - 1] + [last];
      match LookupAll(m, keys[..|keys| - 1])
      case Failure(e) => Failure(e)
      case Success(vs) => if last in m then Success(vs + [m[last]]) else Failure(KeyError)
  }
}
