/**
 * Random keys, modelled as nodes of a binary split tree.
 *
 * A key is named by its path from some root seed; splitting a key yields its two
 * children. Two keys whose paths are not prefixes of one another can never be
 * derived from each other by splitting, so the random streams they stand for are
 * unrelated. The PRNG itself is not modelled.
 */
module Keys {

  datatype Key = Key(path: seq<bool>)

  /** `p` is a prefix of `q`. */
  predicate IsPrefix(p: seq<bool>, q: seq<bool>) {
    |p| <= |q| && q[..|p|] == p
  }

  /** `a` is obtained from `k` by one or more splits. */
  predicate Descends(a: Key, k: Key) {
    |k.path| < |a.path| && IsPrefix(k.path, a.path)
  }

  /** Neither key lies on the other's split path (in particular, they differ). */
  predicate Independent(a: Key, b: Key) {
    !IsPrefix(a.path, b.path) && !IsPrefix(b.path, a.path)
  }

  /** Two keys that disagree at some position of their paths are independent. */
  lemma ForkIndependent(a: Key, b: Key, m: nat)
    requires m < |a.path| && m < |b.path| && a.path[m] != b.path[m]
    ensures Independent(a, b)
  {
  }

  /** `jr.split(k)`: the two children of `k`. */
  function Split(k: Key): (Key, Key) {
    (Key(k.path + [false]), Key(k.path + [true]))
  }

  /** Both children of a split derive from the parent, and they are unrelated to each other. */
  lemma SplitChildren(k: Key)
    ensures Descends(Split(k).0, k) && Descends(Split(k).1, k)
    ensures Independent(Split(k).0, Split(k).1)
  {
    var (a, b) := Split(k);
    ForkIndependent(a, b, |k.path|);
    assert a.path[..|k.path|] == k.path && b.path[..|k.path|] == k.path;
  }

  /**
   * `n` successive `sub, k := jr.split(k)` steps starting from `k`: the sub-keys
   * handed out, in order, and the key carried forward after the last split.
   */
  function SplitChain(k: Key, n: nat): (r: (seq<Key>, Key))
    ensures |r.0| == n
  {
    if n == 0 then ([], k)
    else
      var prev := SplitChain(k, n - 1);
      var children := Split(prev.1);
      (prev.0 + [children.0], children.1)
  }

  /** A chain of `n + 1` splits is one split followed by a chain of `n` from its second child. */
  lemma {:induction false} SplitChainFirst(k: Key, n: nat)
    ensures SplitChain(k, n + 1).0 == [Split(k).0] + SplitChain(Split(k).1, n).0
    ensures SplitChain(k, n + 1).1 == SplitChain(Split(k).1, n).1
  {
    if n > 0 {
      SplitChainFirst(k, n - 1);
    }
  }

  /** `n` copies of `true`: the path walked by always keeping the second child. */
  function Ones(n: nat): seq<bool> {
    seq(n, _ => true)
  }

  /**
   * The i-th sub-key handed out is the first child of the key reached after i
   * carries, and the carried key keeps taking the second child.
   */
  lemma {:induction false} ChainShape(k: Key, n: nat)
    ensures SplitChain(k, n).1.path == k.path + Ones(n)
    ensures forall i :: 0 <= i < n ==> SplitChain(k, n).0[i].path == k.path + Ones(i) + [false]
  {
    if n > 0 {
      ChainShape(k, n - 1);
      assert Ones(n) == Ones(n - 1) + [true];
      assert k.path + Ones(n) == k.path + Ones(n - 1) + [true];
    }
  }

  /**
   * Key linearity of a split chain: every handed-out sub-key descends from the
   * starting key, no two of them are related, and none is related to the key
   * carried forward.
   */
  lemma ChainIndependent(k: Key, n: nat)
    ensures forall i, j :: 0 <= i < j < n ==>
      Independent(SplitChain(k, n).0[i], SplitChain(k, n).0[j])
    ensures forall i :: 0 <= i < n ==>
      Descends(SplitChain(k, n).0[i], k) && Independent(SplitChain(k, n).0[i], SplitChain(k, n).1)
  {
    var subs, last := SplitChain(k, n).0, SplitChain(k, n).1;
    var m := |k.path|;
    ChainShape(k, n);
    forall i, j | 0 <= i < j < n
      ensures Independent(subs[i], subs[j])
    {
      assert subs[i].path[m + i] == false;
      assert subs[j].path[m + i] == Ones(j)[i];
      ForkIndependent(subs[i], subs[j], m + i);
    }
    forall i | 0 <= i < n
      ensures Descends(subs[i], k) && Independent(subs[i], last)
    {
      assert subs[i].path[..m] == k.path;
      assert subs[i].path[m + i] == false;
      assert last.path[m + i] == Ones(n)[i];
      ForkIndependent(subs[i], last, m + i);
    }
  }
}
