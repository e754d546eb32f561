/** A sequence built from an index function, used as the reference for loops that append one value per index. */
module Seqs {
  /** `[f(p), f(p + 1), ..., f(n - 1)]`. */
  function Build<T>(f: nat --> T, p: nat, n: nat): seq<T>
    requires forall k :: p <= k < n ==> f.requires(k)
    decreases n - p
  {
    if p < n then [f(p)] + Build(f, p + 1, n) else []
  }

  lemma {:induction false} BuildLength<T>(f: nat --> T, p: nat, n: nat)
    requires forall k :: p <= k < n ==> f.requires(k)
    ensures |Build(f, p, n)| == if p < n then n - p else 0
    decreases n - p
  {
    if p < n {
      BuildLength(f, p + 1, n);
    }
  }

  lemma {:induction false} BuildAt<T>(f: nat --> T, p: nat, n: nat, k: nat)
    requires forall k :: p <= k < n ==> f.requires(k)
    requires p + k < n
    ensures |Build(f, p, n)| == n - p
    ensures Build(f, p, n)[k] == f(p + k)
    decreases k
  {
    BuildLength(f, p, n);
    if k > 0 {
      BuildAt(f, p + 1, n, k - 1);
      assert p + 1 + (k - 1) == p + k;
    }
  }

  lemma BuildStep<T>(f: nat --> T, p: nat, n: nat)
    requires forall k :: p <= k < n ==> f.requires(k)
    requires p < n
    ensures Build(f, p, n) == [f(p)] + Build(f, p + 1, n)
  {
  }

  lemma AppendAssoc<T>(a: seq<T>, b: seq<T>, c: seq<T>)
    ensures (a + b) + c == a + (b + c)
  {
  }
}
