/** Vocabulary shared by every machine: options, byte strings, runs, and counting the entries of a map. */
module Common {

  datatype Option<+T> = None | Some(value: T)

  datatype Result<+T, +E> = Ok(value: T) | Err(error: E)

  newtype byte = x: int | 0 <= x < 256

  type Bytes = seq<byte>

  /** A finite run of a machine, the latest event outermost. */
  datatype Run<+E> = Start | Then(before: Run<E>, event: E)

  /** `later` continues `earlier` by zero or more events. */
  ghost predicate Extends<E>(earlier: Run<E>, later: Run<E>)
  {
    earlier == later || (later.Then? && Extends(earlier, later.before))
  }

  lemma {:induction false} ExtendsStart<E>(r: Run<E>)
    ensures Extends(Start, r)
  {
    if r.Then? { ExtendsStart(r.before); }
  }

  lemma {:induction false} ExtendsFurther<E>(r: Run<E>, later: Run<E>, latest: Run<E>)
    requires Extends(r, later) && Extends(later, latest)
    ensures Extends(r, latest)
  {
    if later != latest { ExtendsFurther(r, later, latest.before); }
  }

  function SaturatingSub(a: nat, b: nat): nat
  {
    if b <= a then a - b else 0
  }

  ghost function Having<K, V>(m: map<K, V>, p: V -> bool): set<K>
  {
    set k | k in m && p(m[k])
  }

  /** How many entries of `m` satisfy `p`. */
  ghost function Count<K, V>(m: map<K, V>, p: V -> bool): nat
  {
    |Having(m, p)|
  }

  function Bit(b: bool): nat
  {
    if b then 1 else 0
  }

  lemma CountWithout<K>(s: set<K>, k: K)
    ensures |s| == |s - {k}| + Bit(k in s)
  {
  }

  /** Writing one entry moves a count by exactly that entry's contribution. */
  lemma CountUpdate<K, V>(m: map<K, V>, p: V -> bool, k: K, v: V)
    ensures Count(m[k := v], p) == Count(m, p) - Bit(k in m && p(m[k])) + Bit(p(v))
  {
    var m' := m[k := v];
    var before, after := Having(m, p), Having(m', p);
    forall j | j != k
      ensures j in after <==> j in before
    {
      assert j in m' ==> m'[j] == m[j];
    }
    assert after - {k} == before - {k};
    CountWithout(before, k);
    CountWithout(after, k);
  }
}
