/** `FastFingerprint` of pkg/ingester/client/compat.go: the fingerprint of a
    label list is the XOR of one 64-bit hash per label, so it does not depend
    on the order of the labels. */
module Fingerprint {

  /** `cortexpb.LabelAdapter`: one name/value pair. */
  datatype LabelAdapter = LabelAdapter(name: string, value: string)

  /** The 64-bit hash primitives `hashNew`, `hashAdd` and `hashAddByte`. Their
      concrete arithmetic is not part of this model: they are opaque values,
      and only how the fingerprint combines them is verified. */
  datatype Hasher = Hasher(initial: bv64, add: (bv64, string) -> bv64, addByte: (bv64, bv8) -> bv64)

  /** `model.SeparatorByte`, written between a label's name and its value. */
  const SeparatorByte: bv8 := 0xFF

  /** The hash of one label: a fresh state, then the name, the separator
      byte and the value, in that order. */
  function LabelHash(h: Hasher, l: LabelAdapter): (sum: bv64)
    ensures var start := h.initial;
      var named := h.add(start, l.name);
      sum == h.add(h.addByte(named, SeparatorByte), l.value)
  {
    h.add(h.addByte(h.add(h.initial, l.name), SeparatorByte), l.value)
  }

  /** The XOR of the hashes of all labels of `ls`. */
  function XorFold(h: Hasher, ls: seq<LabelAdapter>): (r: bv64)
    ensures ls == [] ==> r == 0
  {
    if ls == [] then 0 else XorFold(h, ls[..|ls| - 1]) ^ LabelHash(h, ls[|ls| - 1])
  }

  /** What `FastFingerprint` computes. An empty list has the fingerprint of
      the empty metric, which is the hash's initial state. */
  function Fingerprint(h: Hasher, ls: seq<LabelAdapter>): (fp: bv64)
    ensures |ls| == 0 ==> fp == h.initial
    ensures |ls| == 1 ==> fp == LabelHash(h, ls[0])
    ensures |ls| > 0 ==> fp == XorFold(h, ls)
  {
    if |ls| == 0 then h.initial else XorFold(h, ls)
  }

  /** Appending one label XORs its hash into the fold. */
  lemma XorFoldSnoc(h: Hasher, s: seq<LabelAdapter>, l: LabelAdapter)
    ensures XorFold(h, s + [l]) == XorFold(h, s) ^ LabelHash(h, l)
  {
    DropLast(s, l);
  }

  /** Splitting off the last element of `s + [l]` gives back `s` and `l`. */
  lemma DropLast<T>(s: seq<T>, l: T)
    ensures (s + [l])[..|s|] == s && (s + [l])[|s|] == l
  {
  }

  /** Concatenation is associative when one more element is appended. */
  lemma AppendAssociative<T>(a: seq<T>, b: seq<T>, l: T)
    ensures a + (b + [l]) == (a + b) + [l]
  {
  }

  /** One step of `XorFoldAppend`, kept apart so that its bit-vector
      reasoning stays small. */
  lemma XorFoldAppendStep(h: Hasher, a: seq<LabelAdapter>, front: seq<LabelAdapter>, l: LabelAdapter)
    requires XorFold(h, a + front) == XorFold(h, a) ^ XorFold(h, front)
    ensures XorFold(h, a + (front + [l])) == XorFold(h, a) ^ XorFold(h, front + [l])
  {
    AppendAssociative(a, front, l);
    XorFoldSnoc(h, a + front, l);
    XorFoldSnoc(h, front, l);
  }

  /** The fold of a concatenation is the XOR of the folds of its parts. */
  lemma {:induction false} XorFoldAppend(h: Hasher, a: seq<LabelAdapter>, b: seq<LabelAdapter>)
    ensures XorFold(h, a + b) == XorFold(h, a) ^ XorFold(h, b)
  {
    if b == [] {
      assert a + b == a;
    } else {
      var front, last := b[..|b| - 1], b[|b| - 1];
      assert b == front + [last];
      XorFoldAppend(h, a, front);
      XorFoldAppendStep(h, a, front, last);
    }
  }

  /** Any list splits around any of its positions. */
  lemma SplitAround<T>(s: seq<T>, k: nat)
    requires k < |s|
    ensures s == (s[..k] + [s[k]]) + s[k + 1..]
  {
  }

  /** Taking one label out of the fold removes exactly its hash. */
  lemma XorFoldRemove(h: Hasher, ls: seq<LabelAdapter>, k: nat)
    requires k < |ls|
    ensures XorFold(h, ls) == XorFold(h, ls[..k] + ls[k + 1..]) ^ LabelHash(h, ls[k])
  {
    var front, x, back := ls[..k], ls[k], ls[k + 1..];
    XorFoldSplitAround(h, ls, k);
    XorFoldAppend(h, front, back);
    XorRearrange(XorFold(h, front), XorFold(h, back), LabelHash(h, x));
  }

  /** The fold of a list split around position `k`. */
  lemma XorFoldSplitAround(h: Hasher, ls: seq<LabelAdapter>, k: nat)
    requires k < |ls|
    ensures XorFold(h, ls) == (XorFold(h, ls[..k]) ^ LabelHash(h, ls[k])) ^ XorFold(h, ls[k + 1..])
  {
    SplitAround(ls, k);
    XorFoldThree(h, ls[..k], ls[k], ls[k + 1..]);
  }

  /** The fold of `front`, one label and `back`, in that order. */
  lemma XorFoldThree(h: Hasher, front: seq<LabelAdapter>, x: LabelAdapter, back: seq<LabelAdapter>)
    ensures XorFold(h, (front + [x]) + back) == (XorFold(h, front) ^ LabelHash(h, x)) ^ XorFold(h, back)
  {
    XorFoldAppend(h, front + [x], back);
    XorFoldSnoc(h, front, x);
  }

  /** XOR is associative and commutative (the one fact of bit-vector
      arithmetic the proofs above need). */
  lemma XorRearrange(p: bv64, q: bv64, x: bv64)
    ensures (p ^ x) ^ q == (p ^ q) ^ x
  {
  }

  /** Removing the element at `k` removes one copy of it from the multiset. */
  lemma MultisetRemove<T>(s: seq<T>, k: nat)
    requires k < |s|
    ensures multiset(s[..k] + s[k + 1..]) == multiset(s) - multiset{s[k]}
  {
    SplitAround(s, k);
  }

  /** An element of a sequence's multiset occurs at some index. */
  lemma IndexOf<T>(s: seq<T>, x: T) returns (k: nat)
    requires x in multiset(s)
    ensures k < |s| && s[k] == x
  {
    k :| k < |s| && s[k] == x;
  }

  /** The fold does not depend on the order of the labels. */
  lemma {:induction false} XorFoldPermutation(h: Hasher, a: seq<LabelAdapter>, b: seq<LabelAdapter>)
    requires multiset(a) == multiset(b)
    ensures XorFold(h, a) == XorFold(h, b)
    decreases |a|
  {
    if a == [] {
      assert |b| == |multiset(b)| == 0;
    } else {
      var n := |a|;
      var front, x := a[..n - 1], a[n - 1];
      MultisetRemove(a, n - 1);
      assert a[..n - 1] + a[n..] == front;
      var k := IndexOf(b, x);
      MultisetRemove(b, k);
      XorFoldPermutation(h, front, b[..k] + b[k + 1..]);
      XorFoldPermutationStep(h, a, b, k);
    }
  }

  /** The inductive step of `XorFoldPermutation`: the last label of `a`
      sits at `k` in `b`, and the rest of both lists fold alike. */
  lemma XorFoldPermutationStep(h: Hasher, a: seq<LabelAdapter>, b: seq<LabelAdapter>, k: nat)
    requires 0 < |a| && k < |b| && b[k] == a[|a| - 1]
    requires XorFold(h, a[..|a| - 1]) == XorFold(h, b[..k] + b[k + 1..])
    ensures XorFold(h, a) == XorFold(h, b)
  {
    XorFoldRemove(h, b, k);
  }

  /** Permuting the labels never changes the fingerprint. */
  lemma FingerprintPermutation(h: Hasher, a: seq<LabelAdapter>, b: seq<LabelAdapter>)
    requires multiset(a) == multiset(b)
    ensures Fingerprint(h, a) == Fingerprint(h, b)
  {
    assert |a| == |multiset(a)| == |multiset(b)| == |b|;
    XorFoldPermutation(h, a, b);
  }

  /** A non-empty list's fingerprint combines as XOR over any split, and a
      single label's fingerprint is that label's hash. */
  lemma FingerprintSplit(h: Hasher, a: seq<LabelAdapter>, b: seq<LabelAdapter>, l: LabelAdapter)
    requires |a + b| > 0
    ensures Fingerprint(h, a + b) == XorFold(h, a) ^ XorFold(h, b)
    ensures Fingerprint(h, [l]) == LabelHash(h, l)
  {
    XorFoldAppend(h, a, b);
    assert [l][..0] == [];
    assert XorFold(h, [l]) == 0 ^ LabelHash(h, l);
  }

  /** `FastFingerprint`. */
  method FastFingerprint(h: Hasher, ls: seq<LabelAdapter>) returns (fp: bv64)
    ensures fp == Fingerprint(h, ls)
  {
    if |ls| == 0 {
      return h.initial;
    }
    var result: bv64 := 0;
    for i := 0 to |ls|
      invariant result == XorFold(h, ls[..i])
    {
      var sum := h.initial;
      sum := h.add(sum, ls[i].name);
      sum := h.addByte(sum, SeparatorByte);
      sum := h.add(sum, ls[i].value);
      assert ls[..i + 1][..i] == ls[..i];
      result := result ^ sum;
    }
    assert ls[..|ls|] == ls;
    return result;
  }
}
