/**
 * The key-set merge of a rotation: the freshly generated JSON Web Keys come
 * first, then every previously published key that has not expired, as long as
 * fewer than two keys of its algorithm are already in the list being built.
 * Each old key that is kept is also imported into the new keystore under its
 * kid.
 */
module Keys {

  /** A JSON Web Key as the merge sees it; its key material is passed through untouched. */
  datatype Jwk = Jwk(kid: string, alg: string, exp: int)

  /** The merge never appends an old key whose algorithm already has this many keys. */
  const MAX_KEYS_PER_ALG: nat := 2

  /** The clock reading the expiry test compares with: whole seconds scaled to milliseconds. */
  function EpochMillis(epochSeconds: int): int {
    epochSeconds * 1000
  }

  /**
   * A key has expired once the clock, read in whole seconds and scaled to
   * milliseconds, has reached its expiry instant `exp` (in milliseconds): that
   * is, from the first whole second at or after `exp` on, and for good.
   */
  predicate KeyExpired(exp: int, nowSec: int)
    ensures KeyExpired(exp, nowSec) <==> nowSec >= (exp + 999) / 1000
  {
    EpochMillis(nowSec) >= exp
  }

  /** The algorithm tags of `keys`, in order. */
  function Algs(keys: seq<Jwk>): (tags: seq<string>)
    ensures |tags| == |keys|
    ensures forall i :: 0 <= i < |keys| ==> tags[i] == keys[i].alg
  {
    seq(|keys|, i requires 0 <= i < |keys| => keys[i].alg)
  }

  /** How many keys of each algorithm `keys` holds. */
  function AlgCounter(keys: seq<Jwk>): multiset<string> {
    multiset(Algs(keys))
  }

  /** The kids of `keys`, in order. */
  function Kids(keys: seq<Jwk>): (ids: seq<string>)
    ensures |ids| == |keys|
    ensures forall i :: 0 <= i < |keys| ==> ids[i] == keys[i].kid
  {
    seq(|keys|, i requires 0 <= i < |keys| => keys[i].kid)
  }

  /** Whether the merge appends old key `k` to the list `acc` built so far. */
  predicate Keeps(acc: seq<Jwk>, k: Jwk, nowSec: int) {
    !KeyExpired(k.exp, nowSec) && AlgCounter(acc)[k.alg] < MAX_KEYS_PER_ALG
  }

  /**
   * The merged key list: the new keys, then each old key in turn, appended when
   * `Keeps` admits it against the list built from the old keys before it.
   */
  function MergeKeys(newKeys: seq<Jwk>, oldKeys: seq<Jwk>, nowSec: int): (merged: seq<Jwk>)
    ensures |newKeys| <= |merged| <= |newKeys| + |oldKeys|
    ensures merged[..|newKeys|] == newKeys
    decreases |oldKeys|
  {
    if oldKeys == [] then newKeys
    else
      var acc := MergeKeys(newKeys, oldKeys[..|oldKeys| - 1], nowSec);
      var k := oldKeys[|oldKeys| - 1];
      if Keeps(acc, k, nowSec) then acc + [k] else acc
  }

  /** The old keys the merge appended, in the order it appended them. */
  function Carried(newKeys: seq<Jwk>, oldKeys: seq<Jwk>, nowSec: int): seq<Jwk> {
    MergeKeys(newKeys, oldKeys, nowSec)[|newKeys|..]
  }

  /** The aliases imported from the previous keystore into the new one. */
  function ImportedKids(newKeys: seq<Jwk>, oldKeys: seq<Jwk>, nowSec: int): seq<string> {
    Kids(Carried(newKeys, oldKeys, nowSec))
  }

  /**
   * The merge loop of a rotation. `merged` starts as the new keys and grows by
   * appending; each appended old key issues one keystore import, collected in
   * `imports`.
   */
  method Merge(newKeys: seq<Jwk>, oldKeys: seq<Jwk>, nowSec: int) returns (merged: seq<Jwk>, imports: seq<string>)
    ensures merged == MergeKeys(newKeys, oldKeys, nowSec)
    ensures |merged| == |newKeys| + |imports|
    ensures forall j :: 0 <= j < |imports| ==> imports[j] == merged[|newKeys| + j].kid
  {
    merged := newKeys;
    imports := [];
    for i := 0 to |oldKeys|
      invariant merged == MergeKeys(newKeys, oldKeys[..i], nowSec)
      invariant |merged| == |newKeys| + |imports|
      invariant forall j :: 0 <= j < |imports| ==> imports[j] == merged[|newKeys| + j].kid
    {
      assert oldKeys[..i + 1][..i] == oldKeys[..i];
      var jwk := oldKeys[i];
      if KeyExpired(jwk.exp, nowSec) {
        continue;
      }
      var cnt := AlgCounter(merged);
      if cnt[jwk.alg] >= MAX_KEYS_PER_ALG {
        continue;
      }
      merged := merged + [jwk];
      imports := imports + [jwk.kid];
    }
    assert oldKeys[..|oldKeys|] == oldKeys;
  }

  /** The keys of `keys` that have not expired at second `nowSec`, in order. */
  function Unexpired(keys: seq<Jwk>, nowSec: int): (live: seq<Jwk>)
    ensures forall k :: k in live <==> k in keys && !KeyExpired(k.exp, nowSec)
    decreases |keys|
  {
    if keys == [] then []
    else
      var rest := Unexpired(keys[..|keys| - 1], nowSec);
      var k := keys[|keys| - 1];
      assert keys == keys[..|keys| - 1] + [k];
      if KeyExpired(k.exp, nowSec) then rest else rest + [k]
  }

  /** `s` is what remains of `t` after deleting some of its elements. */
  predicate IsSubsequence<T(==)>(s: seq<T>, t: seq<T>)
    decreases |t|
  {
    if s == [] then true
    else if t == [] then false
    else
      (s[|s| - 1] == t[|t| - 1] && IsSubsequence(s[..|s| - 1], t[..|t| - 1]))
      || IsSubsequence(s, t[..|t| - 1])
  }

  lemma SubsequenceExtend<T>(s: seq<T>, t: seq<T>, x: T)
    requires IsSubsequence(s, t)
    ensures IsSubsequence(s, t + [x]) && IsSubsequence(s + [x], t + [x])
  {
    assert (t + [x])[..|t|] == t;
    assert (s + [x])[..|s|] == s;
  }

  lemma {:induction false} SubsequenceMembers<T>(s: seq<T>, t: seq<T>)
    requires IsSubsequence(s, t)
    ensures forall x :: x in s ==> x in t
    decreases |t|
  {
    if s != [] && t != [] {
      if s[|s| - 1] == t[|t| - 1] && IsSubsequence(s[..|s| - 1], t[..|t| - 1]) {
        SubsequenceMembers(s[..|s| - 1], t[..|t| - 1]);
        assert s == s[..|s| - 1] + [s[|s| - 1]];
        assert t == t[..|t| - 1] + [t[|t| - 1]];
      } else {
        SubsequenceMembers(s, t[..|t| - 1]);
        assert t == t[..|t| - 1] + [t[|t| - 1]];
      }
    }
  }

  lemma AlgCounterAppend(a: seq<Jwk>, b: seq<Jwk>)
    ensures AlgCounter(a + b) == AlgCounter(a) + AlgCounter(b)
  {
    assert Algs(a + b) == Algs(a) + Algs(b);
  }

  /** One step of the merge: the old keys kept so far grow by `k` exactly when `Keeps` admits it. */
  lemma CarriedStep(newKeys: seq<Jwk>, oldKeys: seq<Jwk>, nowSec: int)
    requires oldKeys != []
    ensures var prev := oldKeys[..|oldKeys| - 1];
            var k := oldKeys[|oldKeys| - 1];
            Carried(newKeys, oldKeys, nowSec)
            == if Keeps(MergeKeys(newKeys, prev, nowSec), k, nowSec)
               then Carried(newKeys, prev, nowSec) + [k]
               else Carried(newKeys, prev, nowSec)
  {
    var acc := MergeKeys(newKeys, oldKeys[..|oldKeys| - 1], nowSec);
    assert (acc + [oldKeys[|oldKeys| - 1]])[|newKeys|..] == acc[|newKeys|..] + [oldKeys[|oldKeys| - 1]];
  }

  /** The merged list is the new keys followed by the carried old keys. */
  lemma MergedSplits(newKeys: seq<Jwk>, oldKeys: seq<Jwk>, nowSec: int)
    ensures MergeKeys(newKeys, oldKeys, nowSec) == newKeys + Carried(newKeys, oldKeys, nowSec)
  {
    var merged := MergeKeys(newKeys, oldKeys, nowSec);
    assert merged == merged[..|newKeys|] + merged[|newKeys|..];
  }

  /**
   * The carried old keys are the unexpired old keys with some of them deleted,
   * in their original order.
   */
  lemma {:induction false} CarriedFromUnexpired(newKeys: seq<Jwk>, oldKeys: seq<Jwk>, nowSec: int)
    ensures IsSubsequence(Carried(newKeys, oldKeys, nowSec), Unexpired(oldKeys, nowSec))
    ensures IsSubsequence(Carried(newKeys, oldKeys, nowSec), oldKeys)
    decreases |oldKeys|
  {
    if oldKeys == [] {
      assert Carried(newKeys, oldKeys, nowSec) == [];
    } else {
      var prev := oldKeys[..|oldKeys| - 1];
      var k := oldKeys[|oldKeys| - 1];
      assert oldKeys == prev + [k];
      CarriedFromUnexpired(newKeys, prev, nowSec);
      CarriedStep(newKeys, oldKeys, nowSec);
      var before := Carried(newKeys, prev, nowSec);
      SubsequenceExtend(before, Unexpired(prev, nowSec), k);
      SubsequenceExtend(before, prev, k);
    }
  }

  /** No old key that has expired at merge time is carried over. */
  lemma ExpiredOldKeysDropped(newKeys: seq<Jwk>, oldKeys: seq<Jwk>, nowSec: int)
    ensures forall k :: k in Carried(newKeys, oldKeys, nowSec) ==> k in oldKeys && k.exp > EpochMillis(nowSec)
  {
    CarriedFromUnexpired(newKeys, oldKeys, nowSec);
    SubsequenceMembers(Carried(newKeys, oldKeys, nowSec), Unexpired(oldKeys, nowSec));
  }

  /** The room an algorithm still has once the new keys hold `used` keys of it. */
  function QuotaLeft(used: nat): nat {
    if used >= MAX_KEYS_PER_ALG then 0 else MAX_KEYS_PER_ALG - used
  }

  function Min(a: int, b: int): int {
    if a <= b then a else b
  }

  function Max(a: int, b: int): int {
    if a >= b then a else b
  }

  /**
   * Per algorithm, the merge carries exactly as many old keys as the new keys
   * leave room for, or all unexpired old keys of that algorithm if fewer.
   */
  lemma {:induction false} CarriedPerAlg(newKeys: seq<Jwk>, oldKeys: seq<Jwk>, nowSec: int, alg: string)
    ensures AlgCounter(Carried(newKeys, oldKeys, nowSec))[alg]
            == Min(QuotaLeft(AlgCounter(newKeys)[alg]), AlgCounter(Unexpired(oldKeys, nowSec))[alg])
    decreases |oldKeys|
  {
    if oldKeys == [] {
      assert Carried(newKeys, oldKeys, nowSec) == [];
    } else {
      var prev := oldKeys[..|oldKeys| - 1];
      var k := oldKeys[|oldKeys| - 1];
      var acc := MergeKeys(newKeys, prev, nowSec);
      CarriedPerAlg(newKeys, prev, nowSec, alg);
      CarriedPerAlg(newKeys, prev, nowSec, k.alg);
      CarriedStep(newKeys, oldKeys, nowSec);
      MergedSplits(newKeys, prev, nowSec);
      AlgCounterAppend(newKeys, Carried(newKeys, prev, nowSec));
      AlgCounterAppend(Carried(newKeys, prev, nowSec), [k]);
      AlgCounterAppend(Unexpired(prev, nowSec), [k]);
      assert Algs([k]) == [k.alg];
    }
  }

  /**
   * Which old keys survive: old key `i` is carried exactly when it has not
   * expired and the new keys, together with the unexpired old keys before
   * it, hold fewer than two keys of its algorithm. So of the live old keys
   * of an algorithm, the earliest ones fill the room the new keys leave.
   */
  lemma CarriedWhen(newKeys: seq<Jwk>, oldKeys: seq<Jwk>, nowSec: int, i: nat)
    requires i < |oldKeys|
    ensures var k := oldKeys[i];
            Carried(newKeys, oldKeys[..i + 1], nowSec)
            == if !KeyExpired(k.exp, nowSec)
                  && AlgCounter(newKeys)[k.alg] + AlgCounter(Unexpired(oldKeys[..i], nowSec))[k.alg] < MAX_KEYS_PER_ALG
               then Carried(newKeys, oldKeys[..i], nowSec) + [k]
               else Carried(newKeys, oldKeys[..i], nowSec)
  {
    var prefix := oldKeys[..i + 1];
    assert prefix[..i] == oldKeys[..i];
    CarriedStep(newKeys, prefix, nowSec);
    CarriedPerAlg(newKeys, oldKeys[..i], nowSec, oldKeys[i].alg);
    MergedSplits(newKeys, oldKeys[..i], nowSec);
    AlgCounterAppend(newKeys, Carried(newKeys, oldKeys[..i], nowSec));
  }

  /**
   * Per algorithm the merged list holds at most two keys unless the new keys
   * alone hold more; an algorithm the new keys already fill gets no old key;
   * an algorithm absent from the new keys keeps at most two old keys.
   */
  lemma MergedAlgBound(newKeys: seq<Jwk>, oldKeys: seq<Jwk>, nowSec: int, alg: string)
    ensures AlgCounter(MergeKeys(newKeys, oldKeys, nowSec))[alg] <= Max(MAX_KEYS_PER_ALG, AlgCounter(newKeys)[alg])
    ensures AlgCounter(newKeys)[alg] >= MAX_KEYS_PER_ALG ==>
              AlgCounter(MergeKeys(newKeys, oldKeys, nowSec))[alg] == AlgCounter(newKeys)[alg]
    ensures AlgCounter(newKeys)[alg] == 0 ==> AlgCounter(Carried(newKeys, oldKeys, nowSec))[alg] <= MAX_KEYS_PER_ALG
  {
    CarriedPerAlg(newKeys, oldKeys, nowSec, alg);
    MergedSplits(newKeys, oldKeys, nowSec);
    AlgCounterAppend(newKeys, Carried(newKeys, oldKeys, nowSec));
  }

  /** Without previous keys the merge returns the new keys and imports nothing. */
  lemma MergeWithoutOldKeys(newKeys: seq<Jwk>, nowSec: int)
    ensures MergeKeys(newKeys, [], nowSec) == newKeys
    ensures ImportedKids(newKeys, [], nowSec) == []
  {
  }

  /**
   * One new RS256 key and three old keys, the last of them expired: the
   * first old RS256 key fills the RS256 quota, so the second is dropped; the
   * expired ES256 key is dropped; only the first old key is imported.
   */
  lemma MergeExample()
    ensures var k1 := Jwk("k1", "RS256", 2000);
            var k2 := Jwk("k2", "RS256", 2000);
            var k3 := Jwk("k3", "ES256", 500);
            var k4 := Jwk("k4", "RS256", 3000);
            MergeKeys([k4], [k1, k2, k3], 1) == [k4, k1]
            && ImportedKids([k4], [k1, k2, k3], 1) == ["k1"]
  {
    var k1 := Jwk("k1", "RS256", 2000);
    var k2 := Jwk("k2", "RS256", 2000);
    var k3 := Jwk("k3", "ES256", 500);
    var k4 := Jwk("k4", "RS256", 3000);
    var previous := [k1, k2, k3];
    assert previous[..0] == [] && previous[..1] == [k1] && previous[..2] == [k1, k2] && previous[..3] == previous;
    assert MergeKeys([k4], previous[..1], 1) == [k4, k1] by {
      assert AlgCounter([k4])["RS256"] == 1 by {
        assert Algs([k4]) == ["RS256"];
      }
    }
    assert MergeKeys([k4], previous[..2], 1) == [k4, k1] by {
      assert Algs([k4, k1]) == ["RS256", "RS256"];
    }
    assert [k4, k1][1..] == [k1];
  }
}
