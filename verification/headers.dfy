/** The response header map as Node's `setHeader` builds it: names are
    case-insensitive, so each call stores its value under the lower-case
    name and replaces whatever an earlier call stored there. */
module Headers {

  import opened Text
  import opened Messages
  import opened Wrappers

  predicate LowerKeys(m: HeaderMap) {
    forall k :: k in m ==> IsLower(k)
  }

  /** One `res.setHeader(name, value)`: the value is stored under the
      lower-case name, replacing any earlier value under that name in any
      case; every other entry is left as it was. */
  function SetHeader(m: HeaderMap, name: string, value: string): (r: HeaderMap)
    ensures Lookup(r, Lower(name)) == Some(value)
    ensures forall k :: k != Lower(name) ==> Lookup(r, k) == Lookup(m, k)
    ensures r.Keys == m.Keys + {Lower(name)}
    ensures LowerKeys(m) ==> LowerKeys(r)
  {
    m[Lower(name) := value]
  }

  /** `setHeader` applied to every pair of `pairs`, first to last. */
  function Overlay(m: HeaderMap, pairs: seq<HeaderPair>): (r: HeaderMap)
    ensures LowerKeys(m) ==> LowerKeys(r)
    ensures m.Keys <= r.Keys
    decreases |pairs|
  {
    if |pairs| == 0 then m
    else Overlay(SetHeader(m, pairs[0].0, pairs[0].1), pairs[1..])
  }

  /** The key `setHeader` stores a pair under. */
  function NameOf(p: HeaderPair): string {
    Lower(p.0)
  }

  /** `i` is the last position in `pairs` whose name is `key` up to case. */
  predicate IsLastWith(pairs: seq<HeaderPair>, key: string, i: int) {
    && 0 <= i < |pairs|
    && NameOf(pairs[i]) == key
    && forall j :: i < j < |pairs| ==> NameOf(pairs[j]) != key
  }

  /** Reference meaning of "last write wins": the value of the LAST pair
      whose name is `key` up to case, or None when no pair has that name. */
  function LastValue(pairs: seq<HeaderPair>, key: string): (r: Option<string>)
    ensures r.None? <==> forall i :: 0 <= i < |pairs| ==> NameOf(pairs[i]) != key
    ensures r.Some? ==> exists i :: IsLastWith(pairs, key, i) && pairs[i].1 == r.value
  {
    if |pairs| == 0 then None
    else
      var init := pairs[..|pairs| - 1];
      if NameOf(pairs[|pairs| - 1]) == key then
        assert IsLastWith(pairs, key, |pairs| - 1);
        Some(pairs[|pairs| - 1].1)
      else
        var r := LastValue(init, key);
        LastWithExtends(pairs, key, r);
        r
  }

  /** Helper for LastValue: what holds of the pairs before the last one
      holds of all of them when the last one has another name. */
  lemma LastWithExtends(pairs: seq<HeaderPair>, key: string, r: Option<string>)
    requires |pairs| > 0 && NameOf(pairs[|pairs| - 1]) != key
    requires r.None? <==> forall i :: 0 <= i < |pairs| - 1 ==> NameOf(pairs[i]) != key
    requires r.Some? ==> exists i :: IsLastWith(pairs[..|pairs| - 1], key, i) && pairs[i].1 == r.value
    ensures r.None? <==> forall i :: 0 <= i < |pairs| ==> NameOf(pairs[i]) != key
    ensures r.Some? ==> exists i :: IsLastWith(pairs, key, i) && pairs[i].1 == r.value
  {
    var init := pairs[..|pairs| - 1];
    assert forall i :: 0 <= i < |init| ==> init[i] == pairs[i];
    if r.Some? {
      var i :| IsLastWith(init, key, i) && pairs[i].1 == r.value;
      assert IsLastWith(pairs, key, i);
    }
  }

  /** Three `setHeader` calls in a row, unfolded. */
  lemma OverlayThree(m: HeaderMap, a: HeaderPair, b: HeaderPair, c: HeaderPair)
    ensures Overlay(m, [a, b, c]) == SetHeader(SetHeader(SetHeader(m, a.0, a.1), b.0, b.1), c.0, c.1)
  {
    var m1 := SetHeader(m, a.0, a.1);
    var m2 := SetHeader(m1, b.0, b.1);
    assert [a, b, c][1..] == [b, c];
    assert [b, c][1..] == [c];
    assert Overlay(m, [a, b, c]) == Overlay(m1, [b, c]);
    assert Overlay(m1, [b, c]) == Overlay(m2, [c]);
  }

  /** Adding one pair at the end is one more `setHeader` on the result. */
  lemma {:induction false} OverlaySnoc(m: HeaderMap, pairs: seq<HeaderPair>, p: HeaderPair)
    ensures Overlay(m, pairs + [p]) == SetHeader(Overlay(m, pairs), p.0, p.1)
    decreases |pairs|
  {
    if |pairs| == 0 {
      assert pairs + [p] == [p];
    } else {
      assert (pairs + [p])[1..] == pairs[1..] + [p];
      OverlaySnoc(SetHeader(m, pairs[0].0, pairs[0].1), pairs[1..], p);
    }
  }

  /** Two runs of `setHeader` calls, one after the other, are one run over
      both lists. */
  lemma {:induction false} OverlayAppend(m: HeaderMap, a: seq<HeaderPair>, b: seq<HeaderPair>)
    ensures Overlay(Overlay(m, a), b) == Overlay(m, a + b)
    decreases |a|
  {
    if |a| == 0 {
      assert a + b == b;
    } else {
      assert (a + b)[1..] == a[1..] + b;
      OverlayAppend(SetHeader(m, a[0].0, a[0].1), a[1..], b);
    }
  }

  /** The fold agrees with the reference: a name some pair carries ends up
      with that name's last value; every other name keeps what `m` had. */
  lemma {:induction false} OverlayLastWriteWins(m: HeaderMap, pairs: seq<HeaderPair>, key: string)
    ensures Lookup(Overlay(m, pairs), key) ==
      if LastValue(pairs, key).Some? then LastValue(pairs, key) else Lookup(m, key)
    decreases |pairs|
  {
    if |pairs| > 0 {
      var init := pairs[..|pairs| - 1];
      var last := pairs[|pairs| - 1];
      assert pairs == init + [last];
      OverlaySnoc(m, init, last);
      OverlayLastWriteWins(m, init, key);
    }
  }

  /** `r` is `base` overwritten, name by name, with the last value `pairs`
      gives each name. */
  ghost predicate LastWriteWins(r: HeaderMap, base: HeaderMap, pairs: seq<HeaderPair>) {
    forall k :: Lookup(r, k) == (if LastValue(pairs, k).Some? then LastValue(pairs, k) else Lookup(base, k))
  }

  /** OverlayLastWriteWins for every name at once. */
  lemma OverlayLastWriteWinsAll(m: HeaderMap, pairs: seq<HeaderPair>)
    ensures LastWriteWins(Overlay(m, pairs), m, pairs)
  {
    forall k {
      OverlayLastWriteWins(m, pairs, k);
    }
  }

  /** LastWriteWins read at one name, as membership and value. */
  lemma LastWriteWinsAt(r: HeaderMap, base: HeaderMap, pairs: seq<HeaderPair>, k: string)
    requires LastWriteWins(r, base, pairs)
    ensures LastValue(pairs, k).Some? ==> k in r && r[k] == LastValue(pairs, k).value
    ensures LastValue(pairs, k).None? ==> (k in r <==> k in base)
    ensures LastValue(pairs, k).None? && k in base ==> r[k] == base[k]
  {
  }
}
