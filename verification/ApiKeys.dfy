/** The key ring of the API executor: which key is handed out while some of them cool down. */
module ApiKeys {
  import opened Text

  /** One entry of the `cooldowns` map; the entries are kept in insertion order. */
  datatype Cooldown = Cooldown(index: nat, until: nat)

  /** `cooldowns.get(i) || 0` */
  function Until(cs: seq<Cooldown>, i: nat): nat {
    if cs == [] then 0 else if cs[0].index == i then cs[0].until else Until(cs[1..], i)
  }

  /** `cooldowns.set(i, until)`: an existing entry keeps its place. */
  function Set(cs: seq<Cooldown>, i: nat, until: nat): (r: seq<Cooldown>)
    ensures Until(r, i) == until
    ensures forall j :: j != i ==> Until(r, j) == Until(cs, j)
  {
    if cs == [] then [Cooldown(i, until)]
    else if cs[0].index == i then
      var r := [Cooldown(i, until)] + cs[1..];
      assert r[1..] == cs[1..];
      r
    else
      var r := [cs[0]] + Set(cs[1..], i, until);
      assert r[1..] == Set(cs[1..], i, until);
      r
  }

  predicate AreDistinct(cs: seq<Cooldown>) {
    forall i, j :: 0 <= i < j < |cs| ==> cs[i].index != cs[j].index
  }

  lemma {:induction false} UntilOfEntry(cs: seq<Cooldown>, k: nat)
    requires AreDistinct(cs) && k < |cs|
    ensures Until(cs, cs[k].index) == cs[k].until
  {
    if k > 0 {
      assert cs[0].index != cs[k].index;
      UntilOfEntry(cs[1..], k - 1);
    }
  }

  lemma {:induction false} UntilIsEntry(cs: seq<Cooldown>, i: nat)
    ensures Until(cs, i) == 0 || exists k :: 0 <= k < |cs| && cs[k] == Cooldown(i, Until(cs, i))
  {
    if cs != [] && cs[0].index != i {
      UntilIsEntry(cs[1..], i);
      if Until(cs, i) != 0 {
        var k :| 0 <= k < |cs[1..]| && cs[1..][k] == Cooldown(i, Until(cs[1..], i));
        assert cs[k + 1] == Cooldown(i, Until(cs, i));
      }
    }
  }

  lemma {:induction false} SetKeepsDistinct(cs: seq<Cooldown>, i: nat, until: nat)
    requires AreDistinct(cs)
    ensures AreDistinct(Set(cs, i, until))
    ensures forall c :: c in Set(cs, i, until) ==> c.index == i || c in cs
    ensures forall c :: c in Set(cs, i, until) ==> c.index == i ==> c.until == until
  {
    if cs != [] && cs[0].index != i {
      SetKeepsDistinct(cs[1..], i, until);
      var rest := Set(cs[1..], i, until);
      forall k | 0 <= k < |rest| ensures rest[k].index != cs[0].index {
        assert rest[k] in rest;
        if rest[k].index != i {
          assert rest[k] in cs[1..];
        }
      }
    } else if cs != [] {
      forall k | 1 <= k < |cs| ensures cs[k].index != i {
        assert cs[0].index != cs[k].index;
      }
    }
  }

  /** Cooling at time `now`. */
  predicate IsCooling(cs: seq<Cooldown>, i: nat, now: nat) {
    now <= Until(cs, i)
  }

  /** The position `d` steps further on a ring of `n`. */
  function OnRing(start: nat, d: nat, n: nat): (i: nat)
    requires n > 0
    ensures i < n
  {
    (start + d) % n
  }

  /** The first `d` positions from `start` on all cool. */
  predicate CoolingUpTo(cs: seq<Cooldown>, start: nat, d: nat, n: nat, now: nat)
    requires n > 0
  {
    forall e: nat :: e < d ==> IsCooling(cs, OnRing(start, e, n), now)
  }

  /** `i` is the nearest position that does not cool. */
  ghost predicate IsNearestFree(cs: seq<Cooldown>, start: nat, i: nat, n: nat, now: nat)
    requires n > 0
  {
    !IsCooling(cs, i, now) && exists d: nat :: d < n && i == OnRing(start, d, n) && CoolingUpTo(cs, start, d, n, now)
  }

  /** The nearest free position in terms of the cooldowns. */
  lemma NearestFreeMeaning(cs: seq<Cooldown>, start: nat, i: nat, n: nat, now: nat)
    requires n > 0 && IsNearestFree(cs, start, i, n, now)
    ensures Until(cs, i) < now
    ensures exists d: nat :: d < n && i == OnRing(start, d, n)
                             && forall e: nat :: e < d ==> Until(cs, OnRing(start, e, n)) >= now
  {
    hide Until;
    var d: nat :| d < n && i == OnRing(start, d, n) && CoolingUpTo(cs, start, d, n, now);
    forall e: nat | e < d ensures Until(cs, OnRing(start, e, n)) >= now {
      assert IsCooling(cs, OnRing(start, e, n), now);
    }
  }

  lemma AllCooling(cs: seq<Cooldown>, start: nat, n: nat, now: nat)
    requires n > 0 && start < n && CoolingUpTo(cs, start, n, n, now)
    ensures forall i: nat :: i < n ==> IsCooling(cs, i, now)
  {
    forall i: nat | i < n ensures IsCooling(cs, i, now) {
      var e := if i >= start then i - start else i + n - start;
      RingOffset(start, e, i, n);
    }
  }

  /** Going round the ring: one step on, and from the last position to the first. */
  lemma RingExample(n: nat)
    requires n > 1
    ensures OnRing(0, 0, n) == 0 && OnRing(0, 1, n) == 1 && OnRing(n - 1, 1, n) == 0 && OnRing(n - 1, n, n) == n - 1
  {
    RingOffset(n - 1, 1, 0, n);
    WrapAround(n - 1, n);
  }

  class KeyRing {
    const keys: seq<string>
    var keyIndex: nat
    var cooldowns: seq<Cooldown>

    predicate Valid()
      reads this
    {
      (keys != [] ==> keyIndex < |keys|)
      && AreDistinct(cooldowns)
      && forall c :: c in cooldowns ==> c.index < |keys|
    }

    constructor (keys: seq<string>)
      ensures Valid() && this.keys == keys && keyIndex == 0 && cooldowns == []
    {
      this.keys, keyIndex, cooldowns := keys, 0, [];
    }

    /** A rate-limit answer: the current key cools down and the next one is current. */
    method Rotate(now: nat, cooldownMs: nat)
      requires Valid() && keys != []
      modifies this`keyIndex, this`cooldowns
      ensures Valid()
      ensures keyIndex == (old(keyIndex) + 1) % |keys|
      ensures cooldowns == Set(old(cooldowns), old(keyIndex), now + cooldownMs)
      ensures Until(cooldowns, old(keyIndex)) == now + cooldownMs
      ensures forall j :: j != old(keyIndex) ==> Until(cooldowns, j) == Until(old(cooldowns), j)
    {
      SetKeepsDistinct(cooldowns, keyIndex, now + cooldownMs);
      cooldowns := Set(cooldowns, keyIndex, now + cooldownMs);
      keyIndex := (keyIndex + 1) % |keys|;
    }

    /**
     * Hands out the nearest key on the ring that is not cooling; if all of them cool, one whose cooldown ends first.
     * The handed-out key is current afterwards.
     */
    method GetNextKey(now: nat) returns (key: string)
      requires Valid() && now > 0
      modifies this`keyIndex
      ensures Valid()
      ensures keys == [] ==> key == "" && keyIndex == old(keyIndex)
      ensures keys != [] ==> key == keys[keyIndex]
      ensures keys != [] && (exists i: nat :: i < |keys| && !IsCooling(cooldowns, i, now)) ==>
        IsNearestFree(cooldowns, old(keyIndex), keyIndex, |keys|, now)
      ensures keys != [] && (forall i: nat :: i < |keys| ==> IsCooling(cooldowns, i, now)) ==>
        forall i: nat :: i < |keys| ==> Until(cooldowns, keyIndex) <= Until(cooldowns, i)
    {
      if |keys| == 0 {
        return "";
      }
      hide OnRing;
      ghost var start := keyIndex;
      var i := 0;
      while i < |keys|
        invariant 0 <= i <= |keys| && keyIndex == start
        invariant CoolingUpTo(cooldowns, start, i, |keys|, now)
      {
        var idx := OnRing(keyIndex, i, |keys|);
        if now > Until(cooldowns, idx) {
          assert IsNearestFree(cooldowns, start, idx, |keys|, now);
          keyIndex := idx;
          return keys[idx];
        }
        i := i + 1;
      }
      AllCooling(cooldowns, start, |keys|, now);
      var best := Earliest(cooldowns, |keys|, now);
      keyIndex := best;
      key := keys[best];
    }
  }

  lemma RingOffset(start: nat, e: nat, k: nat, n: nat)
    requires k < n && start < n && e == (if k >= start then k - start else k + n - start)
    ensures e < n && OnRing(start, e, n) == k
  {
    if k < start {
      assert start + e == k + n;
      WrapAround(k, n);
    }
  }

  lemma WrapAround(k: nat, n: nat)
    requires k < n
    ensures (k + n) % n == k
  {
    var q := (k + n) / n;
    assert k + n == q * n + (k + n) % n;
    Multiples(q, n);
  }

  lemma Multiples(q: int, n: nat)
    ensures q >= 2 ==> q * n >= 2 * n
    ensures q <= 0 ==> q * n <= 0
  {
  }

  /** The scan for the earliest cooldown, when every key has one. */
  method Earliest(cs: seq<Cooldown>, n: nat, now: nat) returns (best: nat)
    requires AreDistinct(cs) && n > 0 && now > 0
    requires forall c :: c in cs ==> c.index < n
    requires forall i: nat :: i < n ==> IsCooling(cs, i, now)
    ensures best < n && forall i: nat :: i < n ==> Until(cs, best) <= Until(cs, i)
  {
    var earliest: Option<nat> := None;
    best := 0;
    for k := 0 to |cs|
      invariant k == 0 <==> earliest.None?
      invariant best < n
      invariant earliest.Some? ==> exists m :: 0 <= m < k && cs[m] == Cooldown(best, earliest.value)
      invariant earliest.Some? ==> forall m :: 0 <= m < k ==> earliest.value <= cs[m].until
    {
      assert cs[k] in cs;
      if earliest.None? || cs[k].until < earliest.value {
        earliest := Some(cs[k].until);
        best := cs[k].index;
        assert cs[k] == Cooldown(best, earliest.value);
      }
    }
    UntilIsEntry(cs, 0);
    assert IsCooling(cs, 0, now);
    var m :| 0 <= m < |cs| && cs[m] == Cooldown(best, earliest.value);
    UntilOfEntry(cs, m);
    forall i: nat | i < n ensures Until(cs, best) <= Until(cs, i) {
      assert IsCooling(cs, i, now);
      UntilIsEntry(cs, i);
    }
  }
}
