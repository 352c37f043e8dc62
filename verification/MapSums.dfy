/** Sums over finite maps, and over the part of an entry map that one replica owns: of
    the amounts, and of the amounts cast to i64 as the program adds them up. */
module MapSums {
  import opened Operations

  /** SpendEntry and GrantEntry: an amount charged or credited to one replica. */
  datatype Entry = Entry(replica: ReplicaId, amount: nat)

  // ---- machine amounts ----

  const TWO_63: int := 0x8000_0000_0000_0000
  const TWO_64: int := 0x1_0000_0000_0000_0000

  /** A u64 `as i64`: the same 64 bits, read as two's complement. */
  function AsI64(x: nat): (i: int)
    ensures x < TWO_63 ==> i == x
    ensures TWO_63 <= x < TWO_64 ==> i < 0
    ensures i <= x
  {
    var u := x % TWO_64;
    if u < TWO_63 then u else u - TWO_64
  }

  // ---- sums ----

  ghost function Pick<K, V>(m: map<K, V>): (k: K)
    requires m != map[]
    ensures k in m
  {
    var k :| k in m; k
  }

  ghost function Sum<K>(m: map<K, int>): int {
    if m == map[] then 0 else var k := Pick(m); m[k] + Sum(m - {k})
  }

  lemma {:induction false} SumRemove<K>(m: map<K, int>, k: K)
    requires k in m
    ensures Sum(m) == m[k] + Sum(m - {k})
    decreases |m|
  {
    var j := Pick(m);
    if j != k {
      SumRemove(m - {j}, k);
      SumRemove(m - {k}, j);
      assert m - {j} - {k} == m - {k} - {j};
    }
  }

  lemma SumPut<K>(m: map<K, int>, k: K, v: int)
    ensures Sum(m[k := v]) == Sum(m) + v - if k in m then m[k] else 0
  {
    SumRemove(m[k := v], k);
    assert m[k := v] - {k} == m - {k};
    if k in m {
      SumRemove(m, k);
    } else {
      assert m - {k} == m;
    }
  }

  lemma {:induction false} SumMono<K>(m: map<K, int>, n: map<K, int>)
    requires m.Keys <= n.Keys
    requires forall k :: k in m ==> m[k] <= n[k]
    requires forall k :: k in n && k !in m ==> 0 <= n[k]
    ensures Sum(m) <= Sum(n)
    decreases |n|
  {
    if n == map[] {
      assert m == map[];
    } else {
      var k := Pick(n);
      SumRemove(n, k);
      if k in m {
        SumRemove(m, k);
        SumMono(m - {k}, n - {k});
      } else {
        assert m - {k} == m;
        SumMono(m, n - {k});
      }
    }
  }

  lemma SumNonneg<K>(m: map<K, int>)
    requires forall k :: k in m ==> 0 <= m[k]
    ensures 0 <= Sum(m)
  {
    SumMono(map[], m);
    assert Sum<K>(map[]) == 0;
  }

  lemma {:induction false} SumAdd<K>(a: map<K, int>, b: map<K, int>, c: map<K, int>)
    requires a.Keys == b.Keys == c.Keys
    requires forall k :: k in a ==> c[k] == a[k] + b[k]
    ensures Sum(c) == Sum(a) + Sum(b)
    decreases |a|
  {
    if a == map[] {
      assert b == map[] && c == map[];
    } else {
      var k := Pick(a);
      SumRemove(a, k);
      SumRemove(b, k);
      SumRemove(c, k);
      SumAdd(a - {k}, b - {k}, c - {k});
    }
  }

  lemma {:induction false} SumZero<K>(m: map<K, int>)
    requires forall k :: k in m ==> m[k] == 0
    ensures Sum(m) == 0
    decreases |m|
  {
    if m != map[] {
      SumZero(m - {Pick(m)});
    }
  }

  /** Padding a map with zero entries does not change its sum. */
  lemma {:induction false} SumPad<K>(m: map<K, int>, n: map<K, int>)
    requires m.Keys <= n.Keys
    requires forall k :: k in n ==> n[k] == if k in m then m[k] else 0
    ensures Sum(m) == Sum(n)
    decreases |m|
  {
    if m == map[] {
      SumZero(n);
    } else {
      var k := Pick(m);
      SumRemove(n, k);
      SumRemove(m, k);
      SumPad(m - {k}, n - {k});
    }
  }

  // ---- entries by owner ----

  ghost function Owned<K>(m: map<K, Entry>, r: ReplicaId): map<K, int> {
    map k | k in m && m[k].replica == r :: m[k].amount
  }

  ghost function Held<K>(m: map<K, Entry>, r: ReplicaId): (h: int)
    ensures 0 <= h
  {
    SumNonneg(Owned(m, r));
    Sum(Owned(m, r))
  }

  ghost function Amounts<K>(m: map<K, Entry>): map<K, int> {
    map k | k in m :: m[k].amount
  }

  ghost function Total<K>(m: map<K, Entry>): (t: int)
    ensures 0 <= t
  {
    SumNonneg(Amounts(m));
    Sum(Amounts(m))
  }

  lemma HeldPut<K>(m: map<K, Entry>, k: K, e: Entry, r: ReplicaId)
    requires k !in m
    ensures Held(m[k := e], r) == Held(m, r) + if e.replica == r then e.amount else 0
  {
    if e.replica == r {
      assert Owned(m[k := e], r) == Owned(m, r)[k := e.amount];
      SumPut(Owned(m, r), k, e.amount);
    } else {
      assert Owned(m[k := e], r) == Owned(m, r);
    }
  }

  lemma TotalPut<K>(m: map<K, Entry>, k: K, e: Entry)
    requires k !in m
    ensures Total(m[k := e]) == Total(m) + e.amount
  {
    assert Amounts(m[k := e]) == Amounts(m)[k := e.amount];
    SumPut(Amounts(m), k, e.amount);
  }

  lemma HeldMono<K>(m: map<K, Entry>, n: map<K, Entry>, r: ReplicaId)
    requires forall k :: k in m && m[k].replica == r ==> k in n && n[k] == m[k]
    ensures Held(m, r) <= Held(n, r)
  {
    SumMono(Owned(m, r), Owned(n, r));
  }

  // ---- the same with every amount cast ----

  ghost function CastOwned<K>(m: map<K, Entry>, r: ReplicaId): map<K, int> {
    map k | k in m && m[k].replica == r :: AsI64(m[k].amount)
  }

  ghost function CastHeld<K>(m: map<K, Entry>, r: ReplicaId): int {
    Sum(CastOwned(m, r))
  }

  lemma CastHeldPut<K>(m: map<K, Entry>, k: K, e: Entry, r: ReplicaId)
    requires k !in m
    ensures CastHeld(m[k := e], r) == CastHeld(m, r) + if e.replica == r then AsI64(e.amount) else 0
  {
    if e.replica == r {
      assert CastOwned(m[k := e], r) == CastOwned(m, r)[k := AsI64(e.amount)];
      SumPut(CastOwned(m, r), k, AsI64(e.amount));
    } else {
      assert CastOwned(m[k := e], r) == CastOwned(m, r);
    }
  }

  /** More entries, the additional ones below 2^63. */
  lemma CastHeldMono<K>(m: map<K, Entry>, n: map<K, Entry>, r: ReplicaId)
    requires forall k :: k in m && m[k].replica == r ==> k in n && n[k] == m[k]
    requires forall k :: k in n && n[k].replica == r ==> (k in m && m[k] == n[k]) || n[k].amount < TWO_63
    ensures CastHeld(m, r) <= CastHeld(n, r)
  {
    forall k | k in CastOwned(n, r) && k !in CastOwned(m, r) ensures 0 <= CastOwned(n, r)[k] {
      assert n[k].amount < TWO_63;
    }
    SumMono(CastOwned(m, r), CastOwned(n, r));
  }

  lemma CastAtMost<K>(m: map<K, Entry>, r: ReplicaId)
    ensures CastHeld(m, r) <= Held(m, r)
  {
    SumMono(CastOwned(m, r), Owned(m, r));
  }

  lemma CastExact<K>(m: map<K, Entry>, r: ReplicaId)
    requires forall k :: k in m && m[k].replica == r ==> m[k].amount < TWO_63
    ensures CastHeld(m, r) == Held(m, r)
  {
    assert CastOwned(m, r) == Owned(m, r);
  }

  lemma HeldBounds<K>(m: map<K, Entry>, r: ReplicaId)
    ensures Held(m, r) <= Total(m)
    ensures forall k :: k in m && m[k].replica == r ==> m[k].amount <= Held(m, r)
  {
    SumMono(Owned(m, r), Amounts(m));
    forall k | k in m && m[k].replica == r
      ensures m[k].amount <= Held(m, r)
    {
      SumRemove(Owned(m, r), k);
      SumNonneg(Owned(m, r) - {k});
    }
  }

  ghost function HeldBy<K>(m: map<K, Entry>, owners: set<ReplicaId>): map<ReplicaId, int> {
    map r | r in owners :: Held(m, r)
  }

  lemma HeldByPut<K>(m: map<K, Entry>, k: K, e: Entry, owners: set<ReplicaId>)
    requires k !in m
    requires e.replica in owners || e.amount == 0
    ensures Sum(HeldBy(m[k := e], owners)) == Sum(HeldBy(m, owners)) + e.amount
  {
    var share := map r | r in owners :: if e.replica == r then e.amount else 0;
    forall r | r in owners
      ensures HeldBy(m[k := e], owners)[r] == HeldBy(m, owners)[r] + share[r]
    {
      HeldPut(m, k, e, r);
    }
    SumAdd(HeldBy(m, owners), share, HeldBy(m[k := e], owners));
    SumShare(share, e.replica, e.amount);
  }

  lemma SumShare<K>(share: map<K, int>, k: K, amount: int)
    requires forall j :: j in share ==> share[j] == if j == k then amount else 0
    requires k in share || amount == 0
    ensures Sum(share) == amount
  {
    if k in share {
      SumRemove(share, k);
      SumZero(share - {k});
    } else {
      SumZero(share);
    }
  }

  lemma HeldByNothing<K>(owners: set<ReplicaId>)
    ensures Sum(HeldBy<K>(map[], owners)) == 0
  {
    forall r | r in owners ensures HeldBy<K>(map[], owners)[r] == 0 {
      assert Owned<K>(map[], r) == map[];
    }
    SumZero(HeldBy<K>(map[], owners));
  }

  /** The holdings of a set of owners add up to the whole, as soon as nobody
      outside the set holds anything. */
  lemma {:induction false} TotalByOwner<K>(m: map<K, Entry>, owners: set<ReplicaId>)
    requires forall k :: k in m ==> m[k].replica in owners || m[k].amount == 0
    ensures Sum(HeldBy(m, owners)) == Total(m)
    decreases |m|
  {
    if m == map[] {
      assert Amounts(m) == map[];
      HeldByNothing<K>(owners);
    } else {
      var k := Pick(m);
      var n := m - {k};
      assert n[k := m[k]] == m;
      TotalByOwner(n, owners);
      TotalPut(n, k, m[k]);
      HeldByPut(n, k, m[k], owners);
    }
  }
}
