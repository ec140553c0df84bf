/**
 * The canister's stable memory (`storage.rs`): one shared id counter and nine
 * independent key-value stores. Each `StableBTreeMap` is a Dafny map; the
 * Candid encoding of the values and the memory manager are not modelled.
 * Iterating a `StableBTreeMap` visits its entries in ascending key order,
 * which `Entries` and `SumOf` reproduce.
 */
module Storage {

  import opened Wrappers
  import opened Types

  /** A set of naturals with an element at most `n` has a least element. */
  lemma {:induction false} MinimumBelow(ks: set<nat>, n: nat)
    requires exists x :: x in ks && x <= n
    ensures exists k :: k in ks && forall j :: j in ks ==> k <= j
    decreases n
  {
    if exists x :: x in ks && x < n {
      MinimumBelow(ks, n - 1);
    } else {
      var x :| x in ks && x <= n;
      assert forall j :: j in ks ==> x <= j;
    }
  }

  /** The smallest key of a non-empty key set: the first entry an iteration visits. */
  function MinKey(ks: set<nat>): (k: nat)
    requires ks != {}
    ensures k in ks && forall j :: j in ks ==> k <= j
  {
    var x :| x in ks;
    MinimumBelow(ks, x);
    var k :| k in ks && forall j :: j in ks ==> k <= j; k
  }

  /** The keys of a store in the order an iteration visits them: ascending, so each at most once. */
  function AscendingKeys(ks: set<nat>): (r: seq<nat>)
    ensures |r| == |ks|
    ensures forall i :: 0 <= i < |r| ==> r[i] in ks
    ensures forall i, j :: 0 <= i < j < |r| ==> r[i] < r[j]
    decreases |ks|
  {
    if ks == {} then []
    else
      var k := MinKey(ks);
      var rest := AscendingKeys(ks - {k});
      assert forall j :: 0 <= j < |rest| ==> k < rest[j];
      [k] + rest
  }

  /** Every key has a place in `AscendingKeys`. */
  lemma {:induction false} AscendingKeysComplete(ks: set<nat>, k: nat)
    requires k in ks
    ensures exists i :: 0 <= i < |AscendingKeys(ks)| && AscendingKeys(ks)[i] == k
    decreases |ks|
  {
    var j := MinKey(ks);
    var r, rest := AscendingKeys(ks), AscendingKeys(ks - {j});
    assert r == [j] + rest;
    if k == j {
      assert r[0] == k;
    } else {
      AscendingKeysComplete(ks - {j}, k);
      var i :| 0 <= i < |rest| && rest[i] == k;
      assert r[i + 1] == k;
    }
  }

  /**
   * `store.iter().map(|(_, v)| v).collect()`: the values of a store, one per
   * entry, in ascending order of their keys.
   */
  function Entries<T(==)>(m: map<nat, T>): (r: seq<T>)
    ensures |r| == |m|
    ensures forall i :: 0 <= i < |r| ==> AscendingKeys(m.Keys)[i] in m && r[i] == m[AscendingKeys(m.Keys)[i]]
    ensures forall i :: 0 <= i < |r| ==> r[i] in m.Values
    ensures forall k :: k in m ==> m[k] in r
  {
    var ks := AscendingKeys(m.Keys);
    var r := seq(|ks|, i requires 0 <= i < |ks| => m[ks[i]]);
    forall k | k in m ensures m[k] in r {
      AscendingKeysComplete(m.Keys, k);
      var i :| 0 <= i < |ks| && ks[i] == k;
      assert r[i] == m[k];
    }
    r
  }

  /** `.iter().filter(p)`: the elements that satisfy `p`, in their order. */
  function Filter<T(==)>(s: seq<T>, p: T -> bool): (r: seq<T>)
    ensures |r| <= |s|
    ensures forall i :: 0 <= i < |r| ==> r[i] in s && p(r[i])
    ensures forall i :: 0 <= i < |s| && p(s[i]) ==> s[i] in r
  {
    if s == [] then []
    else
      var rest := Filter(s[1..], p);
      assert forall i :: 1 <= i < |s| ==> s[i] == s[1..][i - 1];
      if p(s[0]) then [s[0]] + rest else rest
  }

  /** `key` strictly increases along `s`. */
  predicate IncreasingBy<T>(s: seq<T>, key: T -> int)
  {
    forall i, j :: 0 <= i < j < |s| ==> key(s[i]) < key(s[j])
  }

  /** A store whose values carry their own key as `key` lists them with `key` increasing. */
  lemma EntriesIncreasing<T>(m: map<nat, T>, key: T -> int)
    ensures (forall k :: k in m ==> key(m[k]) == k) ==> IncreasingBy(Entries(m), key)
  {
    if forall k :: k in m ==> key(m[k]) == k {
      var r, ks := Entries(m), AscendingKeys(m.Keys);
      forall i, j | 0 <= i < j < |r| ensures key(r[i]) < key(r[j]) {
        assert key(r[i]) == ks[i] && key(r[j]) == ks[j];
      }
    }
  }

  /** A head below every element of an increasing tail keeps the list increasing. */
  lemma IncreasingCons<T>(x: T, s: seq<T>, key: T -> int)
    requires IncreasingBy(s, key)
    requires forall j :: 0 <= j < |s| ==> key(x) < key(s[j])
    ensures IncreasingBy([x] + s, key)
  {
    var r := [x] + s;
    forall i, j | 0 <= i < j < |r| ensures key(r[i]) < key(r[j]) {
      assert r[j] == s[j - 1];
      if i > 0 {
        assert r[i] == s[i - 1];
      }
    }
  }

  /** The elements kept from a list whose keys all exceed `b` have keys exceeding `b`. */
  lemma FilterAbove<T>(s: seq<T>, p: T -> bool, key: T -> int, b: int)
    requires forall i :: 0 <= i < |s| ==> b < key(s[i])
    ensures forall j :: 0 <= j < |Filter(s, p)| ==> b < key(Filter(s, p)[j])
  {
    var r := Filter(s, p);
    forall j | 0 <= j < |r| ensures b < key(r[j]) {
      var n :| 0 <= n < |s| && s[n] == r[j];
    }
  }

  /** Keeping some elements of a list ordered by `key` leaves it ordered by `key`. */
  lemma {:induction false} FilterKeepsOrder<T>(s: seq<T>, p: T -> bool, key: T -> int)
    ensures IncreasingBy(s, key) ==> IncreasingBy(Filter(s, p), key)
  {
    if s != [] && IncreasingBy(s, key) {
      var tail := s[1..];
      assert forall i :: 0 <= i < |tail| ==> tail[i] == s[i + 1];
      FilterKeepsOrder(tail, p, key);
      var rest := Filter(tail, p);
      if p(s[0]) {
        var r := [s[0]] + rest;
        assert Filter(s, p) == r;
        FilterAbove(tail, p, key, key(s[0]));
        IncreasingCons(s[0], rest, key);
      } else {
        assert Filter(s, p) == rest;
      }
    }
  }

  /**
   * The sum of `f` over every value of a store (`.map(f).sum()`), in iteration
   * order. No term exceeds it.
   */
  function SumOf<T>(m: map<nat, T>, f: T -> nat): (s: nat)
    ensures forall k :: k in m ==> f(m[k]) <= s
    decreases |m|
  {
    if m == map[] then 0
    else
      var k := MinKey(m.Keys);
      assert forall j :: j in m && j != k ==> j in m - {k} && (m - {k})[j] == m[j];
      f(m[k]) + SumOf(m - {k}, f)
  }

  /** Inserting a value under a new key adds exactly its share to the sum. */
  lemma {:induction false} SumOfInsert<T>(m: map<nat, T>, k: nat, v: T, f: T -> nat)
    requires k !in m
    ensures SumOf(m[k := v], f) == SumOf(m, f) + f(v)
    decreases |m|
  {
    var m' := m[k := v];
    assert k in m'.Keys;
    assert forall l :: l in m' ==> l == k || l in m;
    var j := MinKey(m'.Keys);
    if m == map[] {
      assert m' - {j} == map[];
    } else {
      var i := MinKey(m.Keys);
      if k < i {
        assert j == k;
        assert m' - {k} == m;
      } else {
        assert i in m'.Keys && k != i;
        assert j == i;
        assert m' - {i} == (m - {i})[k := v];
        SumOfInsert(m - {i}, k, v, f);
      }
    }
  }

  /** A positive sum has a value that contributes to it. */
  lemma {:induction false} SumOfPositive<T>(m: map<nat, T>, f: T -> nat)
    requires SumOf(m, f) > 0
    ensures exists k :: k in m && f(m[k]) > 0
    decreases |m|
  {
    var k := MinKey(m.Keys);
    if f(m[k]) == 0 {
      SumOfPositive(m - {k}, f);
      var j :| j in m - {k} && f((m - {k})[j]) > 0;
      assert j in m && f(m[j]) > 0;
    }
  }

  /**
   * The nine stores of `storage.rs` (MemoryIds 0 to 8), each a field that the
   * operations reassign. A method that names only some fields in its `modifies`
   * clause leaves every other store unchanged.
   */
  class Canister {
    var idCounter: map<nat, nat>
    var properties: map<nat, Property>
    var investments: map<nat, Investment>
    var users: map<Principal, UserProfile>
    var orders: map<nat, TokenOrder>
    var dividends: map<nat, DividendDistribution>
    var portfolios: map<Principal, Portfolio>
    var proposals: map<nat, GovernanceProposal>
    var marketData: map<nat, MarketData>

    /** `ID_COUNTER.get(&0).unwrap_or(0)`: the last id drawn, 0 before the first. */
    function LastId(): nat
      reads this`idCounter
    {
      if 0 in idCounter then idCounter[0] else 0
    }

    /** Every property is stored under its own id, which the counter has issued. */
    ghost predicate PropertiesValid()
      reads this`properties, this`idCounter
    {
      forall k :: k in properties ==> properties[k].id == k && k <= LastId()
    }

    /** Every investment is stored under its own issued id and names a stored property. */
    ghost predicate InvestmentsValid()
      reads this`investments, this`properties, this`idCounter
    {
      forall k :: k in investments ==>
        investments[k].id == k && k <= LastId() && investments[k].propertyId in properties
    }

    /** Every order is stored under its own issued id and names a stored property. */
    ghost predicate OrdersValid()
      reads this`orders, this`properties, this`idCounter
    {
      forall k :: k in orders ==> orders[k].id == k && k <= LastId() && orders[k].propertyId in properties
    }

    /** Every proposal is stored under its own issued id and names a stored property. */
    ghost predicate ProposalsValid()
      reads this`proposals, this`properties, this`idCounter
    {
      forall k :: k in proposals ==>
        proposals[k].id == k && k <= LastId() && proposals[k].propertyId in properties
    }

    /** Profiles, KYC records, portfolios and market data are keyed by what they describe. */
    ghost predicate KeyedByOwner()
      reads this`users, this`portfolios, this`marketData
    {
      && (forall p :: p in users ==>
            users[p].principal == p
            && (users[p].kycVerification.Some? ==> users[p].kycVerification.value.user == p))
      && (forall p :: p in portfolios ==> portfolios[p].owner == p)
      && (forall k :: k in marketData ==> marketData[k].propertyId == k)
    }

    /**
     * What every operation preserves: each record is stored under its own id (or
     * principal), no id-keyed record has an id the counter has not yet handed out,
     * and investments, orders and proposals refer to stored properties.
     */
    ghost predicate Valid()
      reads this
    {
      PropertiesValid() && InvestmentsValid() && OrdersValid() && ProposalsValid() && KeyedByOwner()
    }

    /** The principals whose profile says `KycStatus::Verified`: those `validate_kyc` lets through. */
    ghost function VerifiedUsers(): set<Principal>
      reads this
    {
      set p | p in users && users[p].kycStatus.Verified?
    }

    /** A freshly installed canister: every store is empty. */
    constructor ()
      ensures Valid()
      ensures idCounter == map[] && properties == map[] && investments == map[]
      ensures users == map[] && orders == map[] && dividends == map[]
      ensures portfolios == map[] && proposals == map[] && marketData == map[]
      ensures LastId() == 0 && VerifiedUsers() == {}
    {
      idCounter, properties, investments := map[], map[], map[];
      users, orders, dividends := map[], map[], map[];
      portfolios, proposals, marketData := map[], map[], map[];
    }

    /**
     * `get_next_id`: read key 0 of the counter (0 if absent), add one, write the
     * sum back under key 0 and return it. No other store changes, and the id is
     * new to every id-keyed store, so properties, investments, orders and
     * proposals never share or reuse an id.
     */
    method NextId() returns (id: nat)
      requires Valid()
      requires LastId() < MaxU64
      modifies this`idCounter
      ensures Valid()
      ensures id == old(LastId()) + 1
      ensures idCounter == old(idCounter)[0 := id]
      ensures LastId() == id && old(LastId()) < id
      ensures id !in properties && id !in investments && id !in orders && id !in proposals
    {
      var current := if 0 in idCounter then idCounter[0] else 0;
      id := current + 1;
      idCounter := idCounter[0 := id];
    }
  }
}
