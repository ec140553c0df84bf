/**
 * The listing page (`Properties.jsx`): the catalogue, sorted by price on
 * request. The price key is the number written by the digits of the price
 * string; the sort is the stable `Array.prototype.sort` over a copy of the
 * catalogue.
 */
module PropertiesPage {

  import opened Wrappers
  import opened Listings

  const ApartmentPrice: string := "350,000 ICP"
  const HousePrice: string := "500,000 ICP"

  const Apartment: Listing := Listing(
    "1", "Modern Apartment",
    "https://www.casagrand.co.in/wp-content/uploads/2025/04/SWIMMING-POOL-VIEW-scaled.jpg?ver=1.211",
    "A beautiful modern apartment in the city center.", ApartmentPrice, "Downtown",
    ["2 Bedrooms", "2 Bathrooms", "Balcony", "Gym"], Some("agent@example.com"), Some(70))

  const House: Listing := Listing(
    "2", "Cozy Suburban House",
    "https://plus.unsplash.com/premium_photo-1746387628298-af5695a3f935?q=80&w=1332&auto=format&fit=crop&ixlib=rb-4.1.0&ixid=M3wxMjA3fDB8MHxwaG90by1wYWdlfHx8fGVufDB8fHx8fA%3D%3D",
    "Cozy family home in a quiet neighborhood.", HousePrice, "Suburbs",
    ["4 Bedrooms", "3 Bathrooms", "Garden", "Garage"], Some("info@homes.com"), Some(45))

  /** The catalogue the page lists. */
  const Catalogue: seq<Listing> := [Apartment, House]

  predicate IsDigit(ch: char)
  {
    '0' <= ch <= '9'
  }

  /** `s.replace(/[^0-9]/g, "")` on the characters of `s` from index `i` on: its digits, in order. */
  function DigitsFrom(s: string, i: nat): (d: string)
    requires i <= |s|
    ensures forall k :: 0 <= k < |d| ==> IsDigit(d[k])
    decreases |s| - i
  {
    if i == |s| then []
    else (if IsDigit(s[i]) then [s[i]] else []) + DigitsFrom(s, i + 1)
  }

  /** The digits extracted are exactly the digits present: none exactly when there are none. */
  lemma {:induction false} DigitsFromEmpty(s: string, i: nat)
    requires i <= |s|
    ensures DigitsFrom(s, i) == [] <==> forall j :: i <= j < |s| ==> !IsDigit(s[j])
    decreases |s| - i
  {
    if i < |s| {
      DigitsFromEmpty(s, i + 1);
    }
  }

  function DigitValue(ch: char): nat
    requires IsDigit(ch)
  {
    ch as int - '0' as int
  }

  /** `parseInt` on a string of decimal digits, read left to right after `acc`. */
  function Horner(acc: nat, d: string): nat
    requires forall i :: 0 <= i < |d| ==> IsDigit(d[i])
    decreases |d|
  {
    if d == [] then acc
    else assert IsDigit(d[0]); Horner(10 * acc + DigitValue(d[0]), d[1..])
  }

  /**
   * `parseInt(price.replace(/[^0-9]/g, ""))`: `None` stands for `NaN`, which
   * `parseInt` returns when the price has no digit at all.
   */
  function PriceKey(price: string): (k: Option<nat>)
    ensures k.None? <==> forall i :: 0 <= i < |price| ==> !IsDigit(price[i])
  {
    DigitsFromEmpty(price, 0);
    var d := DigitsFrom(price, 0);
    if d == [] then None else Some(Horner(0, d))
  }

  /** One more character keeps every digit found so far and adds itself if it is a digit. */
  lemma {:induction false} DigitsFromAppend(s: string, ch: char, i: nat)
    requires i <= |s|
    ensures DigitsFrom(s + [ch], i) == DigitsFrom(s, i) + (if IsDigit(ch) then [ch] else [])
    decreases |s| - i
  {
    var t := s + [ch];
    if i == |s| {
      assert t[i] == ch;
      assert DigitsFrom(t, i + 1) == [];
    } else {
      assert t[i] == s[i];
      DigitsFromAppend(s, ch, i + 1);
    }
  }

  /** Reading one more digit multiplies the number read so far by ten and adds the digit. */
  lemma {:induction false} HornerAppend(acc: nat, d: string, ch: char)
    requires forall i :: 0 <= i < |d| ==> IsDigit(d[i])
    requires IsDigit(ch)
    ensures forall i :: 0 <= i < |d + [ch]| ==> IsDigit((d + [ch])[i])
    ensures Horner(acc, d + [ch]) == 10 * Horner(acc, d) + DigitValue(ch)
    decreases |d|
  {
    var e := d + [ch];
    assert forall i :: 0 <= i < |e| ==> IsDigit(e[i]) by {
      assert forall i :: 0 <= i < |d| ==> e[i] == d[i];
    }
    if d != [] {
      assert e[0] == d[0] && e[1..] == d[1..] + [ch];
      HornerAppend(10 * acc + DigitValue(d[0]), d[1..], ch);
    }
  }

  /**
   * The key read left to right: a string without digits has none; a further
   * digit makes the key ten times the key so far (0 when there was none) plus
   * that digit; any other character leaves the key as it was. So the key is
   * the decimal number spelt by all the digits of the price, in order.
   */
  lemma PriceKeyAppend(s: string, ch: char)
    ensures PriceKey([]) == None
    ensures IsDigit(ch) ==>
              PriceKey(s + [ch]) == Some(10 * (if PriceKey(s).Some? then PriceKey(s).value else 0) + DigitValue(ch))
    ensures !IsDigit(ch) ==> PriceKey(s + [ch]) == PriceKey(s)
  {
    DigitsFromAppend(s, ch, 0);
    var d := DigitsFrom(s, 0);
    if IsDigit(ch) {
      HornerAppend(0, d, ch);
      if d == [] {
        assert d + [ch] == [ch];
      }
    } else {
      assert d + [] == d;
    }
  }

  /**
   * The comparator: `priceA - priceB` for "lowToHigh", `priceB - priceA` for
   * "highToLow", 0 for any other order. A difference involving `NaN` is `NaN`,
   * which the sort reads as 0.
   */
  function Compare(order: string, a: Listing, b: Listing): (c: int)
    ensures order != "lowToHigh" && order != "highToLow" ==> c == 0
    ensures PriceKey(a.price).None? || PriceKey(b.price).None? ==> c == 0
  {
    var ka := PriceKey(a.price);
    var kb := PriceKey(b.price);
    if ka.None? || kb.None? then 0
    else if order == "lowToHigh" then ka.value - kb.value
    else if order == "highToLow" then kb.value - ka.value
    else 0
  }

  /** The comparator `[...properties].sort` is given for an order. */
  function Comparator(order: string): (Listing, Listing) -> int
  {
    (a: Listing, b: Listing) => Compare(order, a, b)
  }

  /** Stable insertion of `x` after every element of `t` that does not compare above it. */
  function Insert(cmp: (Listing, Listing) -> int, t: seq<Listing>, x: Listing): (r: seq<Listing>)
    ensures |r| == |t| + 1
  {
    if t == [] then [x]
    else if cmp(t[|t| - 1], x) > 0 then Insert(cmp, t[..|t| - 1], x) + [t[|t| - 1]]
    else t + [x]
  }

  /** A stable sort: each element inserted in input order. The result is a permutation of the input. */
  function Sort(cmp: (Listing, Listing) -> int, s: seq<Listing>): (r: seq<Listing>)
    ensures |r| == |s|
    ensures multiset(r) == multiset(s)
  {
    if s == [] then []
    else
      var init, last := s[..|s| - 1], s[|s| - 1];
      InsertPermutes(cmp, Sort(cmp, init), last);
      assert s == init + [last];
      Insert(cmp, Sort(cmp, init), last)
  }

  /** Insertion adds `x` and loses nothing. */
  lemma {:induction false} InsertPermutes(cmp: (Listing, Listing) -> int, t: seq<Listing>, x: Listing)
    ensures multiset(Insert(cmp, t, x)) == multiset(t) + multiset{x}
  {
    if t != [] && cmp(t[|t| - 1], x) > 0 {
      InsertPermutes(cmp, t[..|t| - 1], x);
      assert t == t[..|t| - 1] + [t[|t| - 1]];
    }
  }


  predicate HasKey(l: Listing)
  {
    PriceKey(l.price).Some?
  }

  /** The numeric key of a listing whose price has a digit. */
  function Key(l: Listing): nat
    requires HasKey(l)
  {
    PriceKey(l.price).value
  }

  /** Every pair in `r` is in comparator order. */
  ghost predicate Sorted(cmp: (Listing, Listing) -> int, r: seq<Listing>)
  {
    forall i, j :: 0 <= i < j < |r| ==> cmp(r[i], r[j]) <= 0
  }

  /** `cmp` is a total preorder on the listings satisfying `dom`. */
  ghost predicate PreorderOn(cmp: (Listing, Listing) -> int, dom: Listing -> bool)
  {
    && (forall a, b :: dom(a) && dom(b) && cmp(a, b) > 0 ==> cmp(b, a) < 0)
    && (forall a, b, c :: dom(a) && dom(b) && dom(c) && cmp(a, b) <= 0 && cmp(b, c) <= 0 ==> cmp(a, c) <= 0)
  }

  /** On listings whose prices hold a digit, the page's comparator is a total preorder. */
  lemma ComparatorIsPreorder(order: string)
    ensures PreorderOn(Comparator(order), HasKey)
  {
  }

  /** A property of every element survives insertion and sorting. */
  lemma {:induction false} InsertPreserves(cmp: (Listing, Listing) -> int, t: seq<Listing>, x: Listing,
                                           p: Listing -> bool)
    requires p(x) && forall i :: 0 <= i < |t| ==> p(t[i])
    ensures forall i :: 0 <= i < |Insert(cmp, t, x)| ==> p(Insert(cmp, t, x)[i])
  {
    if t != [] && cmp(t[|t| - 1], x) > 0 {
      InsertPreserves(cmp, t[..|t| - 1], x, p);
    }
  }

  lemma {:induction false} SortPreserves(cmp: (Listing, Listing) -> int, s: seq<Listing>, p: Listing -> bool)
    requires forall i :: 0 <= i < |s| ==> p(s[i])
    ensures forall i :: 0 <= i < |Sort(cmp, s)| ==> p(Sort(cmp, s)[i])
  {
    if s != [] {
      SortPreserves(cmp, s[..|s| - 1], p);
      InsertPreserves(cmp, Sort(cmp, s[..|s| - 1]), s[|s| - 1], p);
    }
  }

  lemma {:induction false} InsertSorted(cmp: (Listing, Listing) -> int, dom: Listing -> bool,
                                        t: seq<Listing>, x: Listing)
    requires PreorderOn(cmp, dom)
    requires dom(x) && forall i :: 0 <= i < |t| ==> dom(t[i])
    requires Sorted(cmp, t)
    ensures Sorted(cmp, Insert(cmp, t, x))
  {
    if t != [] {
      var init, last := t[..|t| - 1], t[|t| - 1];
      if cmp(last, x) > 0 {
        InsertSorted(cmp, dom, init, x);
        var below := (e: Listing) => cmp(e, last) <= 0;
        InsertPreserves(cmp, init, x, below);
        var u := Insert(cmp, init, x);
        var r := u + [last];
        forall i, j | 0 <= i < j < |r| ensures cmp(r[i], r[j]) <= 0 {
          if j == |u| {
            assert below(u[i]);
          }
        }
      } else {
        var r := t + [x];
        forall i, j | 0 <= i < j < |r| ensures cmp(r[i], r[j]) <= 0 {
          if j == |t| && i < |t| - 1 {
            assert cmp(t[i], last) <= 0;
          }
        }
      }
    }
  }

  /** Sorting under a total preorder gives a sorted result. */
  lemma {:induction false} SortSorted(cmp: (Listing, Listing) -> int, dom: Listing -> bool, s: seq<Listing>)
    requires PreorderOn(cmp, dom)
    requires forall i :: 0 <= i < |s| ==> dom(s[i])
    ensures Sorted(cmp, Sort(cmp, s))
  {
    if s != [] {
      var init := s[..|s| - 1];
      SortSorted(cmp, dom, init);
      SortPreserves(cmp, init, dom);
      InsertSorted(cmp, dom, Sort(cmp, init), s[|s| - 1]);
    }
  }

  /**
   * With every price holding a digit, "lowToHigh" lists keys ascending and
   * "highToLow" descending.
   */
  lemma PageSortOrdered(order: string, s: seq<Listing>)
    requires forall i :: 0 <= i < |s| ==> HasKey(s[i])
    ensures var r := Sort(Comparator(order), s);
      && |r| == |s|
      && (forall i :: 0 <= i < |r| ==> HasKey(r[i]))
      && (order == "lowToHigh" ==> forall i, j :: 0 <= i < j < |r| ==> Key(r[i]) <= Key(r[j]))
      && (order == "highToLow" ==> forall i, j :: 0 <= i < j < |r| ==> Key(r[i]) >= Key(r[j]))
  {
    var r := Sort(Comparator(order), s);
    SortPreserves(Comparator(order), s, HasKey);
    ComparatorIsPreorder(order);
    SortSorted(Comparator(order), HasKey, s);
    forall i, j | 0 <= i < j < |r| ensures Compare(order, r[i], r[j]) <= 0 {
      assert Comparator(order)(r[i], r[j]) <= 0;
    }
  }

  /**
   * `[...properties].sort(comparator)`: the page's list, a permutation of the
   * catalogue. The copy is sorted, never the catalogue itself.
   */
  function SortedProperties(order: string): (r: seq<Listing>)
    ensures multiset(r) == multiset(Catalogue)
  {
    Sort(Comparator(order), Catalogue)
  }

  /** The key the page sorts a listing by. */
  function ListingKey(l: Listing): Option<nat>
  {
    PriceKey(l.price)
  }

  /** `[x]` when `x` has key `k`, else nothing. */
  function OneWithKey(key: Listing -> Option<nat>, x: Listing, k: Option<nat>): seq<Listing>
  {
    if key(x) == k then [x] else []
  }

  /** The elements of `s` whose key is `k`, in order. */
  function WithKey(key: Listing -> Option<nat>, s: seq<Listing>, k: Option<nat>): seq<Listing>
  {
    if s == [] then [] else WithKey(key, s[..|s| - 1], k) + OneWithKey(key, s[|s| - 1], k)
  }

  lemma WithKeyAppend(key: Listing -> Option<nat>, s: seq<Listing>, x: Listing, k: Option<nat>)
    ensures WithKey(key, s + [x], k) == WithKey(key, s, k) + OneWithKey(key, x, k)
  {
  }

  /** Listings the comparator separates have different keys. */
  ghost predicate SeparatesOnlyKeys(cmp: (Listing, Listing) -> int, key: Listing -> Option<nat>)
  {
    forall a, b :: cmp(a, b) != 0 ==> key(a) != key(b)
  }

  lemma ComparatorSeparatesOnlyKeys(order: string)
    ensures SeparatesOnlyKeys(Comparator(order), ListingKey)
  {
  }

  /** Two pieces one of which is empty can be appended in either order. */
  lemma SwapPieces(w: seq<Listing>, p: seq<Listing>, q: seq<Listing>)
    requires p == [] || q == []
    ensures w + p + q == w + q + p
  {
  }

  lemma {:induction false} InsertStable(cmp: (Listing, Listing) -> int, key: Listing -> Option<nat>,
                                        t: seq<Listing>, x: Listing, k: Option<nat>)
    requires SeparatesOnlyKeys(cmp, key)
    ensures WithKey(key, Insert(cmp, t, x), k) == WithKey(key, t + [x], k)
  {
    if t != [] {
      var init, last := t[..|t| - 1], t[|t| - 1];
      if cmp(last, x) > 0 {
        var u := Insert(cmp, init, x);
        // Two listings of different keys cannot both have key k.
        assert key(last) != key(x);
        calc {
          WithKey(key, Insert(cmp, t, x), k);
          WithKey(key, u + [last], k);
          { WithKeyAppend(key, u, last, k); }
          WithKey(key, u, k) + OneWithKey(key, last, k);
          { InsertStable(cmp, key, init, x, k); WithKeyAppend(key, init, x, k); }
          WithKey(key, init, k) + OneWithKey(key, x, k) + OneWithKey(key, last, k);
          { SwapPieces(WithKey(key, init, k), OneWithKey(key, x, k), OneWithKey(key, last, k)); }
          WithKey(key, init, k) + OneWithKey(key, last, k) + OneWithKey(key, x, k);
          WithKey(key, t, k) + OneWithKey(key, x, k);
          { WithKeyAppend(key, t, x, k); }
          WithKey(key, t + [x], k);
        }
      }
    }
  }

  lemma {:induction false} SortStable(cmp: (Listing, Listing) -> int, key: Listing -> Option<nat>,
                                      s: seq<Listing>, k: Option<nat>)
    requires SeparatesOnlyKeys(cmp, key)
    ensures WithKey(key, Sort(cmp, s), k) == WithKey(key, s, k)
  {
    if s != [] {
      var init, last := s[..|s| - 1], s[|s| - 1];
      assert s == init + [last];
      SortStable(cmp, key, init, k);
      InsertStable(cmp, key, Sort(cmp, init), last, k);
      WithKeyAppend(key, Sort(cmp, init), last, k);
      WithKeyAppend(key, init, last, k);
    }
  }

  /**
   * The modelled sort is stable for the page's comparator: for every key, `NaN`
   * included, the listings with that key appear in the result in their original
   * order. With a `NaN` key the comparator is not a consistent order, and a
   * JavaScript engine's result is then implementation-defined; this is a fact
   * about the insertion sort of this model.
   */
  lemma PageSortStable(order: string, s: seq<Listing>, k: Option<nat>)
    ensures WithKey(ListingKey, Sort(Comparator(order), s), k) == WithKey(ListingKey, s, k)
  {
    ComparatorSeparatesOnlyKeys(order);
    SortStable(Comparator(order), ListingKey, s, k);
  }

  /** A comparator that never separates two listings leaves every list as it is. */
  lemma {:induction false} SortKeepsOrder(cmp: (Listing, Listing) -> int, s: seq<Listing>)
    requires forall a, b :: cmp(a, b) == 0
    ensures Sort(cmp, s) == s
  {
    if s != [] {
      var init, last := s[..|s| - 1], s[|s| - 1];
      SortKeepsOrder(cmp, init);
      assert Sort(cmp, s) == Insert(cmp, init, last);
      assert Insert(cmp, init, last) == init + [last] == s;
    }
  }

  /** Any other order, "" included, keeps the original order. */
  lemma UnsortedKeepsOrder(order: string, s: seq<Listing>)
    requires order != "lowToHigh" && order != "highToLow"
    ensures Sort(Comparator(order), s) == s
  {
    var cmp := Comparator(order);
    forall a, b ensures cmp(a, b) == 0 {
      assert cmp(a, b) == Compare(order, a, b);
    }
    SortKeepsOrder(cmp, s);
  }

  /** The key of "350,000 ICP" is 350000. */
  lemma ApartmentKey()
    ensures PriceKey(ApartmentPrice) == Some(350000)
  {
    assert DigitsFrom(ApartmentPrice, 11) == "";
    assert DigitsFrom(ApartmentPrice, 10) == "";
    assert DigitsFrom(ApartmentPrice, 9) == "";
    assert DigitsFrom(ApartmentPrice, 8) == "";
    assert DigitsFrom(ApartmentPrice, 7) == "";
    assert DigitsFrom(ApartmentPrice, 6) == "0";
    assert DigitsFrom(ApartmentPrice, 5) == "00";
    assert DigitsFrom(ApartmentPrice, 4) == "000";
    assert DigitsFrom(ApartmentPrice, 3) == "000";
    assert DigitsFrom(ApartmentPrice, 2) == "0000";
    assert DigitsFrom(ApartmentPrice, 1) == "50000";
    assert Horner(3, "50000") == 350000;
  }

  /** The key of "500,000 ICP" is 500000. */
  lemma HouseKey()
    ensures PriceKey(HousePrice) == Some(500000)
  {
    assert DigitsFrom(HousePrice, 11) == "";
    assert DigitsFrom(HousePrice, 10) == "";
    assert DigitsFrom(HousePrice, 9) == "";
    assert DigitsFrom(HousePrice, 8) == "";
    assert DigitsFrom(HousePrice, 7) == "";
    assert DigitsFrom(HousePrice, 6) == "0";
    assert DigitsFrom(HousePrice, 5) == "00";
    assert DigitsFrom(HousePrice, 4) == "000";
    assert DigitsFrom(HousePrice, 3) == "000";
    assert DigitsFrom(HousePrice, 2) == "0000";
    assert DigitsFrom(HousePrice, 1) == "00000";
    assert Horner(5, "00000") == 500000;
  }

  /** Sorting two listings swaps them exactly when the first compares above the second. */
  lemma SortPair(cmp: (Listing, Listing) -> int, a: Listing, b: Listing)
    ensures Sort(cmp, [a, b]) == if cmp(a, b) > 0 then [b, a] else [a, b]
  {
    assert [a, b][..1] == [a];
    assert [a][..0] == [];
    assert Sort(cmp, [a]) == Insert(cmp, [], a) == [a];
    assert Sort(cmp, [a, b]) == Insert(cmp, [a], b);
    assert [a][..0] == [];
    if cmp(a, b) > 0 {
      assert Insert(cmp, [a], b) == Insert(cmp, [], b) + [a];
    }
  }

  /** "lowToHigh" lists the apartment (350,000) before the house (500,000). */
  lemma CatalogueLowToHigh()
    ensures SortedProperties("lowToHigh") == [Apartment, House]
  {
    ApartmentKey();
    HouseKey();
    var cmp := Comparator("lowToHigh");
    assert cmp(Apartment, House) == Compare("lowToHigh", Apartment, House) == -150000;
    SortPair(cmp, Apartment, House);
  }

  /** "highToLow" lists the house first. */
  lemma CatalogueHighToLow()
    ensures SortedProperties("highToLow") == [House, Apartment]
  {
    ApartmentKey();
    HouseKey();
    var cmp := Comparator("highToLow");
    assert cmp(Apartment, House) == Compare("highToLow", Apartment, House) == 150000;
    SortPair(cmp, Apartment, House);
  }

  /** The initial order "" keeps the catalogue as written. */
  lemma CatalogueUnsorted()
    ensures SortedProperties("") == [Apartment, House]
  {
    UnsortedKeepsOrder("", Catalogue);
  }
}
