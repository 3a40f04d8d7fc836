/**
 * The entity store: two keyed tables, Buys keyed by (channel, buy id) and
 * Interests keyed by (`channel:user`, buy id). The table service is a pair
 * of maps; the Interests table also lists its keys in the order a query
 * returns them, by partition key and then row key. Upsert replaces the
 * whole record.
 */
module Storage {
  import opened Wrappers
  import opened Js
  import opened Entities

  datatype Tables = Tables(
    buys: map<BuyKey, Buy>,
    interests: map<InterestKey, Interest>,
    scan: seq<InterestKey>)

  /** Every record sits under its own key, and the scan lists every
      interest key exactly once, in key order. */
  ghost predicate Valid(t: Tables) {
    && (forall k :: k in t.buys ==> t.buys[k].channelId == k.channelId && t.buys[k].buyId == k.buyId)
    && (forall k :: k in t.interests ==> KeyOf(t.interests[k]) == k)
    && (forall k :: k in t.interests <==> k in t.scan)
    && (forall i, j :: 0 <= i < j < |t.scan| ==> t.scan[i] != t.scan[j])
    && Sorted(t.scan)
  }

  /** `keys` ascends in the table's key order. */
  ghost predicate Sorted(keys: seq<InterestKey>) {
    forall i, j :: 0 <= i < j < |keys| ==> KeyLess(keys[i], keys[j])
  }

  type Store = t: Tables | Valid(t) witness Tables(map[], map[], [])

  const EmptyStore: Store := Tables(map[], map[], [])

  /** `getBuyEntity`: the record under (channelId, buyId), absent on a miss. */
  function GetBuyEntity(s: Store, channelId: string, buyId: string): (r: Option<Buy>)
    ensures r.Some? <==> BuyKey(channelId, buyId) in s.buys
    ensures r.Some? ==> r.value.channelId == channelId && r.value.buyId == buyId
  {
    var k := BuyKey(channelId, buyId);
    if k in s.buys then Some(s.buys[k]) else None
  }

  /** `isBuyClosed`: `buy?.closed ?? false`. */
  function IsBuyClosed(s: Store, channelId: string, buyId: string): (r: bool)
    ensures r <==> exists b :: GetBuyEntity(s, channelId, buyId) == Some(b) && b.closed == Some(true)
  {
    match GetBuyEntity(s, channelId, buyId)
    case Some(b) => IsTrue(b.closed)
    case None => false
  }

  /** `saveBuyEntity`: upserts exactly the passed fields under
      (channelId, buyId), with the creator taken from `userId`. */
  function SaveBuyEntity(
    s: Store, channelId: string, userId: string, buyId: string, name: string,
    unitForShares: Unit, shareSize: real, pricePerShare: real,
    description: Option<string>, closed: Option<bool>, closedAt: Option<Instant>,
    paypal: Option<string>, usdcWallet: Option<string>, wiseId: Option<string>): (r: Store)
    ensures GetBuyEntity(r, channelId, buyId)
            == Some(Buy(channelId, buyId, userId, name, unitForShares, shareSize, pricePerShare,
                        description, closed, closedAt, paypal, usdcWallet, wiseId))
    ensures forall c, b :: BuyKey(c, b) != BuyKey(channelId, buyId) ==> GetBuyEntity(r, c, b) == GetBuyEntity(s, c, b)
    ensures r.interests == s.interests && r.scan == s.scan
  {
    var b := Buy(channelId, buyId, userId, name, unitForShares, shareSize, pricePerShare,
                 description, closed, closedAt, paypal, usdcWallet, wiseId);
    Tables(s.buys[BuyKey(channelId, buyId) := b], s.interests, s.scan)
  }

  /** Stores a whole buy record under its own key. */
  function PutBuy(s: Store, b: Buy): Store {
    SaveBuyEntity(s, b.channelId, b.creatorUserId, b.buyId, b.name, b.unitForShares, b.shareSize,
                  b.pricePerShare, b.description, b.closed, b.closedAt, b.paypal, b.usdcWallet, b.wiseId)
  }

  /** `getInterestOfUser`: absent without a lookup when `buyId` is falsy,
      otherwise the record under (`channelId:userId`, buyId) or absent. */
  function GetInterestOfUser(s: Store, channelId: string, buyId: string, userId: string): (r: Option<Interest>)
    ensures buyId == "" ==> r == None
    ensures buyId != "" ==> (r.Some? <==> InterestKeyFor(channelId, userId, buyId) in s.interests)
    ensures r.Some? ==> KeyOf(r.value) == InterestKeyFor(channelId, userId, buyId)
  {
    if buyId == "" then None
    else
      var k := InterestKeyFor(channelId, userId, buyId);
      if k in s.interests then Some(s.interests[k]) else None
  }

  /** `saveInterest`: upserts the record under (`channelId:userId`, buyId);
      a new key takes its place in key order. */
  function SaveInterest(s: Store, channelId: string, userId: string, buyId: string,
                        shares: Number, email: string, payed: Option<bool>): (r: Store)
    ensures var k := InterestKeyFor(channelId, userId, buyId);
            && k in r.interests
            && r.interests[k] == Interest(shares, email, userId, buyId, channelId, payed)
            && (forall k' :: k' != k ==> (k' in r.interests <==> k' in s.interests))
            && (forall k' :: k' != k && k' in s.interests ==> r.interests[k'] == s.interests[k'])
    ensures buyId != "" ==> GetInterestOfUser(r, channelId, buyId, userId)
                            == Some(Interest(shares, email, userId, buyId, channelId, payed))
    ensures r.buys == s.buys
  {
    var k := InterestKeyFor(channelId, userId, buyId);
    var rec := Interest(shares, email, userId, buyId, channelId, payed);
    var scan := if k in s.interests then s.scan else Insert(s.scan, k);
    SortedDistinct(scan);
    Tables(s.buys, s.interests[k := rec], scan)
  }

  /** A sorted list of keys holds each key once. */
  lemma SortedDistinct(keys: seq<InterestKey>)
    requires Sorted(keys)
    ensures forall i, j :: 0 <= i < j < |keys| ==> keys[i] != keys[j]
  {
    forall i, j | 0 <= i < j < |keys| ensures keys[i] != keys[j] {
      KeyLessStrictTotal(keys[i], keys[j], keys[j]);
    }
  }

  /** `keys` with the new key `k` put at its place in key order. */
  function Insert(keys: seq<InterestKey>, k: InterestKey): (r: seq<InterestKey>)
    requires Sorted(keys) && k !in keys
    ensures forall x :: x in r <==> x in keys || x == k
    ensures Sorted(r)
  {
    if |keys| == 0 then [k]
    else if KeyLess(k, keys[0]) then
      BelowHead(keys, k);
      [k] + keys
    else
      KeyLessStrictTotal(k, keys[0], keys[0]);
      SortedTail(keys);
      var rest := Insert(keys[1..], k);
      AboveHead(keys, k, rest);
      [keys[0]] + rest
  }

  lemma SortedTail(keys: seq<InterestKey>)
    requires Sorted(keys) && |keys| > 0
    ensures Sorted(keys[1..])
  {
    forall i, j | 0 <= i < j < |keys[1..]| ensures KeyLess(keys[1..][i], keys[1..][j]) {
      assert keys[1..][i] == keys[i + 1] && keys[1..][j] == keys[j + 1];
    }
  }

  /** A key below the head of a sorted list goes in front of it. */
  lemma BelowHead(keys: seq<InterestKey>, k: InterestKey)
    requires Sorted(keys) && |keys| > 0 && KeyLess(k, keys[0])
    ensures Sorted([k] + keys)
  {
    var t := [k] + keys;
    forall i, j | 0 <= i < j < |t| ensures KeyLess(t[i], t[j]) {
      assert t[j] == keys[j - 1];
      if i == 0 {
        if j > 1 {
          KeyLessStrictTotal(k, keys[0], keys[j - 1]);
        }
      } else {
        assert t[i] == keys[i - 1];
      }
    }
  }

  /** The head of a sorted list stays in front of the sorted rest once a
      key above it joins the rest. */
  lemma AboveHead(keys: seq<InterestKey>, k: InterestKey, rest: seq<InterestKey>)
    requires Sorted(keys) && |keys| > 0 && KeyLess(keys[0], k)
    requires Sorted(rest) && forall x :: x in rest ==> x in keys[1..] || x == k
    ensures Sorted([keys[0]] + rest)
  {
    var t := [keys[0]] + rest;
    forall i, j | 0 <= i < j < |t| ensures KeyLess(t[i], t[j]) {
      assert t[j] == rest[j - 1];
      if i == 0 {
        assert rest[j - 1] in rest;
        if rest[j - 1] != k {
          var q :| 0 <= q < |keys[1..]| && keys[1..][q] == rest[j - 1];
          assert keys[q + 1] == rest[j - 1];
        }
      } else {
        assert t[i] == rest[i - 1];
      }
    }
  }

  /** `a` is listed before `b` in `keys`. */
  ghost predicate ListedBefore(keys: seq<InterestKey>, a: InterestKey, b: InterestKey) {
    exists p, q :: 0 <= p < q < |keys| && keys[p] == a && keys[q] == b
  }

  /** The records of `r` are listed in the order of their keys in `keys`. */
  ghost predicate InKeyOrder(keys: seq<InterestKey>, r: seq<Interest>) {
    forall i, j :: 0 <= i < j < |r| ==> ListedBefore(keys, KeyOf(r[i]), KeyOf(r[j]))
  }

  /** The records a scan visits, in scan order, whose row key is `buyId`. */
  function Collect(m: map<InterestKey, Interest>, keys: seq<InterestKey>, buyId: string): (r: seq<Interest>)
    requires forall k :: k in keys ==> k in m && KeyOf(m[k]) == k
    requires forall i, j :: 0 <= i < j < |keys| ==> keys[i] != keys[j]
    ensures forall i :: 0 <= i < |r| ==> KeyOf(r[i]) in keys && m[KeyOf(r[i])] == r[i] && r[i].buyId == buyId
    ensures forall k :: k in keys && k.row == buyId ==> m[k] in r
    ensures forall i, j :: 0 <= i < j < |r| ==> KeyOf(r[i]) != KeyOf(r[j])
  {
    if |keys| == 0 then []
    else
      var rest := Collect(m, keys[1..], buyId);
      assert forall i :: 0 <= i < |rest| ==> KeyOf(rest[i]) != keys[0] by {
        forall i | 0 <= i < |rest| ensures KeyOf(rest[i]) != keys[0] {
          var j :| 0 <= j < |keys[1..]| && keys[1..][j] == KeyOf(rest[i]);
          assert keys[j + 1] == KeyOf(rest[i]);
        }
      }
      if keys[0].row == buyId then [m[keys[0]]] + rest else rest
  }

  /** The collected records keep the order of the keys they were found
      under. */
  lemma {:induction false} CollectKeepsOrder(m: map<InterestKey, Interest>, keys: seq<InterestKey>, buyId: string)
    requires forall k :: k in keys ==> k in m && KeyOf(m[k]) == k
    requires forall i, j :: 0 <= i < j < |keys| ==> keys[i] != keys[j]
    ensures InKeyOrder(keys, Collect(m, keys, buyId))
  {
    if |keys| > 0 {
      var rest := Collect(m, keys[1..], buyId);
      CollectKeepsOrder(m, keys[1..], buyId);
      if keys[0].row == buyId {
        PrependKeepsOrder(keys, m[keys[0]], rest);
      } else {
        TailOrderLifts(keys, rest);
      }
    }
  }

  /** Records in the order of the later keys are in the order of all keys. */
  lemma TailOrderLifts(keys: seq<InterestKey>, r: seq<Interest>)
    requires |keys| > 0 && InKeyOrder(keys[1..], r)
    ensures InKeyOrder(keys, r)
  {
    forall i, j | 0 <= i < j < |r| ensures ListedBefore(keys, KeyOf(r[i]), KeyOf(r[j])) {
      ShiftListed(keys, KeyOf(r[i]), KeyOf(r[j]));
    }
  }

  /** The record of the first key, put before records of later keys in
      their order, keeps the order of all keys. */
  lemma PrependKeepsOrder(keys: seq<InterestKey>, x: Interest, r: seq<Interest>)
    requires |keys| > 0 && KeyOf(x) == keys[0]
    requires forall i :: 0 <= i < |r| ==> KeyOf(r[i]) in keys[1..]
    requires InKeyOrder(keys[1..], r)
    ensures InKeyOrder(keys, [x] + r)
  {
    var t := [x] + r;
    forall i, j | 0 <= i < j < |t| ensures ListedBefore(keys, KeyOf(t[i]), KeyOf(t[j])) {
      assert t[j] == r[j - 1];
      if i == 0 {
        HeadListedFirst(keys, KeyOf(r[j - 1]));
      } else {
        assert t[i] == r[i - 1];
        ShiftListed(keys, KeyOf(r[i - 1]), KeyOf(r[j - 1]));
      }
    }
  }

  lemma ShiftListed(keys: seq<InterestKey>, a: InterestKey, b: InterestKey)
    requires |keys| > 0 && ListedBefore(keys[1..], a, b)
    ensures ListedBefore(keys, a, b)
  {
    var p, q :| 0 <= p < q < |keys[1..]| && keys[1..][p] == a && keys[1..][q] == b;
    assert keys[p + 1] == a && keys[q + 1] == b;
  }

  lemma HeadListedFirst(keys: seq<InterestKey>, b: InterestKey)
    requires |keys| > 0 && b in keys[1..]
    ensures ListedBefore(keys, keys[0], b)
  {
    var q :| 0 <= q < |keys[1..]| && keys[1..][q] == b;
    assert keys[q + 1] == b;
  }

  /** `getInterestsOfBuy`: every stored interest whose row key is `buyId`,
      each once, in the order the query returns them: ascending partition
      key (`channel:user`), since the row keys agree. */
  function GetInterestsOfBuy(s: Store, channelId: string, buyId: string): (r: seq<Interest>)
    ensures forall i :: 0 <= i < |r| ==> r[i].buyId == buyId && KeyOf(r[i]) in s.interests && s.interests[KeyOf(r[i])] == r[i]
    ensures forall k :: k in s.interests && k.row == buyId ==> s.interests[k] in r
    ensures forall i, j :: 0 <= i < j < |r| ==> KeyOf(r[i]) != KeyOf(r[j])
    ensures InKeyOrder(s.scan, r)
    ensures forall i, j :: 0 <= i < j < |r| ==> StrLess(KeyOf(r[i]).partition, KeyOf(r[j]).partition)
  {
    CollectKeepsOrder(s.interests, s.scan, buyId);
    var r := Collect(s.interests, s.scan, buyId);
    SameRowInKeyOrder(s.scan, r, buyId);
    r
  }

  /** Records of one row key listed in the order of sorted keys ascend by
      partition key. */
  lemma SameRowInKeyOrder(keys: seq<InterestKey>, r: seq<Interest>, buyId: string)
    requires Sorted(keys) && InKeyOrder(keys, r)
    requires forall i :: 0 <= i < |r| ==> r[i].buyId == buyId
    ensures forall i, j :: 0 <= i < j < |r| ==> StrLess(KeyOf(r[i]).partition, KeyOf(r[j]).partition)
  {
    StrLessIrreflexive(buyId);
    forall i, j | 0 <= i < j < |r| ensures StrLess(KeyOf(r[i]).partition, KeyOf(r[j]).partition) {
      assert ListedBefore(keys, KeyOf(r[i]), KeyOf(r[j]));
      var p, q :| 0 <= p < q < |keys| && keys[p] == KeyOf(r[i]) && keys[q] == KeyOf(r[j]);
      assert KeyLess(keys[p], keys[q]);
    }
  }

  // ---------------------------------------------------------------------
  // Properties relating several calls

  /** The channel argument plays no part in the scan's filter. */
  lemma InterestsOfBuyIgnoresChannel(s: Store, c1: string, c2: string, buyId: string)
    ensures GetInterestsOfBuy(s, c1, buyId) == GetInterestsOfBuy(s, c2, buyId)
  {
  }

  /** Saving twice for the same (channel, user, buy) is the same as saving
      the second values once: upsert is last-write-wins. */
  lemma SaveInterestTwice(s: Store, channelId: string, userId: string, buyId: string,
                          shares1: Number, email1: string, payed1: Option<bool>,
                          shares2: Number, email2: string, payed2: Option<bool>)
    ensures SaveInterest(SaveInterest(s, channelId, userId, buyId, shares1, email1, payed1),
                         channelId, userId, buyId, shares2, email2, payed2)
            == SaveInterest(s, channelId, userId, buyId, shares2, email2, payed2)
  {
    var k := InterestKeyFor(channelId, userId, buyId);
    var rec2 := Interest(shares2, email2, userId, buyId, channelId, payed2);
    var s1 := SaveInterest(s, channelId, userId, buyId, shares1, email1, payed1);
    assert s1.interests[k := rec2] == s.interests[k := rec2];
  }

  /** After two saves for one member and buy, a scan of the buy holds
      exactly one record of that member, carrying the second values. */
  lemma ResaveLeavesOneRecord(s: Store, channelId: string, userId: string, buyId: string,
                              shares1: Number, email1: string, payed1: Option<bool>,
                              shares2: Number, email2: string, payed2: Option<bool>)
    ensures var r := GetInterestsOfBuy(
                SaveInterest(SaveInterest(s, channelId, userId, buyId, shares1, email1, payed1),
                             channelId, userId, buyId, shares2, email2, payed2), channelId, buyId);
            exists i :: 0 <= i < |r| && r[i] == Interest(shares2, email2, userId, buyId, channelId, payed2)
                        && forall j :: 0 <= j < |r| && r[j].channelId == channelId && r[j].userId == userId ==> j == i
  {
    var s2 := SaveInterest(SaveInterest(s, channelId, userId, buyId, shares1, email1, payed1),
                           channelId, userId, buyId, shares2, email2, payed2);
    var r := GetInterestsOfBuy(s2, channelId, buyId);
    var k := InterestKeyFor(channelId, userId, buyId);
    var rec := Interest(shares2, email2, userId, buyId, channelId, payed2);
    assert s2.interests[k] == rec;
    assert rec in r;
    var i :| 0 <= i < |r| && r[i] == rec;
    forall j | 0 <= j < |r| && r[j].channelId == channelId && r[j].userId == userId
      ensures j == i
    {
      assert KeyOf(r[j]) == k == KeyOf(r[i]);
    }
  }

  /** A buy stored with `closed` set reads back as closed, and storing one
      without it reads back as open. */
  lemma SavedClosedFlagIsRead(
    s: Store, channelId: string, userId: string, buyId: string, name: string,
    unitForShares: Unit, shareSize: real, pricePerShare: real,
    description: Option<string>, closed: Option<bool>, closedAt: Option<Instant>,
    paypal: Option<string>, usdcWallet: Option<string>, wiseId: Option<string>)
    ensures var r := SaveBuyEntity(s, channelId, userId, buyId, name, unitForShares, shareSize,
                                   pricePerShare, description, closed, closedAt, paypal, usdcWallet, wiseId);
            IsBuyClosed(r, channelId, buyId) <==> closed == Some(true)
  {
  }
}
