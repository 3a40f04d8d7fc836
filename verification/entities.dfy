/**
 * The two records the bot persists, a Buy (one group purchase) and an
 * Interest (one member's commitment to a buy), with the composite keys
 * they are stored under.
 */
module Entities {
  import opened Wrappers
  import opened Js

  /** The unit a share is measured in: "mg" | "ml" | "unit". */
  datatype Unit = Mg | Ml | Each {
    function Name(): string {
      match this
      case Mg => "mg"
      case Ml => "ml"
      case Each => "unit"
    }
  }

  /** An opaque point in time (`new Date()`). */
  datatype Instant = Instant(millis: int)

  /** A stored buy. Optional fields are `undefined` when absent. */
  datatype Buy = Buy(
    channelId: string,
    buyId: string,
    creatorUserId: string,
    name: string,
    unitForShares: Unit,
    shareSize: real,
    pricePerShare: real,
    description: Option<string>,
    closed: Option<bool>,
    closedAt: Option<Instant>,
    paypal: Option<string>,
    usdcWallet: Option<string>,
    wiseId: Option<string>)

  /** A stored interest of one member in one buy. */
  datatype Interest = Interest(
    shares: Number,
    email: string,
    userId: string,
    buyId: string,
    channelId: string,
    payed: Option<bool>)

  /** A chat user as returned by the platform's user lookup. */
  datatype User = User(id: string, username: string)

  /** Key of the Buys table: partition = channel, row = buy id. */
  datatype BuyKey = BuyKey(channelId: string, buyId: string)

  /** Key of the Interests table: partition = `channel:user`, row = buy id. */
  datatype InterestKey = InterestKey(partition: string, row: string)

  /** The interest partition key, `${channelId}:${userId}`. */
  function PartitionKey(channelId: string, userId: string): string {
    channelId + ":" + userId
  }

  function InterestKeyFor(channelId: string, userId: string, buyId: string): InterestKey {
    InterestKey(PartitionKey(channelId, userId), buyId)
  }

  /** The key an interest record is stored under. */
  function KeyOf(i: Interest): InterestKey {
    InterestKeyFor(i.channelId, i.userId, i.buyId)
  }

  /** The partition key identifies the (channel, user) pair as long as
      channel ids contain no colon. */
  lemma PartitionKeyInjective(c1: string, u1: string, c2: string, u2: string)
    requires ':' !in c1 && ':' !in c2
    requires PartitionKey(c1, u1) == PartitionKey(c2, u2)
    ensures c1 == c2 && u1 == u2
  {
    var p := PartitionKey(c1, u1);
    if |c1| < |c2| {
      ColonAfterChannel(c1, u1);
      assert false;
    } else if |c2| < |c1| {
      ColonAfterChannel(c2, u2);
      assert false;
    } else {
      assert c1 == p[..|c1|] == c2;
      assert u1 == p[|c1| + 1..] == u2;
    }
  }

  /** Within one channel the partition key identifies the user, whatever
      the ids contain. */
  lemma PartitionKeySameChannel(c: string, u1: string, u2: string)
    requires PartitionKey(c, u1) == PartitionKey(c, u2)
    ensures u1 == u2
  {
    var p := PartitionKey(c, u1);
    assert u1 == p[|c| + 1..];
  }

  lemma ColonAfterChannel(c: string, u: string)
    ensures |PartitionKey(c, u)| > |c| && PartitionKey(c, u)[|c|] == ':'
    ensures PartitionKey(c, u)[..|c|] == c
  {
  }

  /** Without that condition two different pairs share a partition key. */
  lemma PartitionKeyCollision()
    ensures PartitionKey("a:b", "c") == PartitionKey("a", "b:c")
  {
  }

  // ---------------------------------------------------------------------
  // Key order

  /** The table service's order on key strings: a proper prefix comes
      first, otherwise the first differing character decides. */
  predicate StrLess(a: string, b: string)
    decreases |a|
  {
    if |a| == 0 then |b| > 0
    else if |b| == 0 then false
    else a[0] < b[0] || (a[0] == b[0] && StrLess(a[1..], b[1..]))
  }

  lemma {:induction false} StrLessIrreflexive(a: string)
    ensures !StrLess(a, a)
    decreases |a|
  {
    if |a| > 0 {
      StrLessIrreflexive(a[1..]);
    }
  }

  lemma {:induction false} StrLessTransitive(a: string, b: string, c: string)
    requires StrLess(a, b) && StrLess(b, c)
    ensures StrLess(a, c)
    decreases |a|
  {
    if |a| > 0 && a[0] == b[0] && b[0] == c[0] {
      StrLessTransitive(a[1..], b[1..], c[1..]);
    }
  }

  lemma {:induction false} StrLessTotal(a: string, b: string)
    requires a != b
    ensures StrLess(a, b) || StrLess(b, a)
    decreases |a|
  {
    if |a| > 0 && |b| > 0 && a[0] == b[0] {
      assert a == [a[0]] + a[1..] && b == [b[0]] + b[1..];
      StrLessTotal(a[1..], b[1..]);
    }
  }

  /** The order in which a query returns table entities: by partition key,
      then by row key. */
  predicate KeyLess(a: InterestKey, b: InterestKey) {
    StrLess(a.partition, b.partition) || (a.partition == b.partition && StrLess(a.row, b.row))
  }

  /** The key order is a strict total order. */
  lemma KeyLessStrictTotal(a: InterestKey, b: InterestKey, c: InterestKey)
    ensures !KeyLess(a, a)
    ensures KeyLess(a, b) && KeyLess(b, c) ==> KeyLess(a, c)
    ensures a != b ==> KeyLess(a, b) || KeyLess(b, a)
  {
    StrLessIrreflexive(a.partition);
    StrLessIrreflexive(a.row);
    if KeyLess(a, b) && KeyLess(b, c) {
      if StrLess(a.partition, b.partition) && StrLess(b.partition, c.partition) {
        StrLessTransitive(a.partition, b.partition, c.partition);
      } else if a.partition == b.partition && b.partition == c.partition {
        StrLessTransitive(a.row, b.row, c.row);
      }
    }
    if a != b {
      if a.partition != b.partition {
        StrLessTotal(a.partition, b.partition);
      } else {
        StrLessTotal(a.row, b.row);
      }
    }
  }
}
