/**
 * The "state" string a dialog carries back to its submission handler. The
 * bot writes it with `JSON.stringify` of a small flat object of string
 * identifiers and reads it back with `JSON.parse`. This module models both
 * directions for flat objects whose keys and values are plain strings (no
 * quote and no backslash, so no escaping is involved), and proves that
 * what the dialogs write is read back unchanged.
 */
module StateToken {
  import opened Wrappers
  import opened Js

  /** A string that `JSON.stringify` copies verbatim between its quotes. */
  predicate Plain(s: string) {
    forall i :: 0 <= i < |s| ==> s[i] != '"' && s[i] != '\\'
  }

  predicate AllPlain(ps: seq<(string, string)>) {
    forall i :: 0 <= i < |ps| ==> Plain(ps[i].0) && Plain(ps[i].1)
  }

  function Quote(s: string): string {
    "\"" + s + "\""
  }

  function Member(k: string, v: string): string {
    Quote(k) + ":" + Quote(v)
  }

  function Members(ps: seq<(string, string)>): string {
    if |ps| == 0 then ""
    else if |ps| == 1 then Member(ps[0].0, ps[0].1)
    else Member(ps[0].0, ps[0].1) + "," + Members(ps[1..])
  }

  /** `JSON.stringify` of an object whose (defined) properties, in insertion
      order, are the given string-valued pairs. */
  function Stringify(ps: seq<(string, string)>): string {
    "{" + Members(ps) + "}"
  }

  /** Index of the first quote or backslash in `s`, or `|s|`. */
  function StringEnd(s: string): (n: nat)
    ensures n <= |s|
    ensures n < |s| ==> s[n] == '"' || s[n] == '\\'
  {
    if |s| == 0 || s[0] == '"' || s[0] == '\\' then 0 else 1 + StringEnd(s[1..])
  }

  /** Reads one quoted plain string at the front of `s`, returning its
      contents and what follows the closing quote. */
  function ParseString(s: string): (r: Option<(string, string)>)
    ensures r.Some? ==> |r.value.1| < |s|
  {
    if |s| == 0 || s[0] != '"' then None
    else
      var n := StringEnd(s[1..]);
      if n < |s| - 1 && s[1 + n] == '"' then Some((s[1..1 + n], s[2 + n..])) else None
  }

  /** Reads one `"k":"v"` member at the front of `s`, returning the pair and
      what follows it. */
  function ParseMember(s: string): (r: Option<((string, string), string)>)
    ensures r.Some? ==> |r.value.1| < |s|
  {
    match ParseString(s)
    case None => None
    case Some((k, r1)) =>
      if |r1| == 0 || r1[0] != ':' then None
      else
        match ParseString(r1[1..])
        case None => None
        case Some((v, r2)) => Some(((k, v), r2))
  }

  /** Reads members separated by commas up to the closing brace, which must
      end the input. */
  function ParseMembers(s: string): Option<seq<(string, string)>>
    decreases |s|
  {
    match ParseMember(s)
    case None => None
    case Some((kv, r)) =>
      if r == "}" then Some([kv])
      else if |r| > 0 && r[0] == ',' then
        match ParseMembers(r[1..])
        case None => None
        case Some(rest) => Some([kv] + rest)
      else None
  }

  function ParseObject(s: string): Option<seq<(string, string)>> {
    if s == "{}" then Some([])
    else if |s| > 0 && s[0] == '{' then ParseMembers(s[1..])
    else None
  }

  /** The object a member list denotes: a later duplicate key wins. */
  function ToObject(ps: seq<(string, string)>): map<string, string> {
    if |ps| == 0 then map[]
    else ToObject(ps[..|ps| - 1])[ps[|ps| - 1].0 := ps[|ps| - 1].1]
  }

  /** `JSON.parse` of a state string. `None` stands for the exception
      `JSON.parse` throws; input outside the flat plain-string format is
      treated the same way. */
  function Parse(s: string): Option<map<string, string>> {
    match ParseObject(s)
    case None => None
    case Some(ps) => Some(ToObject(ps))
  }

  lemma {:induction false} StringEndOfPlain(x: string, t: string)
    requires Plain(x) && |t| > 0 && t[0] == '"'
    ensures StringEnd(x + t) == |x|
  {
    if |x| > 0 {
      assert (x + t)[1..] == x[1..] + t;
      StringEndOfPlain(x[1..], t);
    } else {
      assert x + t == t;
    }
  }

  lemma ParseStringQuote(x: string, rest: string)
    requires Plain(x)
    ensures ParseString(Quote(x) + rest) == Some((x, rest))
  {
    var s := Quote(x) + rest;
    assert s[1..] == x + ("\"" + rest);
    StringEndOfPlain(x, "\"" + rest);
    assert s[1..1 + |x|] == x;
    assert s[2 + |x|..] == rest;
  }

  lemma ParseMemberFront(k: string, v: string, rest: string)
    requires Plain(k) && Plain(v)
    ensures ParseMember(Member(k, v) + rest) == Some(((k, v), rest))
  {
    var r1 := ":" + Quote(v) + rest;
    assert Member(k, v) + rest == Quote(k) + r1;
    ParseStringQuote(k, r1);
    assert r1[1..] == Quote(v) + rest;
    ParseStringQuote(v, rest);
  }

  /** One member in front of a comma and a parsable rest parses to that
      member followed by the rest's members. */
  lemma ParseMembersCons(k: string, v: string, rest: string, ps: seq<(string, string)>)
    requires Plain(k) && Plain(v) && ParseMembers(rest) == Some(ps)
    ensures ParseMembers(Member(k, v) + ("," + rest)) == Some([(k, v)] + ps)
  {
    ParseMemberFront(k, v, "," + rest);
    assert ("," + rest)[1..] == rest;
    assert ("," + rest) != "}" by { assert ("," + rest)[0] == ','; }
  }

  lemma {:induction false} MembersRoundTrip(ps: seq<(string, string)>)
    requires |ps| > 0 && AllPlain(ps)
    ensures ParseMembers(Members(ps) + "}") == Some(ps)
  {
    if |ps| == 1 {
      MembersOne(ps[0]);
      assert [ps[0]] == ps;
    } else {
      var head, tail := ps[0], ps[1..];
      assert Plain(head.0) && Plain(head.1);
      AllPlainTail(ps);
      MembersRoundTrip(tail);
      MembersSplit(ps);
      ParseMembersCons(head.0, head.1, Members(tail) + "}", tail);
      HeadTail(ps);
    }
  }

  lemma HeadTail(ps: seq<(string, string)>)
    requires |ps| > 0
    ensures [(ps[0].0, ps[0].1)] + ps[1..] == ps
  {
  }

  lemma MembersOne(kv: (string, string))
    requires Plain(kv.0) && Plain(kv.1)
    ensures ParseMembers(Members([kv]) + "}") == Some([kv])
  {
    ParseMemberFront(kv.0, kv.1, "}");
  }

  lemma AllPlainTail(ps: seq<(string, string)>)
    requires |ps| > 0 && AllPlain(ps)
    ensures AllPlain(ps[1..])
  {
    forall i | 0 <= i < |ps[1..]| ensures Plain(ps[1..][i].0) && Plain(ps[1..][i].1) {
      assert ps[1..][i] == ps[i + 1];
    }
  }

  lemma MembersSplit(ps: seq<(string, string)>)
    requires |ps| > 1
    ensures Members(ps) + "}" == Member(ps[0].0, ps[0].1) + ("," + (Members(ps[1..]) + "}"))
  {
    Regroup(Member(ps[0].0, ps[0].1), ",", Members(ps[1..]), "}");
  }

  lemma Regroup(a: string, b: string, c: string, d: string)
    ensures (a + b + c) + d == a + (b + (c + d))
  {
  }

  lemma ToObjectOne(a: (string, string))
    ensures ToObject([a]) == map[a.0 := a.1]
  {
    assert [a][..0] == [];
  }

  lemma ToObjectTwo(a: (string, string), b: (string, string))
    ensures ToObject([a, b]) == map[a.0 := a.1][b.0 := b.1]
  {
    assert [a, b][..1] == [a];
    ToObjectOne(a);
  }

  /** Parsing what `Stringify` wrote gives back the same members. */
  lemma StringifyRoundTrip(ps: seq<(string, string)>)
    requires AllPlain(ps)
    ensures ParseObject(Stringify(ps)) == Some(ps)
  {
    if |ps| > 0 {
      var s := Stringify(ps);
      assert |Members(ps)| > 0;
      assert s != "{}" by { assert |s| > 2; }
      assert s[1..] == Members(ps) + "}";
      MembersRoundTrip(ps);
    }
  }

  // ---------------------------------------------------------------------
  // The two state shapes the bot writes

  /** `JSON.stringify({ channel_id, buy_id })` as the buy dialog writes it:
      an undefined `buy_id` is omitted. */
  function BuyState(channelId: string, buyId: Option<string>): string {
    Stringify([("channel_id", channelId)] + (if buyId.Some? then [("buy_id", buyId.value)] else []))
  }

  /** `JSON.stringify({ buy_id, channel_id })` as the payment details dialog
      writes it. */
  function PaymentState(channelId: string, buyId: string): string {
    Stringify([("buy_id", buyId), ("channel_id", channelId)])
  }

  /** The buy dialog's state parses back to its channel and, exactly when
      one was given, its buy id. */
  lemma BuyStateRoundTrip(channelId: string, buyId: Option<string>)
    requires Plain(channelId) && (buyId.Some? ==> Plain(buyId.value))
    ensures Parse(BuyState(channelId, buyId)).Some?
    ensures var m := Parse(BuyState(channelId, buyId)).value;
            && "channel_id" in m && m["channel_id"] == channelId
            && ("buy_id" in m <==> buyId.Some?)
            && (buyId.Some? ==> m["buy_id"] == buyId.value)
  {
    var ps := [("channel_id", channelId)] + (if buyId.Some? then [("buy_id", buyId.value)] else []);
    StringifyRoundTrip(ps);
    if buyId.Some? {
      assert ps == [("channel_id", channelId), ("buy_id", buyId.value)];
      ToObjectTwo(("channel_id", channelId), ("buy_id", buyId.value));
    } else {
      assert ps == [("channel_id", channelId)];
      ToObjectOne(("channel_id", channelId));
    }
  }

  /** The payment details dialog's state parses back to its two ids. */
  lemma PaymentStateRoundTrip(channelId: string, buyId: string)
    requires Plain(channelId) && Plain(buyId)
    ensures Parse(PaymentState(channelId, buyId)) == Some(map["buy_id" := buyId, "channel_id" := channelId])
  {
    var ps := [("buy_id", buyId), ("channel_id", channelId)];
    assert AllPlain(ps) by { assert ps[0].1 == buyId && ps[1].1 == channelId; }
    StringifyRoundTrip(ps);
    ToObjectTwo(("buy_id", buyId), ("channel_id", channelId));
    assert Parse(Stringify(ps)) == Some(ToObject(ps));
  }

  // ---------------------------------------------------------------------
  // Lower-casing a state before parsing it

  function LowerValues(ps: seq<(string, string)>): (r: seq<(string, string)>)
    ensures |r| == |ps|
    ensures forall i :: 0 <= i < |ps| ==> r[i] == (ps[i].0, ToLower(ps[i].1))
  {
    if |ps| == 0 then [] else [(ps[0].0, ToLower(ps[0].1))] + LowerValues(ps[1..])
  }

  lemma LowerQuote(x: string)
    ensures ToLower(Quote(x)) == Quote(ToLower(x))
  {
    ToLowerConcat("\"" + x, "\"");
    ToLowerConcat("\"", x);
    assert ToLower("\"") == "\"";
  }

  lemma LowerMember(k: string, v: string)
    requires NoUpper(k)
    ensures ToLower(Member(k, v)) == Member(k, ToLower(v))
  {
    ToLowerConcat(Quote(k) + ":", Quote(v));
    ToLowerConcat(Quote(k), ":");
    LowerQuote(k);
    LowerQuote(v);
    ToLowerIdentity(k);
    assert ToLower(":") == ":";
  }

  lemma {:induction false} LowerMembers(ps: seq<(string, string)>)
    requires forall i :: 0 <= i < |ps| ==> NoUpper(ps[i].0)
    ensures ToLower(Members(ps)) == Members(LowerValues(ps))
  {
    if |ps| == 1 {
      LowerMember(ps[0].0, ps[0].1);
    } else if |ps| > 1 {
      LowerMember(ps[0].0, ps[0].1);
      LowerMembers(ps[1..]);
      ToLowerConcat(Member(ps[0].0, ps[0].1) + ",", Members(ps[1..]));
      ToLowerConcat(Member(ps[0].0, ps[0].1), ",");
      assert ToLower(",") == ",";
      assert LowerValues(ps)[1..] == LowerValues(ps[1..]);
    }
  }

  lemma LowerPlain(s: string)
    requires Plain(s)
    ensures Plain(ToLower(s))
  {
  }

  /** Lower-casing the payment details state before parsing it, as the
      close confirmation does, yields the lower-cased ids. */
  lemma LowercasedPaymentState(channelId: string, buyId: string)
    requires Plain(channelId) && Plain(buyId)
    ensures Parse(ToLower(PaymentState(channelId, buyId)))
            == Some(map["buy_id" := ToLower(buyId), "channel_id" := ToLower(channelId)])
  {
    var ps := [("buy_id", buyId), ("channel_id", channelId)];
    assert NoUpper("buy_id") && NoUpper("channel_id");
    LowerMembers(ps);
    ToLowerConcat("{" + Members(ps), "}");
    ToLowerConcat("{", Members(ps));
    assert ToLower("{") == "{" && ToLower("}") == "}";
    assert LowerValues(ps) == [("buy_id", ToLower(buyId)), ("channel_id", ToLower(channelId))];
    LowerPlain(buyId);
    LowerPlain(channelId);
    PaymentStateRoundTrip(ToLower(channelId), ToLower(buyId));
  }

  /** The ids come back unchanged exactly when neither has an upper case
      letter. */
  lemma LowercasedPaymentStateFaithful(channelId: string, buyId: string)
    requires Plain(channelId) && Plain(buyId)
    ensures Parse(ToLower(PaymentState(channelId, buyId)))
              == Some(map["buy_id" := buyId, "channel_id" := channelId])
            <==> NoUpper(channelId) && NoUpper(buyId)
  {
    LowercasedPaymentState(channelId, buyId);
    ToLowerIdentity(channelId);
    ToLowerIdentity(buyId);
    var m1 := map["buy_id" := ToLower(buyId), "channel_id" := ToLower(channelId)];
    var m2 := map["buy_id" := buyId, "channel_id" := channelId];
    if m1 == m2 {
      assert m1["buy_id"] == m2["buy_id"];
      assert m1["channel_id"] == m2["channel_id"];
    }
  }
}
