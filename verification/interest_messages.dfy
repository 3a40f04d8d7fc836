/**
 * The payloads of the interest lifecycle: the dialog a member fills in to
 * mark an interest, the confirmation of that interest, the request the
 * organizer receives when a member reports a payment, and the interest list.
 */
module InterestMessages {
  import opened Wrappers
  import opened Js
  import opened Entities
  import opened Storage
  import opened MessageBuilder
  import DialogBuilder
  import opened Platform

  // ---------------------------------------------------------------------
  // The interest dialog

  /** The shares label of the service revision. Buys never carry a
      half-shares flag, so the label for whole shares is always chosen. */
  const WholeSharesLabel: string := "Shares - only full shares allowed"

  const InterestFieldNames: seq<string> := ["shares", "email"]

  /** The interest dialog of both revisions, which differ only in the
      shares label and subtype and in where the state comes from: shares
      default to the existing interest's shares or 1, the email to the
      existing email or "". */
  function InterestDialogWith(sharesLabel: string, sharesSubtype: string, existing: Option<Interest>, state: string)
    : (r: DialogBuilder.Dialog)
    ensures r.callbackId == "interest-dialog" && r.title == "Mark your interest"
    ensures DialogBuilder.ElementNames(r) == InterestFieldNames
    ensures forall i :: 0 <= i < |r.elements| ==>
              r.elements[i].kind == DialogBuilder.TextType && r.elements[i].spec.optional == Some(false)
    ensures r.elements[0].spec.displayName == sharesLabel && r.elements[0].spec.subtype == Some(sharesSubtype)
    ensures r.elements[0].spec.default == Some(Num(if existing.Some? then existing.value.shares else Finite(1.0)))
    ensures r.elements[1].spec.default == Some(Str(if existing.Some? then existing.value.email else ""))
    ensures r.notifyOnCancel == Some(false) && r.submitLabel == Some("Submit")
    ensures r.state == Some(state)
  {
    var shares := if existing.Some? then existing.value.shares else Finite(1.0);
    var email := if existing.Some? then existing.value.email else "";
    var d0 := DialogBuilder.NewDialog("interest-dialog", "Mark your interest");
    var d1 := DialogBuilder.TextElement(d0, DialogBuilder.ElementSpec(
      sharesLabel, "shares", Some(sharesSubtype), Some(false), Some(Num(shares)), None));
    var d2 := DialogBuilder.TextElement(d1, DialogBuilder.ElementSpec(
      "Email", "email", Some("email"), Some(false), Some(Str(email)), None));
    var d := DialogBuilder.State(DialogBuilder.NotifyOnCancel(DialogBuilder.SubmitLabel(d2, "Submit"), false), state);
    assert DialogBuilder.ElementNames(d) == InterestFieldNames;
    DialogBuilder.Build(d)
  }

  /** `InterestService.createInterestDialog`: the state is the buy's id. */
  function InterestDialog(buy: Buy, existing: Option<Interest>): (r: DialogBuilder.Dialog)
    ensures DialogBuilder.ElementNames(r) == InterestFieldNames
    ensures r.elements[0].spec.displayName == WholeSharesLabel
    ensures r.elements[0].spec.default == Some(Num(if existing.Some? then existing.value.shares else Finite(1.0)))
    ensures r.elements[1].spec.default == Some(Str(if existing.Some? then existing.value.email else ""))
    ensures r.state == Some(buy.buyId)
  {
    InterestDialogWith(WholeSharesLabel, "text", existing, buy.buyId)
  }

  /** `createInterestDialog` of the first revision: the existing interest is
      looked up under the post's channel (not the context's), the context's
      buy id and the clicking user; the state is the context's buy id. */
  function LegacyInterestDialog(s: Store, post: PostAction): (r: DialogBuilder.Dialog)
    ensures DialogBuilder.ElementNames(r) == InterestFieldNames
    ensures r.elements[0].spec.displayName == "Shares" && r.elements[0].spec.subtype == Some("number")
    ensures var existing := GetInterestOfUser(s, post.channelId, post.context.buyId, post.userId);
            && r.elements[0].spec.default == Some(Num(if existing.Some? then existing.value.shares else Finite(1.0)))
            && r.elements[1].spec.default == Some(Str(if existing.Some? then existing.value.email else ""))
    ensures r.state == Some(post.context.buyId)
  {
    InterestDialogWith("Shares", "number", GetInterestOfUser(s, post.channelId, post.context.buyId, post.userId),
                       post.context.buyId)
  }

  // ---------------------------------------------------------------------
  // Confirming an interest

  const MarkedLine: string := "You have marked your interest with "
  const EmailLine: string := " shares and email "
  const ComeBackLine: string := "Come back to edit in case you really need to"

  /** `createConfirmationMessage` (both revisions; no handler sends it). Its
      one "Edit" button carries only the interest id, so the interest
      handler cannot read a channel, buy or user id back from it. */
  function InterestConfirmationMessage(shares: string, email: string, interestId: string, userId: string,
                                       channelId: string): (r: Message)
    ensures r.text == Some([Lit(MarkedLine), Str(shares), Lit(EmailLine), Str(email)])
    ensures |AttachmentsOf(r)| == 1 && |ActionsOf(AttachmentsOf(r)[0])| == 1
    ensures var b := ActionsOf(AttachmentsOf(r)[0])[0];
            && b.Type() == "button" && b.id == "edit-interest" && b.url == BotUrl + "/interest"
            && b.context == map["interest_id" := JStr(interestId)]
            && DecodeContext(b.context) == None
    ensures "channel_id" in PropsOf(r) && PropsOf(r)["channel_id"] == JStr(channelId)
    ensures "user_id" in PropsOf(r) && PropsOf(r)["user_id"] == JUndefined
  {
    var attachment := AttachmentText(
      AddButton(NewAttachment, "edit-interest", "Edit", BotUrl + "/interest", map["interest_id" := JStr(interestId)], None),
      [Lit(ComeBackLine)]);
    var m := ChannelId(AddAttachment(
      SetText(NewMessage, [Lit(MarkedLine), Str(shares), Lit(EmailLine), Str(email)]),
      attachment), channelId);
    assert PropsOf(m).Keys == {"channel_id"};
    Build(m)
  }

  // ---------------------------------------------------------------------
  // The payment confirmation request

  const ConfirmationNeededLine: string := "\U{1F389} **Payment Confirmation Needed!** \U{1F389}\n\n**User:** "
  const EmailLabel: string := " USD\n**Email:** "
  const ConfirmPrompt: string := "\n\nPlease confirm the payment by clicking one of the buttons below:"
  const TotalLabel: string := "\n**Total Amount:** "

  /** An interest record as a JSON object (the `interest_id` the payment
      buttons carry). */
  function InterestJson(i: Interest): Json {
    JObject(map["shares" := JNum(i.shares), "email" := JStr(i.email), "userId" := JStr(i.userId),
                "buyId" := JStr(i.buyId), "channelId" := JStr(i.channelId),
                "payed" := if i.payed.Some? then JBool(i.payed.value) else JUndefined])
  }

  /** The context of the confirm and reject buttons. */
  function PaymentDecisionContext(action: string, interest: Interest, buy: Buy, buyer: User, channelId: string)
    : (ctx: map<string, Json>)
    ensures DecodeContext(ctx) == Some(ActionContext(channelId, buy.buyId, buyer.id, None))
    ensures "action" in ctx && ctx["action"] == JStr(action)
  {
    map["action" := JStr(action), "interest_id" := InterestJson(interest), "channel_id" := JStr(channelId),
        "user_id" := JStr(buyer.id), "buy_id" := JStr(buy.buyId)]
  }

  /** The text of the request, with the total of shares times price. */
  function PaymentRequestText(interest: Interest, buy: Buy, buyer: User): (t: Text)
    ensures Follows(t, TotalLabel, Num(Mul(interest.shares, Finite(buy.pricePerShare))))
    ensures Str(buyer.username) in t && Str(interest.email) in t
  {
    var t := [Lit(ConfirmationNeededLine), Str(buyer.username),
              Lit("\n**Shares:** "), Num(interest.shares),
              Lit(TotalLabel), Num(Mul(interest.shares, Finite(buy.pricePerShare))),
              Lit(EmailLabel), Str(interest.email),
              Lit(ConfirmPrompt)];
    assert t[4] == Lit(TotalLabel) && t[5] == Num(Mul(interest.shares, Finite(buy.pricePerShare)));
    assert t[1] == Str(buyer.username) && t[7] == Str(interest.email);
    t
  }

  /** The attachment with the confirm then reject buttons. */
  function DecisionAttachment(interest: Interest, buy: Buy, buyer: User, channelId: string): (a: Attachment)
    ensures |ActionsOf(a)| == 2
    ensures ActionsOf(a)[0].id == "confirmpayment" && ActionsOf(a)[0].url == BotUrl + "/confirm-payment"
    ensures ActionsOf(a)[1].id == "rejectpayment" && ActionsOf(a)[1].url == BotUrl + "/reject-payment"
    ensures forall i :: 0 <= i < 2 ==>
              && ActionsOf(a)[i].Type() == "button"
              && DecodeContext(ActionsOf(a)[i].context) == Some(ActionContext(channelId, buy.buyId, buyer.id, None))
    ensures ActionsOf(a)[0].context["action" := JStr("rejectpayment")] == ActionsOf(a)[1].context
  {
    var a1 := AddButton(NewAttachment, "confirmpayment", "✅ Confirm Payment", BotUrl + "/confirm-payment",
                        PaymentDecisionContext("confirmpayment", interest, buy, buyer, channelId), None);
    var a2 := AddButton(a1, "rejectpayment", "❌ Reject Payment", BotUrl + "/reject-payment",
                        PaymentDecisionContext("rejectpayment", interest, buy, buyer, channelId), None);
    assert ActionsOf(a2)[0] == ActionsOf(a1)[0];
    a2
  }

  /** `createPaymentConfirmationMessage`: the organizer's request to confirm
      or reject a reported payment. The service revision passes the
      interest's own channel as `channelId`, the first revision the
      channel of the click's context. */
  function PaymentConfirmationMessage(interest: Interest, buy: Buy, buyer: User, channelId: string): (r: Message)
    ensures r.text.Some?
    ensures Follows(r.text.value, TotalLabel, Num(Mul(interest.shares, Finite(buy.pricePerShare))))
    ensures |AttachmentsOf(r)| == 1
    ensures var acts := ActionsOf(AttachmentsOf(r)[0]);
            && |acts| == 2
            && acts[0].id == "confirmpayment" && acts[0].url == BotUrl + "/confirm-payment"
            && acts[1].id == "rejectpayment" && acts[1].url == BotUrl + "/reject-payment"
            && DecodeContext(acts[0].context) == Some(ActionContext(channelId, buy.buyId, buyer.id, None))
            && DecodeContext(acts[1].context) == Some(ActionContext(channelId, buy.buyId, buyer.id, None))
  {
    Build(AddAttachment(SetText(NewMessage, PaymentRequestText(interest, buy, buyer)),
                        DecisionAttachment(interest, buy, buyer, channelId)))
  }

  /** The acknowledgement the member who reported a payment receives. */
  const PaymentReportedThanks: Text := [Lit("Thank you! The organizer will soon approve your payment. Stay tuned!")]

  // ---------------------------------------------------------------------
  // The interest list

  const ListHeader: string := "|Username|Shares|Email|Payed|\n|---|---|---|\n"

  /** One table row, `|username|shares|email|mark|`, the mark being "x"
      exactly for a paid interest. */
  function InterestRow(username: string, i: Interest): (t: Text)
    ensures |t| == 9 && t[1] == Str(username) && t[3] == Num(i.shares) && t[5] == Str(i.email)
    ensures t[7] == Lit("x") <==> IsTrue(i.payed)
    ensures LineBreak !in t
  {
    [Lit("|"), Str(username), Lit("|"), Num(i.shares), Lit("|"), Str(i.email), Lit("|"),
     Lit(if IsTrue(i.payed) then "x" else ""), Lit("|")]
  }

  /** The rows of the listed interests, in list order; absent when a user
      lookup fails (the whole `Promise.all` rejects). */
  function Rows(users: Directory, interests: seq<Interest>): (r: Option<seq<Text>>)
    ensures r.Some? <==> forall i :: 0 <= i < |interests| ==> interests[i].userId in users
    ensures r.Some? ==> |r.value| == |interests|
                        && forall i :: 0 <= i < |interests| ==>
                             r.value[i] == InterestRow(users[interests[i].userId], interests[i])
  {
    if |interests| == 0 then Some([])
    else
      var first := interests[0];
      match Rows(users, interests[1..])
      case None => None
      case Some(rest) =>
        if first.userId in users then Some([InterestRow(users[first.userId], first)] + rest) else None
  }

  const LineBreak: Piece := Lit("\n")

  /** `rows.join("\n")`. */
  function Join(rows: seq<Text>): Text
    decreases |rows|
  {
    if |rows| == 0 then []
    else if |rows| == 1 then rows[0]
    else rows[0] + [LineBreak] + Join(rows[1..])
  }

  /** `t.split("\n")` over pieces: the runs of pieces between line breaks. */
  function SplitLines(t: Text): (r: seq<Text>)
    ensures |r| >= 1
  {
    if |t| == 0 then [[]]
    else
      var rest := SplitLines(t[1..]);
      if t[0] == LineBreak then [[]] + rest else [[t[0]] + rest[0]] + rest[1..]
  }

  /** Splitting one piece in front of `t`: a line break starts a new
      line, any other piece joins the first line. */
  lemma SplitCons(x: Piece, t: Text)
    ensures SplitLines([x] + t)
            == if x == LineBreak then [[]] + SplitLines(t) else [[x] + SplitLines(t)[0]] + SplitLines(t)[1..]
  {
    assert ([x] + t)[0] == x && ([x] + t)[1..] == t;
  }

  /** A run without a line break stays within the first line. */
  lemma {:induction false} SplitRun(a: Text, b: Text)
    requires LineBreak !in a
    ensures SplitLines(a + b) == [a + SplitLines(b)[0]] + SplitLines(b)[1..]
  {
    var sb := SplitLines(b);
    if |a| == 0 {
      assert a + b == b;
      assert [] + sb[0] == sb[0];
    } else {
      var x, tl := a[0], a[1..];
      assert x != LineBreak by { assert x in a; }
      assert a + b == [x] + (tl + b) by { assert a == [x] + tl; }
      SplitRun(tl, b);
      SplitCons(x, tl + b);
      ConsFirstLine(x, tl, sb, SplitLines(tl + b));
      assert [x] + tl == a;
    }
  }

  /** Putting `x` in front of a split whose first line starts with `tl`. */
  lemma ConsFirstLine(x: Piece, tl: Text, sb: seq<Text>, rest: seq<Text>)
    requires |sb| >= 1 && rest == [tl + sb[0]] + sb[1..]
    ensures [[x] + rest[0]] + rest[1..] == [([x] + tl) + sb[0]] + sb[1..]
  {
    assert rest[0] == tl + sb[0] && rest[1..] == sb[1..];
    assert [x] + (tl + sb[0]) == ([x] + tl) + sb[0];
  }

  /** Splitting the joined rows at line breaks gives the rows back, as
      long as there is a row and no row holds a line break. */
  lemma {:induction false} SplitJoin(rows: seq<Text>)
    requires |rows| > 0
    requires forall i :: 0 <= i < |rows| ==> LineBreak !in rows[i]
    ensures SplitLines(Join(rows)) == rows
    decreases |rows|
  {
    if |rows| == 1 {
      SplitRun(rows[0], []);
      assert rows[0] + [] == rows[0];
    } else {
      var tail := Join(rows[1..]);
      assert Join(rows) == rows[0] + [LineBreak] + tail;
      assert LineBreak !in rows[0];
      SplitJoin(rows[1..]);
      assert ([LineBreak] + tail)[1..] == tail;
      assert SplitLines([LineBreak] + tail) == [[]] + rows[1..];
      SplitRun(rows[0], [LineBreak] + tail);
      assert rows[0] + [LineBreak] + tail == rows[0] + ([LineBreak] + tail);
      assert rows[0] + [] == rows[0];
      assert rows == [rows[0]] + rows[1..];
    }
  }

  /** Every row appears intact in the joined text. */
  lemma {:induction false} JoinKeepsRows(rows: seq<Text>, i: int)
    requires 0 <= i < |rows|
    ensures Contains(Join(rows), rows[i])
    decreases |rows|
  {
    if |rows| == 1 {
      assert Window(Join(rows), 0, |rows[0]|) == rows[0];
    } else if i == 0 {
      assert Window(Join(rows), 0, |rows[0]|) == rows[0];
    } else {
      JoinKeepsRows(rows[1..], i - 1);
      ContainsAppend(rows[0] + [LineBreak], Join(rows[1..]), rows[i]);
    }
  }

  /** The list: the fixed header followed by the rows, each row intact. */
  function InterestTable(rows: seq<Text>): (t: Text)
    ensures |t| >= 1 && t[0] == Lit(ListHeader) && t[1..] == Join(rows)
    ensures forall i :: 0 <= i < |rows| ==> Contains(t, rows[i])
    ensures |rows| == 0 ==> t == [Lit(ListHeader)]
    ensures |rows| > 0 && (forall i :: 0 <= i < |rows| ==> LineBreak !in rows[i]) ==> SplitLines(t[1..]) == rows
  {
    var t := [Lit(ListHeader)] + Join(rows);
    assert forall i :: 0 <= i < |rows| ==> Contains(t, rows[i]) by {
      forall i | 0 <= i < |rows| ensures Contains(t, rows[i]) {
        JoinKeepsRows(rows, i);
        ContainsAppend([Lit(ListHeader)], Join(rows), rows[i]);
      }
    }
    if |rows| > 0 && (forall i :: 0 <= i < |rows| ==> LineBreak !in rows[i]) then
      SplitJoin(rows);
      t
    else t
  }

  /** The table of the rows of `xs`: the header, then one line per
      interest, in list order. */
  lemma TableOfRows(users: Directory, xs: seq<Interest>, rows: seq<Text>)
    requires Rows(users, xs) == Some(rows)
    ensures forall i :: 0 <= i < |xs| ==> xs[i].userId in users
    ensures var t := InterestTable(rows);
            && (forall i :: 0 <= i < |xs| ==> Contains(t, InterestRow(users[xs[i].userId], xs[i])))
            && (|xs| == 0 ==> t == [Lit(ListHeader)])
            && (|xs| > 0 ==>
                  var lines := SplitLines(t[1..]);
                  && |lines| == |xs|
                  && forall i :: 0 <= i < |xs| ==> lines[i] == InterestRow(users[xs[i].userId], xs[i]))
  {
    assert forall i :: 0 <= i < |rows| ==> LineBreak !in rows[i];
  }
}
