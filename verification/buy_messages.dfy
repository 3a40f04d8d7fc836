/**
 * The payloads of the buy lifecycle: the dialogs that create, edit and
 * close a buy, the messages announcing a new buy and offering its
 * management buttons, and the payment message each interested member
 * receives once the buy is closed.
 */
module BuyMessages {
  import opened Wrappers
  import opened Js
  import opened Entities
  import opened StateToken
  import opened MessageBuilder
  import DialogBuilder
  import opened Storage
  import opened Platform

  // ---------------------------------------------------------------------
  // Announcing a new buy

  const CreatedLine: string := " successfully created a buy: **\""
  const OwnCreatedLine: string := "\U{1F389} You successfully created a buy: **\""
  const TitleEnd: string := "\"** \U{1F389}\n\n"
  const ShareSizeLabel: string := "**Share size:** "
  const PriceLabel: string := "**Price per share:** "
  const UsdLine: string := " USD\n\n"
  const InterestQuestion: string := "Are you interested?"
  const InterestHint: string := "Click on 'Yes' to mark your interest or 'Create List' to see who else is interested."
  const ClosedLine: string := "** is closed now. You will receive individual payment messages."
  const DescriptionLabel: string := "**Description:** "
  const InterestCall: string := "Are you interested? Click on the buttons below to engage!"
  const ManageCall: string := "You can manage your buy by clicking on the buttons below."

  /** The description paragraph, present only for a truthy description. */
  function DescriptionPart(description: Option<string>): Text {
    if Truthy(description) then [Lit(DescriptionLabel), Str(description.value), Lit("\n\n")] else []
  }

  /** The share size and price lines. */
  function TermsPart(form: BuyForm): Text {
    [Lit(ShareSizeLabel), Num(Finite(form.shareSize)), Lit(" "), Str(form.unitForShares.Name()), Lit("\n"),
     Lit(PriceLabel), Num(Finite(form.pricePerShare)), Lit(UsdLine)]
  }

  /** The context of every button about a newly saved buy; it decodes to
      the submitter, channel and buy it was built from. */
  function BuyButtonContext(action: string, sub: Submission<BuyForm>, buyId: string): (ctx: map<string, Json>)
    ensures DecodeContext(ctx) == Some(ActionContext(sub.channelId, buyId, sub.userId, None))
    ensures "team_id" in ctx && ctx["team_id"] == JStr(sub.teamId)
  {
    map["action" := JStr(action), "team_id" := JStr(sub.teamId), "channel_id" := JStr(sub.channelId),
        "user_id" := JStr(sub.userId), "buy_id" := JStr(buyId)]
  }

  /** A button built from `BuyButtonContext`. */
  predicate IsBuyButton(b: Action, id: string, path: string, sub: Submission<BuyForm>, buyId: string) {
    && b.Type() == "button" && b.id == id && b.url == BotUrl + path
    && DecodeContext(b.context) == Some(ActionContext(sub.channelId, buyId, sub.userId, None))
    && "team_id" in b.context && b.context["team_id"] == JStr(sub.teamId)
  }

  /** The props `fromPayload(submission)` leaves on a built message. */
  predicate PropsFromSubmission(m: Message, sub: Submission<BuyForm>) {
    && PropsOf(m).Keys == PayloadKeys
    && PropsOf(m)["channel_id"] == JStr(sub.channelId)
    && PropsOf(m)["user_id"] == JStr(sub.userId)
    && PropsOf(m)["team_id"] == JStr(sub.teamId)
  }

  /** A text with the description paragraph in the middle mentions the
      description label exactly when the description is truthy. */
  lemma DescriptionPresence(pre: Text, description: Option<string>, post: Text)
    requires Lit(DescriptionLabel) !in pre && Lit(DescriptionLabel) !in post
    ensures Lit(DescriptionLabel) in pre + DescriptionPart(description) + post <==> Truthy(description)
  {
    var t := pre + DescriptionPart(description) + post;
    if Truthy(description) {
      assert t[|pre|] == Lit(DescriptionLabel);
    } else {
      assert t == pre + post;
    }
  }

  /** The shape both messages about a saved buy share: built from the
      submission's payload, with one text and one attachment. */
  function SubmissionMessage(sub: Submission<BuyForm>, t: Text, a: Attachment): (r: Message)
    ensures r.text == Some(t) && AttachmentsOf(r) == [a]
    ensures PropsFromSubmission(r, sub)
  {
    var m := FromPayload(NewMessage, SubmissionPayload(sub));
    assert PropsOf(m).Keys == PayloadKeys;
    Build(AddAttachment(SetText(m, t), a))
  }

  /** The text of the channel announcement of a saved buy. */
  function AnnouncementText(form: BuyForm, username: string): (t: Text)
    ensures Lit(DescriptionLabel) in t <==> Truthy(form.buyDescription)
    ensures Str(form.buyName) in t
  {
    var pre := [Lit("\U{1F389} "), Str(username), Lit(CreatedLine), Str(form.buyName),
                Lit(TitleEnd)];
    var post := TermsPart(form) + [Lit(InterestCall)];
    DescriptionPresence(pre, form.buyDescription, post);
    assert pre[3] == Str(form.buyName);
    pre + DescriptionPart(form.buyDescription) + post
  }

  /** The attachment of the announcement: one "interest" button. */
  function InterestAttachment(sub: Submission<BuyForm>, buyId: string): (a: Attachment)
    ensures |ActionsOf(a)| == 1 && IsBuyButton(ActionsOf(a)[0], "interest", "/interest", sub, buyId)
  {
    AddButton(
      Pretext(AttachmentText(NewAttachment, [Lit(InterestQuestion)]),
              [Lit(InterestHint)]),
      "interest", "Yes", BotUrl + "/interest", BuyButtonContext("interested", sub, buyId), None)
  }

  /** `createSaveBuyConfirmationMessage`: the channel announcement of a saved
      buy with a single "interest" button. */
  function SaveBuyConfirmationMessage(sub: Submission<BuyForm>, username: string, buyId: string): (r: Message)
    ensures r.text.Some? && (Lit(DescriptionLabel) in r.text.value <==> Truthy(sub.form.buyDescription))
    ensures |AttachmentsOf(r)| == 1 && |ActionsOf(AttachmentsOf(r)[0])| == 1
    ensures IsBuyButton(ActionsOf(AttachmentsOf(r)[0])[0], "interest", "/interest", sub, buyId)
    ensures PropsFromSubmission(r, sub)
  {
    var a := InterestAttachment(sub, buyId);
    var r := SubmissionMessage(sub, AnnouncementText(sub.form, username), a);
    assert AttachmentsOf(r)[0] == a;
    r
  }

  /** The text of the creator's management panel. */
  function ManageText(form: BuyForm): (t: Text)
    ensures Lit(DescriptionLabel) in t <==> Truthy(form.buyDescription)
    ensures Str(form.buyName) in t
  {
    var pre := [Lit(OwnCreatedLine), Str(form.buyName), Lit(TitleEnd)];
    var post := TermsPart(form) + [Lit(ManageCall)];
    DescriptionPresence(pre, form.buyDescription, post);
    assert pre[1] == Str(form.buyName);
    pre + DescriptionPart(form.buyDescription) + post
  }

  /** The panel's attachment: edit, list, close and remind buttons. */
  function ManageAttachment(sub: Submission<BuyForm>, buyId: string): (a: Attachment)
    ensures var acts := ActionsOf(a);
            && |acts| == 4
            && IsBuyButton(acts[0], "buyedit", "/edit-buy", sub, buyId)
            && IsBuyButton(acts[1], "interestlist", "/interestlist", sub, buyId)
            && IsBuyButton(acts[2], "buyclose", "/close-buy", sub, buyId)
            && IsBuyButton(acts[3], "remindpayment", "/remind-payment", sub, buyId)
  {
    var a0 := AttachmentText(NewAttachment, [Lit("Manage?")]);
    var a1 := AddButton(a0, "buyedit", "Edit", BotUrl + "/edit-buy", BuyButtonContext("buyedit", sub, buyId), None);
    var a2 := AddButton(a1, "interestlist", "List interested", BotUrl + "/interestlist",
                        BuyButtonContext("interestlist", sub, buyId), None);
    assert ActionsOf(a2)[0] == ActionsOf(a1)[0];
    var a3 := AddButton(a2, "buyclose", "Close", BotUrl + "/close-buy", BuyButtonContext("buyclose", sub, buyId), None);
    assert ActionsOf(a3)[..2] == ActionsOf(a2);
    var a4 := AddButton(a3, "remindpayment", "Remind Payment", BotUrl + "/remind-payment",
                        BuyButtonContext("remindpayment", sub, buyId), None);
    assert ActionsOf(a4)[..3] == ActionsOf(a3);
    a4
  }

  /** `createManageMessage`: the creator's private panel with four buttons
      (edit, list interested, close, remind payment), all about one buy. */
  function ManageMessage(sub: Submission<BuyForm>, buyId: string): (r: Message)
    ensures r.text.Some? && (Lit(DescriptionLabel) in r.text.value <==> Truthy(sub.form.buyDescription))
    ensures |AttachmentsOf(r)| == 1
    ensures var acts := ActionsOf(AttachmentsOf(r)[0]);
            && |acts| == 4
            && IsBuyButton(acts[0], "buyedit", "/edit-buy", sub, buyId)
            && IsBuyButton(acts[1], "interestlist", "/interestlist", sub, buyId)
            && IsBuyButton(acts[2], "buyclose", "/close-buy", sub, buyId)
            && IsBuyButton(acts[3], "remindpayment", "/remind-payment", sub, buyId)
    ensures PropsFromSubmission(r, sub)
  {
    SubmissionMessage(sub, ManageText(sub.form), ManageAttachment(sub, buyId))
  }

  // ---------------------------------------------------------------------
  // Dialogs

  const UnitOptions: seq<DialogBuilder.SelectOption> :=
    [DialogBuilder.SelectOption("mg", "mg"), DialogBuilder.SelectOption("ml", "ml"),
     DialogBuilder.SelectOption("unit", "unit")]

  const BuyFieldNames: seq<string> :=
    ["buy_name", "buy_description", "unit_for_shares", "share_size", "price_per_share"]

  /** The buy dialog's five elements, pre-filled from `buy` when there is
      one: name, description, unit (a select over `UnitOptions`), share
      size and price. */
  function BuyElements(buy: Option<Buy>): (r: DialogBuilder.Dialog)
    ensures r.callbackId == "create-buy-dialog"
    ensures DialogBuilder.ElementNames(r) == BuyFieldNames
    ensures r.elements[2].kind == DialogBuilder.SelectType && r.elements[2].spec.options == Some(UnitOptions)
    ensures forall i :: 0 <= i < |r.elements| && i != 2 ==> r.elements[i].kind == DialogBuilder.TextType
    ensures buy.None? ==> forall i :: 0 <= i < |r.elements| ==> r.elements[i].spec.default.None?
    ensures buy.Some? ==>
              && r.elements[0].spec.default == Some(Str(buy.value.name))
              && r.elements[1].spec.default == (if buy.value.description.Some? then Some(Str(buy.value.description.value)) else None)
              && r.elements[2].spec.default == Some(Str(buy.value.unitForShares.Name()))
              && r.elements[3].spec.default == Some(Num(Finite(buy.value.shareSize)))
              && r.elements[4].spec.default == Some(Num(Finite(buy.value.pricePerShare)))
  {
    var b := buy;
    var d0 := DialogBuilder.NewDialog("create-buy-dialog", "Create a Buy");
    var d1 := DialogBuilder.TextElement(d0, DialogBuilder.ElementSpec(
      "Name of the Buy", "buy_name", Some("text"), Some(false),
      if b.Some? then Some(Str(b.value.name)) else None, None));
    var d2 := DialogBuilder.TextElement(d1, DialogBuilder.ElementSpec(
      "Description of the Buy", "buy_description", Some("text"), Some(true),
      if b.Some? && b.value.description.Some? then Some(Str(b.value.description.value)) else None, None));
    var d3 := DialogBuilder.SelectElement(d2, DialogBuilder.ElementSpec(
      "Unit for Shares", "unit_for_shares", None, Some(false),
      if b.Some? then Some(Str(b.value.unitForShares.Name())) else None, Some(UnitOptions)));
    var d4 := DialogBuilder.TextElement(d3, DialogBuilder.ElementSpec(
      "Share Size", "share_size", Some("number"), Some(false),
      if b.Some? then Some(Num(Finite(b.value.shareSize))) else None, None));
    var d5 := DialogBuilder.TextElement(d4, DialogBuilder.ElementSpec(
      "Price per Share in USD", "price_per_share", Some("number"), Some(false),
      if b.Some? then Some(Num(Finite(b.value.pricePerShare))) else None, None));
    assert DialogBuilder.ElementNames(d5) == BuyFieldNames;
    d5
  }

  /** The buy dialog, pre-filled from `buy` when there is one, whose state
      carries the channel and `stateBuyId` (omitted when undefined). */
  function BuyDialogFor(channelId: string, buy: Option<Buy>, stateBuyId: Option<string>): (r: DialogBuilder.Dialog)
    ensures r.callbackId == "create-buy-dialog" && r.submitLabel == Some("Create")
    ensures r.elements == BuyElements(buy).elements
    ensures r.state == Some(BuyState(channelId, stateBuyId))
  {
    var d := DialogBuilder.State(DialogBuilder.SubmitLabel(BuyElements(buy), "Create"), BuyState(channelId, stateBuyId));
    DialogBuilder.Build(d)
  }

  /** `BuyService.createBuyDialog`: pre-filled from the given buy, whose id
      (if any) the state carries. */
  function BuyDialog(channelId: string, buy: Option<Buy>): (r: DialogBuilder.Dialog)
    ensures DialogBuilder.ElementNames(r) == BuyFieldNames
    ensures buy.None? ==> forall i :: 0 <= i < |r.elements| ==> r.elements[i].spec.default.None?
    ensures r.state == Some(BuyState(channelId, if buy.Some? then Some(buy.value.buyId) else None))
  {
    BuyDialogFor(channelId, buy, if buy.Some? then Some(buy.value.buyId) else None)
  }

  /** `createBuyDialog` of the first revision: the store is consulted only
      for a truthy `buyId`, and the state carries `buyId` as given, even
      when no buy is stored under it. */
  function CreateBuyDialog(s: Store, channelId: string, buyId: Option<string>): (r: DialogBuilder.Dialog)
    ensures DialogBuilder.ElementNames(r) == BuyFieldNames
    ensures !Truthy(buyId) ==> forall i :: 0 <= i < |r.elements| ==> r.elements[i].spec.default.None?
    ensures Truthy(buyId) && GetBuyEntity(s, channelId, buyId.value).Some? ==>
              r.elements[0].spec.default == Some(Str(GetBuyEntity(s, channelId, buyId.value).value.name))
    ensures r.elements == BuyElements(if Truthy(buyId) then GetBuyEntity(s, channelId, buyId.value) else None).elements
    ensures r.state == Some(BuyState(channelId, buyId))
  {
    var buy := if Truthy(buyId) then GetBuyEntity(s, channelId, buyId.value) else None;
    BuyDialogFor(channelId, buy, buyId)
  }

  const PaymentFieldNames: seq<string> := ["paypal", "usdc_wallet", "wise_id"]

  /** `createPaymentDetailsDialog`: three optional text fields and a state
      holding the buy and channel ids. */
  function PaymentDetailsDialog(channelId: string, buyId: string): (r: DialogBuilder.Dialog)
    ensures r.callbackId == "payment-details-dialog"
    ensures DialogBuilder.ElementNames(r) == PaymentFieldNames
    ensures forall i :: 0 <= i < |r.elements| ==>
              r.elements[i].kind == DialogBuilder.TextType && r.elements[i].spec.optional == Some(true)
              && r.elements[i].spec.default.None?
    ensures r.notifyOnCancel == Some(false) && r.submitLabel == Some("Submit")
    ensures r.state == Some(PaymentState(channelId, buyId))
  {
    var d0 := DialogBuilder.NewDialog("payment-details-dialog", "Enter payment details");
    var d1 := DialogBuilder.TextElement(d0, DialogBuilder.ElementSpec("Paypal", "paypal", Some("text"), Some(true), None, None));
    var d2 := DialogBuilder.TextElement(d1, DialogBuilder.ElementSpec("USDC Wallet", "usdc_wallet", Some("text"), Some(true), None, None));
    var d3 := DialogBuilder.TextElement(d2, DialogBuilder.ElementSpec("Wise ID", "wise_id", Some("text"), Some(true), None, None));
    var d := DialogBuilder.State(DialogBuilder.NotifyOnCancel(DialogBuilder.SubmitLabel(d3, "Submit"), false),
                                 PaymentState(channelId, buyId));
    assert DialogBuilder.ElementNames(d) == PaymentFieldNames;
    DialogBuilder.Build(d)
  }

  // ---------------------------------------------------------------------
  // Closing a buy

  /** The channel announcement that a buy closed. */
  function ClosedAnnouncement(buy: Buy, channelId: string): (r: Message)
    ensures "channel_id" in PropsOf(r) && PropsOf(r)["channel_id"] == JStr(channelId)
    ensures r.text.Some? && Str(buy.name) in r.text.value
    ensures AttachmentsOf(r) == []
  {
    Build(ChannelId(SetText(NewMessage,
      [Lit("Buy **"), Str(buy.name), Lit(ClosedLine)]), channelId))
  }

  const ReadyLine: string := "\"** is now ready for payment! \U{1F389}\n\n"
  const LaterLine: string := "You will receive payment details later."
  const ClickLine: string := "Click on the button below to pay."
  const AmountLabel: string := "**Amount to pay:** "
  const PaypalLabel: string := "\n\n**PayPal:** [Pay Now](https://www.paypal.me/"
  const WiseLabel: string := "\n\n**Wise:** [Pay Now](https://wise.com/pay/me/"
  const UsdcLabel: string := "\n\n**USDC Wallet:** `"

  /** What a member owes: shares times the price per share, with no fees. */
  function AmountToPay(buy: Buy, interest: Interest): Number {
    Mul(interest.shares, Finite(buy.pricePerShare))
  }

  /** No payment destination has been given yet. */
  predicate NoPaymentDetails(buy: Buy) {
    !Truthy(buy.paypal) && !Truthy(buy.usdcWallet) && !Truthy(buy.wiseId)
  }

  /** The PayPal link: the handle, then the amount suffixed with USD. */
  function PaypalSection(handle: string, amount: Number): Text {
    [Lit(PaypalLabel), Str(handle), Lit("/"), Num(amount), Lit("USD)")]
  }

  function WiseSection(wiseId: string): Text {
    [Lit(WiseLabel), Str(wiseId), Lit(")")]
  }

  function UsdcSection(wallet: string): Text {
    [Lit(UsdcLabel), Str(wallet), Lit("`")]
  }

  function PaymentHeader(buy: Buy, amount: Number): Text {
    [Lit("\U{1F389} **\""), Str(buy.name), Lit(ReadyLine),
     Lit(ShareSizeLabel), Num(Finite(buy.shareSize)), Lit(" "), Str(buy.unitForShares.Name()), Lit("\n"),
     Lit(PriceLabel), Num(Finite(buy.pricePerShare)), Lit(UsdLine),
     Lit(AmountLabel), Num(amount), Lit(UsdLine)]
  }

  /** The instruction line: payment details later, or click to pay. */
  function InstructionLine(buy: Buy): string {
    if NoPaymentDetails(buy) then LaterLine else ClickLine
  }

  /** The header names the amount at a fixed place and holds neither
      instruction line nor any section label. */
  lemma HeaderLabels(buy: Buy, amount: Number)
    ensures var p := PaymentHeader(buy, amount);
            && |p| > 12 && p[11] == Lit(AmountLabel) && p[12] == Num(amount)
            && Lit(LaterLine) !in p && Lit(ClickLine) !in p
            && Lit(PaypalLabel) !in p && Lit(WiseLabel) !in p && Lit(UsdcLabel) !in p
  {
    HeaderLitsAreShort(buy, amount);
    assert |LaterLine| == 39 && |ClickLine| == 33;
    assert |PaypalLabel| == 46 && |WiseLabel| == 46 && |UsdcLabel| == 20;
  }

  /** Appending one instruction line to a text that holds neither: the
      chosen line is present and the other absent. */
  lemma AppendInstruction(p: Text, later: bool)
    requires Lit(LaterLine) !in p && Lit(ClickLine) !in p
    ensures var h := p + [Lit(if later then LaterLine else ClickLine)];
            && (Lit(LaterLine) in h <==> later) && (Lit(ClickLine) in h <==> !later)
            && forall x :: x in h && x != Lit(LaterLine) && x != Lit(ClickLine) ==> x in p
  {
    assert |LaterLine| != |ClickLine|;
  }

  /** No constant of the header is as long as an instruction line or a
      section label, except one that differs from the click line in its
      first character. */
  lemma HeaderLitsAreShort(buy: Buy, amount: Number)
    ensures forall x :: x in PaymentHeader(buy, amount) && x.Lit? ==> |x.s| <= 33 && |x.s| != 20 && x.s != ClickLine
  {
    var p := PaymentHeader(buy, amount);
    assert ReadyLine[0] != ClickLine[0];
    forall x | x in p && x.Lit? ensures |x.s| <= 33 && |x.s| != 20 && x.s != ClickLine {
      var i :| 0 <= i < |p| && p[i] == x;
      assert i in {0, 1, 2, 3, 5, 6, 7, 8, 10, 11, 13};
    }
  }

  /** Joining a header and a details part: what each says about the
      amount, the instruction lines, the section labels, their order and
      their contents carries over to the whole text. */
  lemma Assemble(p: Text, later: bool, d: Text, amount: Piece, pl: bool, w: bool, u: bool,
                 pp: Text, wi: Text, us: Text)
    requires |p| > 12 && p[11] == Lit(AmountLabel) && p[12] == amount
    requires Lit(LaterLine) !in p && Lit(ClickLine) !in p
    requires Lit(PaypalLabel) !in p && Lit(WiseLabel) !in p && Lit(UsdcLabel) !in p
    requires Lit(LaterLine) !in d && Lit(ClickLine) !in d
    requires (Lit(PaypalLabel) in d <==> pl) && (Lit(WiseLabel) in d <==> w) && (Lit(UsdcLabel) in d <==> u)
    requires Contains(d, pp) && Contains(d, wi) && Contains(d, us)
    requires Precedes(d, Lit(PaypalLabel), Lit(WiseLabel)) && Precedes(d, Lit(WiseLabel), Lit(UsdcLabel))
    ensures var t := p + [Lit(if later then LaterLine else ClickLine)] + d;
            && Follows(t, AmountLabel, amount)
            && (Lit(LaterLine) in t <==> later) && (Lit(ClickLine) in t <==> !later)
            && (Lit(PaypalLabel) in t <==> pl) && (Lit(WiseLabel) in t <==> w) && (Lit(UsdcLabel) in t <==> u)
            && Contains(t, pp) && Contains(t, wi) && Contains(t, us)
            && Precedes(t, Lit(PaypalLabel), Lit(WiseLabel)) && Precedes(t, Lit(WiseLabel), Lit(UsdcLabel))
  {
    var h := p + [Lit(if later then LaterLine else ClickLine)];
    AppendInstruction(p, later);
    var t := h + d;
    assert t[11] == h[11] == p[11] && t[12] == h[12] == p[12];
    assert Lit(PaypalLabel) !in h && Lit(WiseLabel) !in h && Lit(UsdcLabel) !in h;
    PrecedesPrefix(h, d, Lit(PaypalLabel), Lit(WiseLabel));
    PrecedesPrefix(h, d, Lit(WiseLabel), Lit(UsdcLabel));
    ContainsAppend(h, d, pp);
    ContainsAppend(h, d, wi);
    ContainsAppend(h, d, us);
  }

  /** The PayPal, Wise and USDC sections that apply, in that order. */
  function DetailsPart(buy: Buy, amount: Number): (d: Text)
    ensures Lit(LaterLine) !in d && Lit(ClickLine) !in d
    ensures Lit(PaypalLabel) in d <==> Truthy(buy.paypal)
    ensures Lit(WiseLabel) in d <==> Truthy(buy.wiseId)
    ensures Lit(UsdcLabel) in d <==> Truthy(buy.usdcWallet)
    ensures Truthy(buy.paypal) ==> Contains(d, PaypalSection(buy.paypal.value, amount))
    ensures Truthy(buy.wiseId) ==> Contains(d, WiseSection(buy.wiseId.value))
    ensures Truthy(buy.usdcWallet) ==> Contains(d, UsdcSection(buy.usdcWallet.value))
    ensures Precedes(d, Lit(PaypalLabel), Lit(WiseLabel))
    ensures Precedes(d, Lit(WiseLabel), Lit(UsdcLabel))
  {
    var pp, wi, us := PaypalPart(buy, amount), WisePart(buy), UsdcPart(buy);
    JoinSections(pp, wi, us, Truthy(buy.paypal), Truthy(buy.wiseId), Truthy(buy.usdcWallet));
    pp + wi + us
  }

  /** The PayPal section when a handle is given, else nothing; it names no
      other label and no instruction line. */
  function PaypalPart(buy: Buy, amount: Number): (t: Text)
    ensures Truthy(buy.paypal) ==> t == PaypalSection(buy.paypal.value, amount)
    ensures Lit(PaypalLabel) in t <==> Truthy(buy.paypal)
    ensures Lit(WiseLabel) !in t && Lit(UsdcLabel) !in t && Lit(LaterLine) !in t && Lit(ClickLine) !in t
  {
    if Truthy(buy.paypal) then
      assert |PaypalLabel| == 46 && |WiseLabel| == 46 && |UsdcLabel| == 20 && PaypalLabel[4] != WiseLabel[4];
      assert |LaterLine| == 39 && |ClickLine| == 33;
      PaypalSection(buy.paypal.value, amount)
    else []
  }

  /** The Wise section when an id is given, else nothing. */
  function WisePart(buy: Buy): (t: Text)
    ensures Truthy(buy.wiseId) ==> t == WiseSection(buy.wiseId.value)
    ensures Lit(WiseLabel) in t <==> Truthy(buy.wiseId)
    ensures Lit(PaypalLabel) !in t && Lit(UsdcLabel) !in t && Lit(LaterLine) !in t && Lit(ClickLine) !in t
  {
    if Truthy(buy.wiseId) then
      assert |PaypalLabel| == 46 && |WiseLabel| == 46 && |UsdcLabel| == 20 && PaypalLabel[4] != WiseLabel[4];
      assert |LaterLine| == 39 && |ClickLine| == 33;
      WiseSection(buy.wiseId.value)
    else []
  }

  /** The USDC section when a wallet is given, else nothing. */
  function UsdcPart(buy: Buy): (t: Text)
    ensures Truthy(buy.usdcWallet) ==> t == UsdcSection(buy.usdcWallet.value)
    ensures Lit(UsdcLabel) in t <==> Truthy(buy.usdcWallet)
    ensures Lit(PaypalLabel) !in t && Lit(WiseLabel) !in t && Lit(LaterLine) !in t && Lit(ClickLine) !in t
  {
    if Truthy(buy.usdcWallet) then
      assert |PaypalLabel| == 46 && |WiseLabel| == 46 && |UsdcLabel| == 20;
      assert |LaterLine| == 39 && |ClickLine| == 33;
      UsdcSection(buy.usdcWallet.value)
    else []
  }

  /** Three sections, each naming only its own label and no instruction
      line, joined in order: each label is present exactly when its section
      is, each section appears whole, and the labels keep their order. */
  lemma JoinSections(pp: Text, wi: Text, us: Text, p: bool, w: bool, u: bool)
    requires Lit(LaterLine) !in pp && Lit(LaterLine) !in wi && Lit(LaterLine) !in us
    requires Lit(ClickLine) !in pp && Lit(ClickLine) !in wi && Lit(ClickLine) !in us
    requires (Lit(PaypalLabel) in pp <==> p) && Lit(PaypalLabel) !in wi && Lit(PaypalLabel) !in us
    requires (Lit(WiseLabel) in wi <==> w) && Lit(WiseLabel) !in pp && Lit(WiseLabel) !in us
    requires (Lit(UsdcLabel) in us <==> u) && Lit(UsdcLabel) !in pp && Lit(UsdcLabel) !in wi
    ensures var d := pp + wi + us;
            && Lit(LaterLine) !in d && Lit(ClickLine) !in d
            && (Lit(PaypalLabel) in d <==> p) && (Lit(WiseLabel) in d <==> w) && (Lit(UsdcLabel) in d <==> u)
            && Contains(d, pp) && Contains(d, wi) && Contains(d, us)
            && Precedes(d, Lit(PaypalLabel), Lit(WiseLabel)) && Precedes(d, Lit(WiseLabel), Lit(UsdcLabel))
  {
    assert pp + wi + us == pp + (wi + us);
    PrecedesSplit(pp, wi + us, Lit(PaypalLabel), Lit(WiseLabel));
    PrecedesSplit(wi, us, Lit(WiseLabel), Lit(UsdcLabel));
    PrecedesPrefix(pp, wi + us, Lit(WiseLabel), Lit(UsdcLabel));
    assert Window(pp, 0, |pp|) == pp && Window(wi, 0, |wi|) == wi && Window(us, 0, |us|) == us;
    ContainsAppend(pp, wi + us, pp);
    ContainsAppend(wi, us, wi);
    ContainsAppend(pp, wi + us, wi);
    ContainsAppend(wi, us, us);
    ContainsAppend(pp, wi + us, us);
  }

  /** The text of the payment message: header, instruction line, then the
      PayPal, Wise and USDC sections that apply, in that order. */
  function PaymentText(buy: Buy, interest: Interest): (t: Text)
    ensures Follows(t, AmountLabel, Num(AmountToPay(buy, interest)))
    ensures Lit(LaterLine) in t <==> NoPaymentDetails(buy)
    ensures Lit(ClickLine) in t <==> !NoPaymentDetails(buy)
    ensures Lit(PaypalLabel) in t <==> Truthy(buy.paypal)
    ensures Lit(WiseLabel) in t <==> Truthy(buy.wiseId)
    ensures Lit(UsdcLabel) in t <==> Truthy(buy.usdcWallet)
    ensures Truthy(buy.paypal) ==> Contains(t, PaypalSection(buy.paypal.value, AmountToPay(buy, interest)))
    ensures Truthy(buy.wiseId) ==> Contains(t, WiseSection(buy.wiseId.value))
    ensures Truthy(buy.usdcWallet) ==> Contains(t, UsdcSection(buy.usdcWallet.value))
    ensures Precedes(t, Lit(PaypalLabel), Lit(WiseLabel))
    ensures Precedes(t, Lit(WiseLabel), Lit(UsdcLabel))
  {
    var amount := AmountToPay(buy, interest);
    var p := PaymentHeader(buy, amount);
    var d := DetailsPart(buy, amount);
    HeaderLabels(buy, amount);
    var pp, wi, us := PaypalPart(buy, amount), WisePart(buy), UsdcPart(buy);
    assert Window(d, 0, 0) == [];
    Assemble(p, NoPaymentDetails(buy), d, Num(amount), Truthy(buy.paypal), Truthy(buy.wiseId), Truthy(buy.usdcWallet),
             pp, wi, us);
    p + [Lit(InstructionLine(buy))] + d
  }

  /** The "Mark Payed" button's context: the interest's own identifiers. */
  function MarkPayedContext(interest: Interest): (ctx: map<string, Json>)
    ensures DecodeContext(ctx) == Some(ActionContext(interest.channelId, interest.buyId, interest.userId, None))
  {
    map["action" := JStr("payed"), "channel_id" := JStr(interest.channelId),
        "user_id" := JStr(interest.userId), "buy_id" := JStr(interest.buyId)]
  }

  /** The "Mark Payed" button, leading back to the interest. */
  predicate IsMarkPayedButton(b: Action, interest: Interest) {
    && b.Type() == "button" && b.id == "payed" && b.name == "Mark Payed" && b.url == BotUrl + "/mark-payed"
    && DecodeContext(b.context) == Some(ActionContext(interest.channelId, interest.buyId, interest.userId, None))
  }

  function PaymentAttachment(interest: Interest): (a: Attachment)
    ensures |ActionsOf(a)| == 1 && IsMarkPayedButton(ActionsOf(a)[0], interest)
  {
    AddButton(NewAttachment, "payed", "Mark Payed", BotUrl + "/mark-payed", MarkPayedContext(interest), None)
  }

  /** `createPaymentMessage`: the payment text and exactly one attachment
      with one "Mark Payed" button leading back to the interest. */
  function PaymentMessage(buy: Buy, interest: Interest): (r: Message)
    ensures r.text == Some(PaymentText(buy, interest))
    ensures |AttachmentsOf(r)| == 1 && |ActionsOf(AttachmentsOf(r)[0])| == 1
    ensures IsMarkPayedButton(ActionsOf(AttachmentsOf(r)[0])[0], interest)
  {
    Build(AddAttachment(SetText(NewMessage, PaymentText(buy, interest)), PaymentAttachment(interest)))
  }
}
