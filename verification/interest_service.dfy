/**
 * The interest lifecycle handlers of the service revision: opening and
 * saving the interest dialog, listing the interests of a buy, reporting a
 * payment, and the organizer's confirmation or rejection of it.
 */
module InterestService {
  import opened Wrappers
  import opened Js
  import opened Entities
  import opened Storage
  import opened MessageBuilder
  import DialogBuilder
  import opened Platform
  import opened InterestMessages

  /** `startInterestProcess`: behind the closed-buy guard (on the post's
      channel), the interest dialog for the clicking user. A missing buy
      ends the request before the dialog opens. */
  function StartInterestProcess(s: Store, post: PostAction): (r: Response)
    ensures r.store == s
    ensures IsBuyClosed(s, post.channelId, post.context.buyId) ==>
              !r.failed && r.effects == [Ephemeral(post.channelId, post.userId, ClosedNotice)]
    ensures !IsBuyClosed(s, post.channelId, post.context.buyId) ==>
              match GetBuyEntity(s, post.channelId, post.context.buyId)
              case None => r.failed && r.effects == []
              case Some(buy) =>
                && !r.failed && |r.effects| == 1 && r.effects[0].OpenDialog?
                && r.effects[0].triggerId == post.triggerId && r.effects[0].url == BotUrl + "/save-interest"
                && r.effects[0].dialog == InterestDialog(buy, GetInterestOfUser(s, post.channelId, post.context.buyId, post.userId))
  {
    var buyId := post.context.buyId;
    match ClosedGuard(s, post.channelId, buyId, post.channelId, post.userId)
    case Some(stop) => stop
    case None =>
      var interest := GetInterestOfUser(s, post.channelId, buyId, post.userId);
      match GetBuyEntity(s, post.channelId, buyId)
      case None => Crash(s, [])
      case Some(buy) =>
        Done(s, [OpenDialog(post.triggerId, InterestDialog(buy, interest), BotUrl + "/save-interest")])
  }

  const EditAgainLine: string := ". Click 'Yes' again to edit your interest."
  const ConfirmedLine: string := "The organizer has confirmed your payment for the buy **"
  const ConfirmedThanksLine: string :=
    "**. \U{1F389} Thank you for your prompt payment! If you have any questions, feel free to reach out."
  const RejectedLine: string :=
    "The organizer rejected your payment status. Please check your payment and confirm again in case you payed or get in contact with the organizer @"

  const FractionNotice: Text :=
    [Lit("Share size cannot have a fraction if half shares are not allowed. Try again please")]

  /** The acknowledgement of a saved interest, quoting the input as typed. */
  function SavedNotice(form: InterestForm): Text {
    [Lit(MarkedLine), Str(form.shares), Lit(EmailLine), Str(form.email), Lit(EditAgainLine)]
  }

  /** `InterestService.saveInterest`: behind the closed-buy guard, rejects
      a share count that does not parse to a whole number (no buy allows
      half shares), and otherwise stores the parsed count and the email
      under (channel, user, state) and acknowledges it. */
  function SaveInterest(s: Store, sub: Submission<InterestForm>): (r: Response)
    ensures !r.failed && |r.effects| == 1
    ensures IsBuyClosed(s, sub.channelId, sub.state) ==>
              r.store == s && r.effects == [Ephemeral(sub.channelId, sub.userId, ClosedNotice)]
    ensures !IsBuyClosed(s, sub.channelId, sub.state) && !IsInteger(ParseFloat(sub.form.shares)) ==>
              r.store == s && r.effects == [Ephemeral(sub.channelId, sub.userId, FractionNotice)]
    ensures !IsBuyClosed(s, sub.channelId, sub.state) && IsInteger(ParseFloat(sub.form.shares)) ==>
              var k := InterestKeyFor(sub.channelId, sub.userId, sub.state);
              && k in r.store.interests
              && r.store.interests[k] == Interest(ParseFloat(sub.form.shares), sub.form.email, sub.userId, sub.state,
                                                  sub.channelId, None)
              && (forall k' :: k' != k ==> (k' in r.store.interests <==> k' in s.interests))
              && (forall k' :: k' != k && k' in s.interests ==> r.store.interests[k'] == s.interests[k'])
              && r.store.buys == s.buys
              && r.effects == [Ephemeral(sub.channelId, sub.userId, SavedNotice(sub.form))]
  {
    match ClosedGuard(s, sub.channelId, sub.state, sub.channelId, sub.userId)
    case Some(stop) => stop
    case None =>
      var shares := ParseFloat(sub.form.shares);
      if !IsInteger(shares) then Done(s, [Ephemeral(sub.channelId, sub.userId, FractionNotice)])
      else
        var s' := Storage.SaveInterest(s, sub.channelId, sub.userId, sub.state, shares, sub.form.email, None);
        Done(s', [Ephemeral(sub.channelId, sub.userId, SavedNotice(sub.form))])
  }

  /** The service revision never stores a fractional or NaN share count:
      either nothing is written or the record written holds a whole
      number. */
  lemma SavedSharesAreWhole(s: Store, sub: Submission<InterestForm>)
    ensures var r := SaveInterest(s, sub);
            var k := InterestKeyFor(sub.channelId, sub.userId, sub.state);
            r.store == s || (k in r.store.interests && IsInteger(r.store.interests[k].shares))
  {
  }

  /** `showInterestList`: one ephemeral table to the clicking user with a
      row per interest of the buy, in list order; an unknown member ends
      the request with nothing sent. */
  function ShowInterestList(s: Store, users: Directory, post: PostAction): (r: Response)
    ensures r.store == s
    ensures var xs := GetInterestsOfBuy(s, post.context.channelId, post.context.buyId);
            && (!r.failed <==> forall i :: 0 <= i < |xs| ==> xs[i].userId in users)
            && (r.failed ==> r.effects == [])
            && (!r.failed ==> |r.effects| == 1 && r.effects[0].Ephemeral?
                              && r.effects[0].channelId == post.channelId && r.effects[0].userId == post.userId
                              && |r.effects[0].text| >= 1 && r.effects[0].text[0] == Lit(ListHeader)
                              && (forall i :: 0 <= i < |xs| ==>
                                    Contains(r.effects[0].text, InterestRow(users[xs[i].userId], xs[i])))
                              && (|xs| == 0 ==> r.effects[0].text == [Lit(ListHeader)])
                              && (|xs| > 0 ==>
                                    var lines := SplitLines(r.effects[0].text[1..]);
                                    && |lines| == |xs|
                                    && forall i :: 0 <= i < |xs| ==> lines[i] == InterestRow(users[xs[i].userId], xs[i])))
  {
    var xs := GetInterestsOfBuy(s, post.context.channelId, post.context.buyId);
    match Rows(users, xs)
    case None => Crash(s, [])
    case Some(rows) =>
      TableOfRows(users, xs, rows);
      Done(s, [Ephemeral(post.channelId, post.userId, InterestTable(rows))])
  }

  /** `markPayed`: the clicking member reports a payment. The organizer
      receives a confirmation request about the member's interest, and the
      member an acknowledgement. The member, the buy, the organizer and the
      interest must all be found; otherwise the request ends with nothing
      sent. Nothing is written. */
  function MarkPayed(s: Store, users: Directory, post: PostAction): (r: Response)
    ensures r.store == s
    ensures var buy := GetBuyEntity(s, post.context.channelId, post.context.buyId);
            !r.failed <==> && post.userId in users && buy.Some? && buy.value.creatorUserId in users
                           && GetInterestOfUser(s, post.context.channelId, buy.value.buyId, post.userId).Some?
    ensures r.failed ==> r.effects == []
    ensures !r.failed ==>
              var buy := GetBuyEntity(s, post.context.channelId, post.context.buyId).value;
              var interest := GetInterestOfUser(s, post.context.channelId, buy.buyId, post.userId).value;
              r.effects == [DirectMessage(buy.creatorUserId,
                                          PaymentConfirmationMessage(interest, buy, User(post.userId, users[post.userId]),
                                                                     interest.channelId)),
                            DirectMessage(post.userId, Build(SetText(NewMessage, PaymentReportedThanks)))]
  {
    var ctx := post.context;
    match GetUser(users, post.userId)
    case None => Crash(s, [])
    case Some(buyer) =>
      match GetBuyEntity(s, ctx.channelId, ctx.buyId)
      case None => Crash(s, [])
      case Some(buy) =>
        match GetUser(users, buy.creatorUserId)
        case None => Crash(s, [])
        case Some(organizer) =>
          match GetInterestOfUser(s, ctx.channelId, buy.buyId, buyer.id)
          case None => Crash(s, [])
          case Some(interest) =>
            Done(s, [DirectMessage(organizer.id, PaymentConfirmationMessage(interest, buy, buyer, interest.channelId)),
                     DirectMessage(buyer.id, Build(SetText(NewMessage, PaymentReportedThanks)))])
  }

  // ---------------------------------------------------------------------
  // Confirming and rejecting a payment

  function TextMessage(t: Text): Message {
    Build(SetText(NewMessage, t))
  }

  const ConfirmationThanks: Text := [Lit("Thank you for the confirmation.")]
  const FeedbackThanks: Text := [Lit("Many thanks for the feedback. I informed the buyer.")]

  function ConfirmedNotice(buyName: string): Text {
    [Lit(ConfirmedLine), Str(buyName), Lit(ConfirmedThanksLine)]
  }

  function RejectedNotice(username: string): Text {
    [Lit(RejectedLine), Str(username)]
  }

  /** The buyer's interest the organizer's click is about: (context
      channel, context buy, context user). */
  function BuyerInterest(s: Store, post: PostAction): Option<Interest> {
    GetInterestOfUser(s, post.context.channelId, post.context.buyId, post.context.userId)
  }

  /** The write both payment decisions make: the buyer's shares and email
      with the new `payed` flag, stored under (context channel, `writer`,
      context buy). */
  function RecordDecision(s: Store, post: PostAction, interest: Interest, writer: string, payed: bool): Store {
    Storage.SaveInterest(s, post.context.channelId, writer, post.context.buyId, interest.shares, interest.email, Some(payed))
  }

  /** `confirmPayment` with the writing user as a parameter: a missing
      buyer interest ends the request untouched; a missing buy ends it
      after the write and the first message. */
  function ConfirmPaymentKeyedBy(s: Store, post: PostAction, writer: string): (r: Response)
    ensures BuyerInterest(s, post).None? ==> r == Crash(s, [])
    ensures BuyerInterest(s, post).Some? ==>
              && r.store == RecordDecision(s, post, BuyerInterest(s, post).value, writer, true)
              && (r.failed <==> GetBuyEntity(s, post.context.channelId, post.context.buyId).None?)
    ensures BuyerInterest(s, post).Some? && GetBuyEntity(s, post.context.channelId, post.context.buyId).None? ==>
              r.effects == [DirectMessage(post.context.userId, TextMessage(ConfirmationThanks))]
    ensures BuyerInterest(s, post).Some? && GetBuyEntity(s, post.context.channelId, post.context.buyId).Some? ==>
              r.effects == [DirectMessage(post.context.userId, TextMessage(ConfirmationThanks)),
                            DirectMessage(post.context.userId, TextMessage(ConfirmedNotice(
                              GetBuyEntity(s, post.context.channelId, post.context.buyId).value.name))),
                            RemoveBotReactions(post.postId), AddReaction(post.postId, "white_check_mark")]
  {
    var ctx := post.context;
    match BuyerInterest(s, post)
    case None => Crash(s, [])
    case Some(interest) =>
      var buy := GetBuyEntity(s, ctx.channelId, ctx.buyId);
      var s' := RecordDecision(s, post, interest, writer, true);
      var thanks := DirectMessage(ctx.userId, TextMessage(ConfirmationThanks));
      match buy
      case None => Crash(s', [thanks])
      case Some(b) =>
        Done(s', [thanks, DirectMessage(ctx.userId, TextMessage(ConfirmedNotice(b.name))),
                  RemoveBotReactions(post.postId), AddReaction(post.postId, "white_check_mark")])
  }

  /** `confirmPayment` as written: the record is keyed by the clicking
      organizer (`post.user_id`), not by the buyer. */
  function ConfirmPayment(s: Store, post: PostAction): (r: Response)
    ensures BuyerInterest(s, post).Some? && post.context.buyId != "" ==>
              var i := BuyerInterest(s, post).value;
              GetInterestOfUser(r.store, post.context.channelId, post.context.buyId, post.userId)
                == Some(Interest(i.shares, i.email, post.userId, post.context.buyId, post.context.channelId, Some(true)))
  {
    ConfirmPaymentKeyedBy(s, post, post.userId)
  }

  /** `rejectPayment` with the writing user as a parameter: the write comes
      first, then the buyer lookup; an unknown buyer ends the request
      after the write with nothing sent. */
  function RejectPaymentKeyedBy(s: Store, users: Directory, post: PostAction, writer: string): (r: Response)
    ensures BuyerInterest(s, post).None? ==> r == Crash(s, [])
    ensures BuyerInterest(s, post).Some? ==>
              && r.store == RecordDecision(s, post, BuyerInterest(s, post).value, writer, false)
              && (r.failed <==> post.context.userId !in users)
              && (r.failed ==> r.effects == [])
    ensures BuyerInterest(s, post).Some? && post.context.userId in users ==>
              r.effects == [DirectMessage(post.context.userId, TextMessage(RejectedNotice(users[post.context.userId]))),
                            DirectMessage(post.context.userId, TextMessage(FeedbackThanks)),
                            RemoveBotReactions(post.postId), AddReaction(post.postId, "x")]
  {
    var ctx := post.context;
    match BuyerInterest(s, post)
    case None => Crash(s, [])
    case Some(interest) =>
      var s' := RecordDecision(s, post, interest, writer, false);
      match GetUser(users, ctx.userId)
      case None => Crash(s', [])
      case Some(buyer) =>
        Done(s', [DirectMessage(ctx.userId, TextMessage(RejectedNotice(buyer.username))),
                  DirectMessage(ctx.userId, TextMessage(FeedbackThanks)),
                  RemoveBotReactions(post.postId), AddReaction(post.postId, "x")])
  }

  /** `rejectPayment` as written: keyed by the clicking organizer. */
  function RejectPayment(s: Store, users: Directory, post: PostAction): (r: Response)
    ensures BuyerInterest(s, post).Some? && post.context.buyId != "" ==>
              var i := BuyerInterest(s, post).value;
              GetInterestOfUser(r.store, post.context.channelId, post.context.buyId, post.userId)
                == Some(Interest(i.shares, i.email, post.userId, post.context.buyId, post.context.channelId, Some(false)))
  {
    RejectPaymentKeyedBy(s, users, post, post.userId)
  }

  /** When someone other than the buyer confirms, the buyer's own record
      is left exactly as it was: a buyer who had not paid stays unpaid. */
  lemma ConfirmByOrganizerLeavesBuyerRecord(s: Store, post: PostAction)
    requires BuyerInterest(s, post).Some?
    requires post.userId != post.context.userId
    ensures BuyerInterest(ConfirmPayment(s, post).store, post) == BuyerInterest(s, post)
  {
    var ctx := post.context;
    var kw := InterestKeyFor(ctx.channelId, post.userId, ctx.buyId);
    var kb := InterestKeyFor(ctx.channelId, ctx.userId, ctx.buyId);
    if PartitionKey(ctx.channelId, post.userId) == PartitionKey(ctx.channelId, ctx.userId) {
      PartitionKeySameChannel(ctx.channelId, post.userId, ctx.userId);
    }
    assert kw != kb;
  }

  /** A concrete store where a confirmation leaves the buyer unpaid. */
  lemma ConfirmByOrganizerExample()
    ensures var buyer := Interest(Finite(2.0), "b@x", "buyer", "buy1", "ch", None);
            var s := Storage.SaveInterest(EmptyStore, "ch", "buyer", "buy1", Finite(2.0), "b@x", None);
            var post := PostAction("organizer", "dm", "t", "p", ActionContext("ch", "buy1", "buyer", None));
            BuyerInterest(ConfirmPayment(s, post).store, post) == Some(buyer)
  {
    var s := Storage.SaveInterest(EmptyStore, "ch", "buyer", "buy1", Finite(2.0), "b@x", None);
    var post := PostAction("organizer", "dm", "t", "p", ActionContext("ch", "buy1", "buyer", None));
    ConfirmByOrganizerLeavesBuyerRecord(s, post);
  }

  /** The evidently intended confirmation: the buyer's record is marked
      paid, keeping its shares and email. */
  function ConfirmPaymentForBuyer(s: Store, post: PostAction): (r: Response)
    ensures BuyerInterest(s, post).Some? ==>
              var i := BuyerInterest(s, post).value;
              BuyerInterest(r.store, post)
                == Some(Interest(i.shares, i.email, post.context.userId, post.context.buyId, post.context.channelId, Some(true)))
  {
    ConfirmPaymentKeyedBy(s, post, post.context.userId)
  }

  /** The evidently intended rejection: the buyer's record is marked not
      paid, keeping its shares and email. */
  function RejectPaymentForBuyer(s: Store, users: Directory, post: PostAction): (r: Response)
    ensures BuyerInterest(s, post).Some? ==>
              var i := BuyerInterest(s, post).value;
              BuyerInterest(r.store, post)
                == Some(Interest(i.shares, i.email, post.context.userId, post.context.buyId, post.context.channelId, Some(false)))
  {
    RejectPaymentKeyedBy(s, users, post, post.context.userId)
  }

  /** With the intended keying, a confirmation followed by nothing else
      leaves the buyer paid whoever clicked, and a rejection undoes it. */
  lemma ConfirmThenRejectForBuyer(s: Store, users: Directory, post: PostAction)
    requires BuyerInterest(s, post).Some?
    ensures var s1 := ConfirmPaymentForBuyer(s, post).store;
            var s2 := RejectPaymentForBuyer(s1, users, post).store;
            IsTrue(BuyerInterest(s1, post).value.payed) && !IsTrue(BuyerInterest(s2, post).value.payed)
  {
  }
}
