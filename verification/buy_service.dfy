/**
 * The buy lifecycle handlers of the service revision: opening the create
 * and edit dialogs, saving a buy, opening the close dialog, closing a buy
 * with its payment details and the fan-out of payment messages, and the
 * payment reminder. Each handler is a transition from the store and the
 * request to a `Response`.
 */
module BuyService {
  import opened Wrappers
  import opened Js
  import opened Entities
  import opened Storage
  import opened MessageBuilder
  import DialogBuilder
  import opened Platform
  import opened BuyMessages

  /** `startCreationProcess`: an empty buy dialog, nothing stored. */
  function StartCreationProcess(s: Store, command: SlashCommand): (r: Response)
    ensures r.store == s && !r.failed && |r.effects| == 1
    ensures r.effects[0].OpenDialog? && r.effects[0].triggerId == command.triggerId
            && r.effects[0].url == BotUrl + "/save-buy"
    ensures forall i :: 0 <= i < |r.effects[0].dialog.elements| ==> r.effects[0].dialog.elements[i].spec.default.None?
    ensures r.effects[0].dialog.state == Some(StateToken.BuyState(command.channelId, None))
  {
    Done(s, [OpenDialog(command.triggerId, BuyDialog(command.channelId, None), BotUrl + "/save-buy")])
  }

  /** `startEditProcess`: behind the closed-buy guard (notice to the post's
      channel), the buy dialog pre-filled from the stored buy when the
      context names one. */
  function StartEditProcess(s: Store, post: PostAction): (r: Response)
    ensures r.store == s && !r.failed && |r.effects| == 1
    ensures IsBuyClosed(s, post.context.channelId, post.context.buyId) ==>
              r.effects == [Ephemeral(post.channelId, post.userId, ClosedNotice)]
    ensures !IsBuyClosed(s, post.context.channelId, post.context.buyId) ==>
              var buy := if post.context.buyId != "" then GetBuyEntity(s, post.context.channelId, post.context.buyId) else None;
              r.effects == [OpenDialog(post.triggerId, BuyDialog(post.context.channelId, buy), BotUrl + "/save-buy")]
  {
    var ctx := post.context;
    match ClosedGuard(s, ctx.channelId, ctx.buyId, post.channelId, post.userId)
    case Some(stop) => stop
    case None =>
      var buy := if ctx.buyId != "" then GetBuyEntity(s, ctx.channelId, ctx.buyId) else None;
      Done(s, [OpenDialog(post.triggerId, BuyDialog(ctx.channelId, buy), BotUrl + "/save-buy")])
  }

  /** The record `saveBuy` writes: the form's fields, the submitter as
      creator, and no closed flag, close time or payment details. */
  function SubmittedBuy(sub: Submission<BuyForm>, buyId: string): Buy {
    Buy(sub.channelId, buyId, sub.userId, sub.form.buyName, sub.form.unitForShares, sub.form.shareSize,
        sub.form.pricePerShare, sub.form.buyDescription, None, None, None, None, None)
  }

  /** `saveBuy`: looks the submitter up (an unknown user aborts before any
      write), stores the buy under (submission channel, buyId), announces
      it in `channelId` and sends the management panel to the submitter. */
  function SaveBuy(s: Store, users: Directory, channelId: string, buyId: string, sub: Submission<BuyForm>): (r: Response)
    ensures sub.userId !in users ==> r == Crash(s, [])
    ensures sub.userId in users ==>
              && !r.failed
              && GetBuyEntity(r.store, sub.channelId, buyId) == Some(SubmittedBuy(sub, buyId))
              && !IsBuyClosed(r.store, sub.channelId, buyId)
              && (forall c, b :: BuyKey(c, b) != BuyKey(sub.channelId, buyId) ==>
                                   GetBuyEntity(r.store, c, b) == GetBuyEntity(s, c, b))
              && r.store.interests == s.interests
              && r.effects == [PostMessage(channelId, SaveBuyConfirmationMessage(sub, users[sub.userId], buyId)),
                               DirectMessage(sub.userId, ManageMessage(sub, buyId))]
  {
    match GetUser(users, sub.userId)
    case None => Crash(s, [])
    case Some(user) =>
      var b := SubmittedBuy(sub, buyId);
      var s' := PutBuy(s, b);
      Done(s', [PostMessage(channelId, SaveBuyConfirmationMessage(sub, user.username, buyId)),
                DirectMessage(sub.userId, ManageMessage(sub, buyId))])
  }

  /** `closeBuy`: behind the closed-buy guard, the payment details dialog
      whose state carries the context's ids. */
  function CloseBuy(s: Store, post: PostAction): (r: Response)
    ensures r.store == s && !r.failed && |r.effects| == 1
    ensures IsBuyClosed(s, post.context.channelId, post.context.buyId) ==>
              r.effects == [Ephemeral(post.channelId, post.userId, ClosedNotice)]
    ensures !IsBuyClosed(s, post.context.channelId, post.context.buyId) ==>
              r.effects == [OpenDialog(post.triggerId, PaymentDetailsDialog(post.context.channelId, post.context.buyId),
                                       BotUrl + "/close-buy-confirm")]
  {
    var ctx := post.context;
    match ClosedGuard(s, ctx.channelId, ctx.buyId, post.channelId, post.userId)
    case Some(stop) => stop
    case None =>
      Done(s, [OpenDialog(post.triggerId, PaymentDetailsDialog(ctx.channelId, ctx.buyId), BotUrl + "/close-buy-confirm")])
  }

  /** The buy as closing leaves it: closed, stamped, with the submitted
      payment details and every other field as it was. */
  function ClosedBuy(b: Buy, form: PaymentForm, now: Instant): (c: Buy)
    ensures IsTrue(c.closed) && c.closedAt == Some(now)
    ensures c.paypal == form.paypal && c.usdcWallet == form.usdcWallet && c.wiseId == form.wiseId
    ensures c.(closed := b.closed, closedAt := b.closedAt, paypal := b.paypal, usdcWallet := b.usdcWallet,
               wiseId := b.wiseId) == b
  {
    b.(paypal := form.paypal, usdcWallet := form.usdcWallet, wiseId := form.wiseId,
       closed := Some(true), closedAt := Some(now))
  }

  /** One payment message per interest, addressed to its member, in list
      order. */
  function PaymentFanOut(buy: Buy, interests: seq<Interest>): (r: seq<Effect>)
    ensures |r| == |interests|
    ensures forall i :: 0 <= i < |r| ==>
              r[i].DirectMessage? && r[i].userId == interests[i].userId && r[i].message == PaymentMessage(buy, interests[i])
  {
    seq(|interests|, i requires 0 <= i < |interests| => DirectMessage(interests[i].userId, PaymentMessage(buy, interests[i])))
  }

  /** `confirmCloseBuy` (no closed check of its own): a missing buy aborts
      before anything happens; otherwise the buy is stored closed with the
      payment details, the channel is told, and every interest of the buy
      receives its payment message, once, in list order. */
  function ConfirmCloseBuy(s: Store, sub: Submission<PaymentForm>, channelId: string, buyId: string, now: Instant)
    : (r: Response)
    ensures GetBuyEntity(s, channelId, buyId).None? ==> r == Crash(s, [])
    ensures GetBuyEntity(s, channelId, buyId).Some? ==>
              var closed := ClosedBuy(GetBuyEntity(s, channelId, buyId).value, sub.form, now);
              var interests := GetInterestsOfBuy(s, channelId, buyId);
              && !r.failed
              && GetBuyEntity(r.store, channelId, buyId) == Some(closed)
              && IsBuyClosed(r.store, channelId, buyId)
              && (forall c, b :: BuyKey(c, b) != BuyKey(channelId, buyId) ==>
                                   GetBuyEntity(r.store, c, b) == GetBuyEntity(s, c, b))
              && r.store.interests == s.interests
              && |r.effects| == 1 + |interests|
              && r.effects[0] == PostMessage(channelId, ClosedAnnouncement(closed, channelId))
              && r.effects[1..] == PaymentFanOut(closed, interests)
  {
    match GetBuyEntity(s, channelId, buyId)
    case None => Crash(s, [])
    case Some(b) =>
      var closed := ClosedBuy(b, sub.form, now);
      var s' := PutBuy(s, closed);
      var interests := GetInterestsOfBuy(s', channelId, buyId);
      Done(s', [PostMessage(channelId, ClosedAnnouncement(closed, channelId))] + PaymentFanOut(closed, interests))
  }

  /** Payment messages for interests under different keys differ: the
      button leads back to the interest's own key. */
  lemma PaymentMessageNamesInterest(buy: Buy, a: Interest, b: Interest)
    ensures KeyOf(a) != KeyOf(b) ==> PaymentMessage(buy, a) != PaymentMessage(buy, b)
  {
    var ba := ActionsOf(AttachmentsOf(PaymentMessage(buy, a))[0])[0];
    var bb := ActionsOf(AttachmentsOf(PaymentMessage(buy, b))[0])[0];
    assert DecodeContext(ba.context) == Some(ActionContext(a.channelId, a.buyId, a.userId, None));
    assert DecodeContext(bb.context) == Some(ActionContext(b.channelId, b.buyId, b.userId, None));
  }

  /** Among `effects`, exactly one carries `m`, and it is a direct message
      to `userId`. */
  ghost predicate SentOnce(effects: seq<Effect>, userId: string, m: Message) {
    exists i :: 0 <= i < |effects| && effects[i] == DirectMessage(userId, m)
                && forall j :: 0 <= j < |effects| && j != i && (effects[j].PostMessage? || effects[j].DirectMessage?) ==>
                                 effects[j].message != m
  }

  /** Over a list of interests under distinct keys, the fan-out sends each
      listed interest its payment message exactly once. */
  lemma FanOutReachesEachInterestOnce(buy: Buy, interests: seq<Interest>, x: Interest)
    requires forall i, j :: 0 <= i < j < |interests| ==> KeyOf(interests[i]) != KeyOf(interests[j])
    requires x in interests
    ensures SentOnce(PaymentFanOut(buy, interests), x.userId, PaymentMessage(buy, x))
  {
    var r := PaymentFanOut(buy, interests);
    var n :| 0 <= n < |interests| && interests[n] == x;
    forall j | 0 <= j < |r| && j != n
      ensures r[j].message != PaymentMessage(buy, x)
    {
      assert KeyOf(interests[j]) != KeyOf(interests[n]);
      PaymentMessageNamesInterest(buy, interests[j], x);
    }
    assert r[n] == DirectMessage(x.userId, PaymentMessage(buy, x));
  }

  /** Closing a buy sends every stored interest of that buy its payment
      message exactly once. */
  lemma ClosingReachesEachInterestOnce(s: Store, sub: Submission<PaymentForm>, channelId: string, buyId: string,
                                       now: Instant, k: InterestKey)
    requires GetBuyEntity(s, channelId, buyId).Some?
    requires k in s.interests && k.row == buyId
    ensures var closed := ClosedBuy(GetBuyEntity(s, channelId, buyId).value, sub.form, now);
            SentOnce(ConfirmCloseBuy(s, sub, channelId, buyId, now).effects[1..], s.interests[k].userId,
                     PaymentMessage(closed, s.interests[k]))
  {
    var closed := ClosedBuy(GetBuyEntity(s, channelId, buyId).value, sub.form, now);
    var interests := GetInterestsOfBuy(s, channelId, buyId);
    var dms := ConfirmCloseBuy(s, sub, channelId, buyId, now).effects[1..];
    assert dms == PaymentFanOut(closed, interests);
    assert s.interests[k] in interests;
    FanOutReachesEachInterestOnce(closed, interests, s.interests[k]);
  }

  // ---------------------------------------------------------------------
  // Payment reminders

  /** The interests whose `payed` is falsy, in list order: an interest is
      kept exactly when it is in the list and its `payed` is falsy. */
  function Unpaid(xs: seq<Interest>): (r: seq<Interest>)
    ensures |r| <= |xs|
    ensures forall x {:trigger x in r} :: x in r <==> x in xs && !IsTrue(x.payed)
  {
    if |xs| == 0 then []
    else
      assert xs == [xs[0]] + xs[1..];
      (if IsTrue(xs[0].payed) then [] else [xs[0]]) + Unpaid(xs[1..])
  }

  /** The first unpaid interest, at `k`, whose member is unknown. */
  ghost predicate FirstUnknown(xs: seq<Interest>, users: Directory, k: int) {
    && 0 <= k < |xs| && !IsTrue(xs[k].payed) && xs[k].userId !in users
    && forall j :: 0 <= j < k && !IsTrue(xs[j].payed) ==> xs[j].userId in users
  }

  lemma {:induction false} UnpaidAppend(xs: seq<Interest>, x: Interest)
    ensures Unpaid(xs + [x]) == Unpaid(xs) + (if IsTrue(x.payed) then [] else [x])
  {
    if |xs| == 0 {
      assert Unpaid([x][1..]) == [];
    } else {
      assert (xs + [x])[1..] == xs[1..] + [x];
      UnpaidAppend(xs[1..], x);
    }
  }

  const ReminderLine: string := "Please pay for the buy **"

  /** The reminder text; `name` is the interpolated buy name. */
  function ReminderMessage(name: Piece): Message {
    Build(SetText(NewMessage, [Lit(ReminderLine), name, Lit("**")]))
  }

  /** One reminder per target, in order. */
  function Reminders(targets: seq<Interest>, name: Piece): seq<Effect> {
    seq(|targets|, i requires 0 <= i < |targets| => DirectMessage(targets[i].userId, ReminderMessage(name)))
  }

  /** The reminders for the unpaid interests reach exactly the members
      whose interest is unpaid. */
  lemma RemindersReachExactlyUnpaid(xs: seq<Interest>, name: Piece)
    ensures forall x :: x in xs && !IsTrue(x.payed) ==> DirectMessage(x.userId, ReminderMessage(name)) in Reminders(Unpaid(xs), name)
    ensures forall e :: e in Reminders(Unpaid(xs), name) ==>
              exists x :: x in xs && !IsTrue(x.payed) && e == DirectMessage(x.userId, ReminderMessage(name))
  {
    var u := Unpaid(xs);
    forall x | x in xs && !IsTrue(x.payed)
      ensures DirectMessage(x.userId, ReminderMessage(name)) in Reminders(u, name)
    {
      assert x in u;
      var i :| 0 <= i < |u| && u[i] == x;
      assert Reminders(u, name)[i] == DirectMessage(x.userId, ReminderMessage(name));
    }
    forall e | e in Reminders(u, name)
      ensures exists x :: x in xs && !IsTrue(x.payed) && e == DirectMessage(x.userId, ReminderMessage(name))
    {
      var i :| 0 <= i < |u| && Reminders(u, name)[i] == e;
      assert u[i] in u;
    }
  }

  /** The reminder loop of both revisions: for each unpaid interest in
      list order, look the member up (an unknown member ends the request
      with the reminders sent so far) and send the reminder. */
  method Remind(users: Directory, xs: seq<Interest>, name: Piece) returns (effects: seq<Effect>, failed: bool)
    ensures !failed <==> forall i :: 0 <= i < |Unpaid(xs)| ==> Unpaid(xs)[i].userId in users
    ensures !failed ==> effects == Reminders(Unpaid(xs), name)
    ensures failed ==> exists k :: FirstUnknown(xs, users, k) && effects == Reminders(Unpaid(xs[..k]), name)
  {
    effects := [];
    var i := 0;
    while i < |xs|
      invariant 0 <= i <= |xs|
      invariant effects == Reminders(Unpaid(xs[..i]), name)
      invariant forall j :: 0 <= j < i && !IsTrue(xs[j].payed) ==> xs[j].userId in users
    {
      assert xs[..i + 1] == xs[..i] + [xs[i]];
      UnpaidAppend(xs[..i], xs[i]);
      if IsTrue(xs[i].payed) {
        assert Unpaid(xs[..i + 1]) == Unpaid(xs[..i]) + [];
      } else {
        var user := GetUser(users, xs[i].userId);
        if user.None? {
          assert FirstUnknown(xs, users, i);
          UnknownUnpaidFails(xs, users, i);
          failed := true;
          return;
        }
        RemindersAppend(Unpaid(xs[..i]), xs[i], name);
        effects := effects + [DirectMessage(user.value.id, ReminderMessage(name))];
      }
      i := i + 1;
    }
    assert xs[..|xs|] == xs;
    KnownUnpaidSucceeds(xs, users);
    failed := false;
  }

  lemma RemindersAppend(u: seq<Interest>, x: Interest, name: Piece)
    ensures Reminders(u + [x], name) == Reminders(u, name) + [DirectMessage(x.userId, ReminderMessage(name))]
  {
  }

  /** Every unpaid member known: every listed unpaid interest's member
      is known. */
  lemma KnownUnpaidSucceeds(xs: seq<Interest>, users: Directory)
    requires forall j :: 0 <= j < |xs| && !IsTrue(xs[j].payed) ==> xs[j].userId in users
    ensures forall i :: 0 <= i < |Unpaid(xs)| ==> Unpaid(xs)[i].userId in users
  {
    var u := Unpaid(xs);
    forall i | 0 <= i < |u| ensures u[i].userId in users {
      assert u[i] in u;
      var j :| 0 <= j < |xs| && xs[j] == u[i];
    }
  }

  /** An unknown member with an unpaid interest is an unknown member among
      the unpaid interests. */
  lemma UnknownUnpaidFails(xs: seq<Interest>, users: Directory, k: int)
    requires FirstUnknown(xs, users, k)
    ensures !(forall i :: 0 <= i < |Unpaid(xs)| ==> Unpaid(xs)[i].userId in users)
  {
    var u := Unpaid(xs);
    assert xs[k] in xs;
    assert xs[k] in u;
    var i :| 0 <= i < |u| && u[i] == xs[k];
  }

  /** `remindPayment`: reminders with the stored buy's name to the members
      whose interest is unpaid. The buy is read after the first unpaid
      member's lookup, so a missing buy ends the request before any
      reminder unless nobody owes anything. */
  method RemindPayment(s: Store, users: Directory, post: PostAction) returns (r: Response)
    ensures r.store == s
    ensures var xs := Unpaid(GetInterestsOfBuy(s, post.context.channelId, post.context.buyId));
            var buy := GetBuyEntity(s, post.context.channelId, post.context.buyId);
            && (xs == [] ==> !r.failed && r.effects == [])
            && (xs != [] && buy.None? ==> r.failed && r.effects == [])
            && (xs != [] && buy.Some? ==>
                  && (!r.failed <==> forall i :: 0 <= i < |xs| ==> xs[i].userId in users)
                  && (!r.failed ==> r.effects == Reminders(xs, Str(buy.value.name))))
    ensures var all := GetInterestsOfBuy(s, post.context.channelId, post.context.buyId);
            var buy := GetBuyEntity(s, post.context.channelId, post.context.buyId);
            buy.Some? && r.failed ==>
              exists k :: FirstUnknown(all, users, k) && r.effects == Reminders(Unpaid(all[..k]), Str(buy.value.name))
  {
    var interests := GetInterestsOfBuy(s, post.context.channelId, post.context.buyId);
    var buy := GetBuyEntity(s, post.context.channelId, post.context.buyId);
    if Unpaid(interests) != [] && buy.None? {
      return Crash(s, []);
    }
    var name := if buy.Some? then Str(buy.value.name) else Lit("");
    var effects, failed := Remind(users, interests, name);
    r := Response(s, effects, failed);
  }
}
