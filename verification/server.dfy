/**
 * The request handlers of the first revision (the Express routes). Routes
 * whose bodies match a service-revision handler call that handler; the
 * rest are defined here, with the id choice of `/save-buy`, the
 * lower-cased state of `/close-buy-confirm`, `parseInt` in
 * `/save-interest` and the context-named reminder of `/remind-payment`.
 */
module Server {
  import opened Wrappers
  import opened Js
  import opened Entities
  import opened Storage
  import opened StateToken
  import opened MessageBuilder
  import DialogBuilder
  import opened Platform
  import opened BuyMessages
  import opened InterestMessages
  import BuyService
  import InterestService

  /** `/createbuy`: the empty buy dialog, whose state has no buy id. */
  function CreateBuy(s: Store, command: SlashCommand): (r: Response)
    ensures r.store == s && !r.failed && |r.effects| == 1
    ensures r.effects[0].OpenDialog? && r.effects[0].url == BotUrl + "/save-buy"
    ensures r.effects[0].dialog.state == Some(BuyState(command.channelId, None))
  {
    Done(s, [OpenDialog(command.triggerId, CreateBuyDialog(s, command.channelId, None), BotUrl + "/save-buy")])
  }

  /** The id `/save-buy` saves under: the state's `buy_id`, or the freshly
      minted id when the state has none. */
  function ChosenBuyId(state: map<string, string>, freshId: string): (id: string)
    ensures "buy_id" in state ==> id == state["buy_id"]
    ensures "buy_id" !in state ==> id == freshId
  {
    if "buy_id" in state then state["buy_id"] else freshId
  }

  /** `/save-buy`: decodes the state (an undecodable state ends the request
      untouched), chooses the id, and continues as the service `saveBuy`
      with the state's channel as the announcement channel. No closed-buy
      guard runs. */
  function SaveBuy(s: Store, users: Directory, sub: Submission<BuyForm>, freshId: string): (r: Response)
    ensures Parse(sub.state).None? || sub.userId !in users ==> r == Crash(s, [])
    ensures Parse(sub.state).Some? ==> r == SaveParsed(s, users, Parse(sub.state).value, sub, freshId)
  {
    match Parse(sub.state)
    case None => Crash(s, [])
    case Some(state) => SaveParsed(s, users, state, sub, freshId)
  }

  /** `/save-buy` once its state has parsed: the buy is stored under the
      state's buy id (or the fresh one) and announced in the state's
      channel. */
  function SaveParsed(s: Store, users: Directory, state: map<string, string>, sub: Submission<BuyForm>, freshId: string): (r: Response)
    ensures sub.userId !in users ==> r == Crash(s, [])
    ensures sub.userId in users ==>
              var id := ChosenBuyId(state, freshId);
              && !r.failed
              && GetBuyEntity(r.store, sub.channelId, id) == Some(BuyService.SubmittedBuy(sub, id))
              && (forall c, b :: BuyKey(c, b) != BuyKey(sub.channelId, id) ==>
                                   GetBuyEntity(r.store, c, b) == GetBuyEntity(s, c, b))
              && r.store.interests == s.interests
              && r.effects == [PostMessage(SavedChannel(state), SaveBuyConfirmationMessage(sub, users[sub.userId], id)),
                               DirectMessage(sub.userId, ManageMessage(sub, id))]
  {
    BuyService.SaveBuy(s, users, SavedChannel(state), ChosenBuyId(state, freshId), sub)
  }

  /** The channel `/save-buy` announces in: the state's `channel_id`, or the
      empty id when the state has none. */
  function SavedChannel(state: map<string, string>): (c: string)
    ensures "channel_id" in state ==> c == state["channel_id"]
    ensures "channel_id" !in state ==> c == ""
  {
    if "channel_id" in state then state["channel_id"] else ""
  }

  /** `/edit-buy`: behind the guard (notice to the context's channel), the
      buy dialog for the context's buy id. */
  function EditBuy(s: Store, post: PostAction): (r: Response)
    ensures r.store == s && !r.failed && |r.effects| == 1
    ensures IsBuyClosed(s, post.context.channelId, post.context.buyId) ==>
              r.effects == [Ephemeral(post.context.channelId, post.userId, ClosedNotice)]
    ensures !IsBuyClosed(s, post.context.channelId, post.context.buyId) ==>
              r.effects == [OpenDialog(post.triggerId, CreateBuyDialog(s, post.context.channelId, Some(post.context.buyId)),
                                       BotUrl + "/save-buy")]
  {
    var ctx := post.context;
    match ClosedGuard(s, ctx.channelId, ctx.buyId, ctx.channelId, post.userId)
    case Some(stop) => stop
    case None =>
      Done(s, [OpenDialog(post.triggerId, CreateBuyDialog(s, ctx.channelId, Some(ctx.buyId)), BotUrl + "/save-buy")])
  }

  /** Submitting an edit dialog stores the buy under the buy id the dialog
      was opened for, but in the channel the dialog is submitted from. The
      panel carrying the Edit button arrives by direct message, so an edit
      is usually submitted from the direct channel: the announced buy is
      then left as it was and a second record appears beside it. */
  lemma EditThenSaveKeepsId(s: Store, users: Directory, post: PostAction, sub: Submission<BuyForm>, freshId: string)
    requires Plain(post.context.channelId) && Plain(post.context.buyId)
    requires !IsBuyClosed(s, post.context.channelId, post.context.buyId)
    requires sub.state == EditBuy(s, post).effects[0].dialog.state.value
    requires sub.userId in users
    requires BuyKey(post.context.channelId, post.context.buyId) in s.buys
    ensures var r := SaveBuy(s, users, sub, freshId);
            && GetBuyEntity(r.store, sub.channelId, post.context.buyId)
               == Some(BuyService.SubmittedBuy(sub, post.context.buyId))
            && r.store.buys.Keys == s.buys.Keys + {BuyKey(sub.channelId, post.context.buyId)}
            && (sub.channelId == post.context.channelId ==> r.store.buys.Keys == s.buys.Keys)
            && (sub.channelId != post.context.channelId ==>
                  GetBuyEntity(r.store, post.context.channelId, post.context.buyId)
                  == GetBuyEntity(s, post.context.channelId, post.context.buyId))
  {
    var ctx := post.context;
    assert sub.state == BuyState(ctx.channelId, Some(ctx.buyId));
    BuyStateRoundTrip(ctx.channelId, Some(ctx.buyId));
    var state := Parse(sub.state).value;
    assert ChosenBuyId(state, freshId) == ctx.buyId;
    var r := SaveParsed(s, users, state, sub, freshId);
    assert SaveBuy(s, users, sub, freshId) == r;
    WriteAddsKey(s, r.store, BuyKey(sub.channelId, ctx.buyId), BuyKey(ctx.channelId, ctx.buyId));
  }

  /** A store that differs from `s` only at the key `k`, which it holds,
      has the buy keys of `s` and `k`: no new key when `k` was there
      already, and any other stored key `k0` keeps its record. */
  lemma WriteAddsKey(s: Store, s': Store, k: BuyKey, k0: BuyKey)
    requires k in s'.buys && k0 in s.buys
    requires forall c, b :: BuyKey(c, b) != k ==> GetBuyEntity(s', c, b) == GetBuyEntity(s, c, b)
    ensures s'.buys.Keys == s.buys.Keys + {k}
    ensures k == k0 ==> s'.buys.Keys == s.buys.Keys
    ensures k != k0 ==> GetBuyEntity(s', k0.channelId, k0.buyId) == GetBuyEntity(s, k0.channelId, k0.buyId)
  {
    forall x | x in s'.buys.Keys ensures x in s.buys.Keys + {k} {
      if x != k {
        assert GetBuyEntity(s', x.channelId, x.buyId) == GetBuyEntity(s, x.channelId, x.buyId);
      }
    }
    forall x | x in s.buys.Keys + {k} ensures x in s'.buys.Keys {
      if x != k {
        assert GetBuyEntity(s', x.channelId, x.buyId) == GetBuyEntity(s, x.channelId, x.buyId);
      }
    }
    if k == k0 {
      assert s.buys.Keys + {k} == s.buys.Keys;
    }
  }

  /** A concrete edit from the panel's direct channel: the buy announced
      in "ch" keeps its old price, and a second record appears under "dm". */
  lemma EditFromPanelSplitsBuy()
    ensures var b := Buy("ch", "b1", "u", "Oil", Ml, 10.0, 5.0, None, None, None, None, None, None);
            var s := PutBuy(EmptyStore, b);
            var sub := Submission(BuyState("ch", Some("b1")), "u", "dm", "team", BuyForm("Oil", None, Ml, 10.0, 6.0));
            var r := SaveBuy(s, map["u" := "user"], sub, "fresh").store;
            && GetBuyEntity(r, "ch", "b1") == Some(b)
            && GetBuyEntity(r, "dm", "b1") == Some(BuyService.SubmittedBuy(sub, "b1"))
  {
    BuyStateRoundTrip("ch", Some("b1"));
  }

  /** The submission as if made in the channel its state names. */
  function InStateChannel(sub: Submission<BuyForm>, state: map<string, string>): Submission<BuyForm> {
    sub.(channelId := SavedChannel(state))
  }

  /** `/save-buy` as evidently intended: the buy is stored, and its buttons
      point, in the channel the state names (the channel the buy was
      created in, as `/close-buy-confirm` reads it), wherever the dialog
      was submitted from. */
  function StateChannelSaveBuy(s: Store, users: Directory, sub: Submission<BuyForm>, freshId: string): (r: Response)
    ensures Parse(sub.state).None? || sub.userId !in users ==> r == Crash(s, [])
    ensures Parse(sub.state).Some? && sub.userId in users ==>
              var state := Parse(sub.state).value;
              var id := ChosenBuyId(state, freshId);
              var c := SavedChannel(state);
              && !r.failed
              && GetBuyEntity(r.store, c, id) == Some(BuyService.SubmittedBuy(sub.(channelId := c), id))
              && (forall c', b :: BuyKey(c', b) != BuyKey(c, id) ==> GetBuyEntity(r.store, c', b) == GetBuyEntity(s, c', b))
              && r.store.interests == s.interests
              && r.effects == [PostMessage(c, SaveBuyConfirmationMessage(sub.(channelId := c), users[sub.userId], id)),
                               DirectMessage(sub.userId, ManageMessage(sub.(channelId := c), id))]
  {
    match Parse(sub.state)
    case None => Crash(s, [])
    case Some(state) => SaveParsed(s, users, state, InStateChannel(sub, state), freshId)
  }

  /** With the state's channel, submitting an edit dialog from any channel
      overwrites the buy it was opened for and adds no buy key. */
  lemma StateChannelEditKeepsId(s: Store, users: Directory, post: PostAction, sub: Submission<BuyForm>, freshId: string)
    requires Plain(post.context.channelId) && Plain(post.context.buyId)
    requires !IsBuyClosed(s, post.context.channelId, post.context.buyId)
    requires sub.state == EditBuy(s, post).effects[0].dialog.state.value
    requires sub.userId in users
    requires BuyKey(post.context.channelId, post.context.buyId) in s.buys
    ensures var r := StateChannelSaveBuy(s, users, sub, freshId);
            && GetBuyEntity(r.store, post.context.channelId, post.context.buyId)
               == Some(BuyService.SubmittedBuy(sub.(channelId := post.context.channelId), post.context.buyId))
            && r.store.buys.Keys == s.buys.Keys
  {
    var ctx := post.context;
    assert sub.state == BuyState(ctx.channelId, Some(ctx.buyId));
    BuyStateRoundTrip(ctx.channelId, Some(ctx.buyId));
    var state := Parse(sub.state).value;
    assert ChosenBuyId(state, freshId) == ctx.buyId && SavedChannel(state) == ctx.channelId;
    var r := SaveParsed(s, users, state, InStateChannel(sub, state), freshId);
    assert StateChannelSaveBuy(s, users, sub, freshId) == r;
    WriteAddsKey(s, r.store, BuyKey(ctx.channelId, ctx.buyId), BuyKey(ctx.channelId, ctx.buyId));
  }

  /** Creating a buy and submitting the dialog saves under the fresh id. */
  lemma CreateThenSaveMintsId(s: Store, users: Directory, command: SlashCommand, sub: Submission<BuyForm>,
                              freshId: string)
    requires Plain(command.channelId)
    requires sub.state == CreateBuy(s, command).effects[0].dialog.state.value
    requires sub.userId in users
    ensures GetBuyEntity(SaveBuy(s, users, sub, freshId).store, sub.channelId, freshId)
            == Some(BuyService.SubmittedBuy(sub, freshId))
  {
    BuyStateRoundTrip(command.channelId, None);
  }

  /** Saving over a closed buy reopens it: the closed flag and the payment
      details are gone. */
  lemma SaveBuyReopensClosedBuy(s: Store, users: Directory, sub: Submission<BuyForm>, freshId: string)
    requires Parse(sub.state).Some? && "buy_id" in Parse(sub.state).value
    requires IsBuyClosed(s, sub.channelId, Parse(sub.state).value["buy_id"])
    requires sub.userId in users
    ensures var id := Parse(sub.state).value["buy_id"];
            var b := GetBuyEntity(SaveBuy(s, users, sub, freshId).store, sub.channelId, id);
            && !IsBuyClosed(SaveBuy(s, users, sub, freshId).store, sub.channelId, id)
            && b.Some? && b.value.paypal.None? && b.value.usdcWallet.None? && b.value.wiseId.None?
  {
  }

  /** A concrete closed buy and a stale edit submission that reopens it. */
  lemma SaveBuyReopensExample()
    ensures var closed := Buy("ch", "b1", "u", "Oil", Ml, 10.0, 5.0, None, Some(true), Some(Instant(0)),
                              Some("pp"), None, None);
            var s := PutBuy(EmptyStore, closed);
            var sub := Submission(BuyState("ch", Some("b1")), "u", "ch", "team", BuyForm("Oil", None, Ml, 10.0, 5.0));
            IsBuyClosed(s, "ch", "b1") && !IsBuyClosed(SaveBuy(s, map["u" := "user"], sub, "fresh").store, "ch", "b1")
  {
    var sub := Submission(BuyState("ch", Some("b1")), "u", "ch", "team", BuyForm("Oil", None, Ml, 10.0, 5.0));
    BuyStateRoundTrip("ch", Some("b1"));
  }

  /** `/save-buy` with the closed-buy guard it evidently lacks, on top of
      the state-channel save: a closed buy is left as it is and the
      submitter told so. */
  function GuardedSaveBuy(s: Store, users: Directory, sub: Submission<BuyForm>, freshId: string): (r: Response)
    ensures Parse(sub.state).Some? &&
            IsBuyClosed(s, SavedChannel(Parse(sub.state).value), ChosenBuyId(Parse(sub.state).value, freshId)) ==>
              r == Done(s, [Ephemeral(sub.channelId, sub.userId, ClosedNotice)])
    ensures !(Parse(sub.state).Some? &&
              IsBuyClosed(s, SavedChannel(Parse(sub.state).value), ChosenBuyId(Parse(sub.state).value, freshId))) ==>
              r == StateChannelSaveBuy(s, users, sub, freshId)
  {
    match Parse(sub.state)
    case None => StateChannelSaveBuy(s, users, sub, freshId)
    case Some(state) =>
      match ClosedGuard(s, SavedChannel(state), ChosenBuyId(state, freshId), sub.channelId, sub.userId)
      case Some(stop) => stop
      case None => StateChannelSaveBuy(s, users, sub, freshId)
  }

  /** With the guard, a closed buy stays closed across any submission. */
  lemma ClosedBuyStaysClosed(s: Store, users: Directory, sub: Submission<BuyForm>, freshId: string,
                             channelId: string, buyId: string)
    requires IsBuyClosed(s, channelId, buyId)
    ensures IsBuyClosed(GuardedSaveBuy(s, users, sub, freshId).store, channelId, buyId)
  {
    var r := GuardedSaveBuy(s, users, sub, freshId);
    match Parse(sub.state)
    case None =>
      assert r.store == s;
    case Some(state) =>
      var id := ChosenBuyId(state, freshId);
      var sub' := InStateChannel(sub, state);
      if IsBuyClosed(s, sub'.channelId, id) || sub.userId !in users {
        assert r.store == s;
      } else {
        assert r == StateChannelSaveBuy(s, users, sub, freshId);
        assert r == SaveParsed(s, users, state, sub', freshId);
        if channelId == sub'.channelId && buyId == id {
          assert false;
        }
        SaveParsedKeepsOthers(s, users, state, sub', freshId, channelId, buyId);
      }
  }

  /** A parsed save touches only the chosen key. */
  lemma SaveParsedKeepsOthers(s: Store, users: Directory, state: map<string, string>, sub: Submission<BuyForm>,
                              freshId: string, channelId: string, buyId: string)
    requires sub.userId in users && BuyKey(channelId, buyId) != BuyKey(sub.channelId, ChosenBuyId(state, freshId))
    ensures IsBuyClosed(SaveParsed(s, users, state, sub, freshId).store, channelId, buyId) == IsBuyClosed(s, channelId, buyId)
  {
    assert GetBuyEntity(SaveParsed(s, users, state, sub, freshId).store, channelId, buyId) == GetBuyEntity(s, channelId, buyId);
  }

  /** `/close-buy`: behind the guard (notice to the context's channel), the
      payment details dialog. */
  function CloseBuy(s: Store, post: PostAction): (r: Response)
    ensures r.store == s && !r.failed && |r.effects| == 1
    ensures IsBuyClosed(s, post.context.channelId, post.context.buyId) ==>
              r.effects == [Ephemeral(post.context.channelId, post.userId, ClosedNotice)]
    ensures !IsBuyClosed(s, post.context.channelId, post.context.buyId) ==>
              r.effects == [OpenDialog(post.triggerId, PaymentDetailsDialog(post.context.channelId, post.context.buyId),
                                       BotUrl + "/close-buy-confirm")]
  {
    var ctx := post.context;
    match ClosedGuard(s, ctx.channelId, ctx.buyId, ctx.channelId, post.userId)
    case Some(stop) => stop
    case None =>
      Done(s, [OpenDialog(post.triggerId, PaymentDetailsDialog(ctx.channelId, ctx.buyId), BotUrl + "/close-buy-confirm")])
  }

  /** `/close-buy-confirm`: lower-cases the state, decodes both ids (an
      undecodable state or a missing id ends the request untouched) and
      closes that buy as the service `confirmCloseBuy` does. */
  function CloseBuyConfirm(s: Store, sub: Submission<PaymentForm>, now: Instant): (r: Response)
    ensures var st := Parse(ToLower(sub.state));
            st.None? || "channel_id" !in st.value || "buy_id" !in st.value ==> r == Crash(s, [])
    ensures var st := Parse(ToLower(sub.state));
            st.Some? && "channel_id" in st.value && "buy_id" in st.value ==>
              r == BuyService.ConfirmCloseBuy(s, sub, st.value["channel_id"], st.value["buy_id"], now)
  {
    match Parse(ToLower(sub.state))
    case None => Crash(s, [])
    case Some(state) =>
      if "channel_id" in state && "buy_id" in state
      then BuyService.ConfirmCloseBuy(s, sub, state["channel_id"], state["buy_id"], now)
      else Crash(s, [])
  }

  /** Submitting the payment details dialog closes the buy it was opened
      for, under the lower-cased ids; these are the original ids exactly
      when neither has an upper-case letter. */
  lemma CloseDialogClosesItsBuy(s: Store, post: PostAction, sub: Submission<PaymentForm>, now: Instant)
    requires Plain(post.context.channelId) && Plain(post.context.buyId)
    requires !IsBuyClosed(s, post.context.channelId, post.context.buyId)
    requires sub.state == CloseBuy(s, post).effects[0].dialog.state.value
    ensures CloseBuyConfirm(s, sub, now)
            == BuyService.ConfirmCloseBuy(s, sub, ToLower(post.context.channelId), ToLower(post.context.buyId), now)
    ensures NoUpper(post.context.channelId) && NoUpper(post.context.buyId) ==>
              CloseBuyConfirm(s, sub, now) == BuyService.ConfirmCloseBuy(s, sub, post.context.channelId, post.context.buyId, now)
  {
    var ctx := post.context;
    assert sub.state == PaymentState(ctx.channelId, ctx.buyId);
    LowercasedPaymentState(ctx.channelId, ctx.buyId);
    var st := Parse(ToLower(sub.state)).value;
    assert st["channel_id"] == ToLower(ctx.channelId) && st["buy_id"] == ToLower(ctx.buyId);
    ToLowerIdentity(ctx.channelId);
    ToLowerIdentity(ctx.buyId);
  }

  /** `/interest`: behind the guard (notice to the context's channel), the
      first revision's interest dialog. */
  function Interest(s: Store, post: PostAction): (r: Response)
    ensures r.store == s && !r.failed && |r.effects| == 1
    ensures IsBuyClosed(s, post.context.channelId, post.context.buyId) ==>
              r.effects == [Ephemeral(post.context.channelId, post.userId, ClosedNotice)]
    ensures !IsBuyClosed(s, post.context.channelId, post.context.buyId) ==>
              r.effects == [OpenDialog(post.triggerId, LegacyInterestDialog(s, post), BotUrl + "/save-interest")]
  {
    var ctx := post.context;
    match ClosedGuard(s, ctx.channelId, ctx.buyId, ctx.channelId, post.userId)
    case Some(stop) => stop
    case None => Done(s, [OpenDialog(post.triggerId, LegacyInterestDialog(s, post), BotUrl + "/save-interest")])
  }

  const LegacyMarkedLine: string := "You have marked your interest with"

  /** The acknowledgement of `/save-interest` (the template has no space
      before the share count). */
  function LegacySavedNotice(form: InterestForm): Text {
    [Lit(LegacyMarkedLine), Str(form.shares), Lit(EmailLine), Str(form.email), Lit(InterestService.EditAgainLine)]
  }

  /** `/save-interest`: behind the guard, stores `parseInt(shares, 10)` (a
      fraction or exponent is cut off, input without a digit after the
      optional sign stores NaN) with
      the email under (channel, user, state), then acknowledges. */
  function SaveInterest(s: Store, sub: Submission<InterestForm>): (r: Response)
    ensures !r.failed && |r.effects| == 1
    ensures IsBuyClosed(s, sub.channelId, sub.state) ==>
              r.store == s && r.effects == [Ephemeral(sub.channelId, sub.userId, ClosedNotice)]
    ensures !IsBuyClosed(s, sub.channelId, sub.state) ==>
              var k := InterestKeyFor(sub.channelId, sub.userId, sub.state);
              && k in r.store.interests
              && r.store.interests[k] == Entities.Interest(ParseInt(sub.form.shares), sub.form.email, sub.userId,
                                                           sub.state, sub.channelId, None)
              && (forall k' :: k' != k ==> (k' in r.store.interests <==> k' in s.interests))
              && (forall k' :: k' != k && k' in s.interests ==> r.store.interests[k'] == s.interests[k'])
              && r.store.buys == s.buys
              && r.effects == [Ephemeral(sub.channelId, sub.userId, LegacySavedNotice(sub.form))]
  {
    match ClosedGuard(s, sub.channelId, sub.state, sub.channelId, sub.userId)
    case Some(stop) => stop
    case None =>
      var s' := Storage.SaveInterest(s, sub.channelId, sub.userId, sub.state, ParseInt(sub.form.shares), sub.form.email, None);
      Done(s', [Ephemeral(sub.channelId, sub.userId, LegacySavedNotice(sub.form))])
  }

  /** Without an exponent part, the first revision stores what was typed
      truncated toward zero. */
  lemma SaveInterestTruncates(s: Store, sub: Submission<InterestForm>)
    requires !IsBuyClosed(s, sub.channelId, sub.state)
    requires ParseInt(sub.form.shares).Finite? && !HasExponent(sub.form.shares)
    ensures var k := InterestKeyFor(sub.channelId, sub.userId, sub.state);
            SaveInterest(s, sub).store.interests[k].shares
              == Finite(Trunc(ParseFloat(sub.form.shares).value) as real)
  {
    ParseIntTruncatesParseFloat(sub.form.shares);
  }

  /** On a share count that `parseInt` reads and `parseFloat` reads as a
      whole number, without an exponent part, both revisions store the
      same record. */
  lemma RevisionsAgreeOnWholeShares(s: Store, sub: Submission<InterestForm>)
    requires ParseInt(sub.form.shares).Finite? && IsInteger(ParseFloat(sub.form.shares))
    requires !HasExponent(sub.form.shares)
    ensures SaveInterest(s, sub).store == InterestService.SaveInterest(s, sub).store
  {
    var shares := sub.form.shares;
    ParseIntTruncatesParseFloat(shares);
    TruncOfWhole(ParseFloat(shares).value);
    assert ParseInt(shares) == ParseFloat(shares);
  }

  /** With an exponent part the revisions store different counts: for
      "2e1" the first revision stores 2 and the service revision 20. */
  lemma RevisionsDisagreeOnExponent(s: Store, sub: Submission<InterestForm>)
    requires !IsBuyClosed(s, sub.channelId, sub.state) && sub.form.shares == "2e1"
    ensures var k := InterestKeyFor(sub.channelId, sub.userId, sub.state);
            var first := SaveInterest(s, sub).store;
            var service := InterestService.SaveInterest(s, sub).store;
            && k in first.interests && first.interests[k].shares == Finite(2.0)
            && k in service.interests && service.interests[k].shares == Finite(20.0)
  {
    ExponentSplitsParsers();
  }

  /** `/mark-payed`: as the service `markPayed`, except that the request
      names the channel of the click's context instead of the interest's
      own channel. */
  function MarkPayed(s: Store, users: Directory, post: PostAction): (r: Response)
    ensures r.store == s
    ensures var buy := GetBuyEntity(s, post.context.channelId, post.context.buyId);
            !r.failed <==> && post.userId in users && buy.Some? && buy.value.creatorUserId in users
                           && GetInterestOfUser(s, post.context.channelId, buy.value.buyId, post.userId).Some?
    ensures r.failed ==> r.effects == []
    ensures !r.failed ==>
              var buy := GetBuyEntity(s, post.context.channelId, post.context.buyId).value;
              var interest := GetInterestOfUser(s, post.context.channelId, buy.buyId, post.userId).value;
              r.effects == [DirectMessage(buy.creatorUserId,
                                          PaymentConfirmationMessage(interest, buy, User(post.userId, users[post.userId]),
                                                                     post.context.channelId)),
                            DirectMessage(post.userId, Build(SetText(NewMessage, PaymentReportedThanks)))]
  {
    var ctx := post.context;
    match GetUser(users, post.userId)
    case None => Crash(s, [])
    case Some(buyer) =>
      match GetBuyEntity(s, ctx.channelId, ctx.buyId)
      case None => Crash(s, [])
      case Some(buy) =>
        match GetUser(users, buy.creatorUserId)
        case None => Crash(s, [])
        case Some(organizer) =>
          match GetInterestOfUser(s, ctx.channelId, buy.buyId, buyer.id)
          case None => Crash(s, [])
          case Some(interest) =>
            Done(s, [DirectMessage(organizer.id, PaymentConfirmationMessage(interest, buy, buyer, ctx.channelId)),
                     DirectMessage(buyer.id, Build(SetText(NewMessage, PaymentReportedThanks)))])
  }

  /** The two revisions of `markPayed` agree as long as no stored channel
      id contains a colon: the interest found is stored under the click's
      channel, so its own channel is that channel. */
  lemma MarkPayedRevisionsAgree(s: Store, users: Directory, post: PostAction)
    requires ':' !in post.context.channelId
    requires forall k :: k in s.interests ==> ':' !in s.interests[k].channelId
    ensures MarkPayed(s, users, post) == InterestService.MarkPayed(s, users, post)
  {
    var ctx := post.context;
    var buy := GetBuyEntity(s, ctx.channelId, ctx.buyId);
    if post.userId in users && buy.Some? {
      var found := GetInterestOfUser(s, ctx.channelId, buy.value.buyId, post.userId);
      if found.Some? {
        var k := InterestKeyFor(ctx.channelId, post.userId, buy.value.buyId);
        assert s.interests[k] == found.value;
        PartitionKeyInjective(found.value.channelId, found.value.userId, ctx.channelId, post.userId);
      }
    }
  }

  /** The organizer's confirm button leads back to the interest the
      member reported: confirming looks up exactly that record. */
  lemma MarkPayedButtonsFindTheInterest(s: Store, users: Directory, post: PostAction)
    requires !MarkPayed(s, users, post).failed
    ensures var req := MarkPayed(s, users, post).effects[0].message;
            |AttachmentsOf(req)| == 1 && |ActionsOf(AttachmentsOf(req)[0])| == 2 &&
            var ctx := DecodeContext(ActionsOf(AttachmentsOf(req)[0])[0].context);
            && ctx.Some?
            && GetInterestOfUser(s, ctx.value.channelId, ctx.value.buyId, ctx.value.userId)
               == GetInterestOfUser(s, post.context.channelId, GetBuyEntity(s, post.context.channelId, post.context.buyId).value.buyId, post.userId)
  {
  }

  /** `/interestlist`: the body of the service's `showInterestList`. */
  function InterestList(s: Store, users: Directory, post: PostAction): (r: Response)
    ensures r.store == s
    ensures var xs := GetInterestsOfBuy(s, post.context.channelId, post.context.buyId);
            && (!r.failed <==> forall i :: 0 <= i < |xs| ==> xs[i].userId in users)
            && (r.failed ==> r.effects == [])
            && (!r.failed ==> |r.effects| == 1 && r.effects[0].Ephemeral?
                              && r.effects[0].channelId == post.channelId && r.effects[0].userId == post.userId
                              && |r.effects[0].text| >= 1 && r.effects[0].text[0] == Lit(ListHeader)
                              && (|xs| == 0 ==> r.effects[0].text == [Lit(ListHeader)])
                              && (|xs| > 0 ==>
                                    var lines := SplitLines(r.effects[0].text[1..]);
                                    && |lines| == |xs|
                                    && forall i :: 0 <= i < |xs| ==> lines[i] == InterestRow(users[xs[i].userId], xs[i])))
  {
    InterestService.ShowInterestList(s, users, post)
  }

  /** `/confirm-payment`: the body of the service's `confirmPayment`, so the
      payed record is written under the clicking user as well. */
  function ConfirmPayment(s: Store, post: PostAction): (r: Response)
    ensures InterestService.BuyerInterest(s, post).None? ==> r == Crash(s, [])
    ensures InterestService.BuyerInterest(s, post).Some? ==>
              && r.store == InterestService.RecordDecision(s, post, InterestService.BuyerInterest(s, post).value, post.userId, true)
              && |r.effects| >= 1
              && r.effects[0] == DirectMessage(post.context.userId, InterestService.TextMessage(InterestService.ConfirmationThanks))
              && (r.failed <==> GetBuyEntity(s, post.context.channelId, post.context.buyId).None?)
  {
    InterestService.ConfirmPayment(s, post)
  }

  /** `/reject-payment`: the body of the service's `rejectPayment`, written
      under the clicking user; an unknown buyer fails after the write. */
  function RejectPayment(s: Store, users: Directory, post: PostAction): (r: Response)
    ensures InterestService.BuyerInterest(s, post).None? ==> r == Crash(s, [])
    ensures InterestService.BuyerInterest(s, post).Some? ==>
              && r.store == InterestService.RecordDecision(s, post, InterestService.BuyerInterest(s, post).value, post.userId, false)
              && (r.failed <==> post.context.userId !in users)
              && (!r.failed ==> |r.effects| == 4 && r.effects[3] == AddReaction(post.postId, "x"))
  {
    InterestService.RejectPayment(s, users, post)
  }

  /** `/remind-payment`: reminders to the members whose interest is
      unpaid, naming the buy by the context's `buy_name`. */
  method RemindPayment(s: Store, users: Directory, post: PostAction) returns (r: Response)
    ensures r.store == s
    ensures var xs := BuyService.Unpaid(GetInterestsOfBuy(s, post.context.channelId, post.context.buyId));
            && (!r.failed <==> forall i :: 0 <= i < |xs| ==> xs[i].userId in users)
            && (!r.failed ==> r.effects == BuyService.Reminders(xs, OptPiece(post.context.buyName)))
    ensures var all := GetInterestsOfBuy(s, post.context.channelId, post.context.buyId);
            r.failed ==> exists k :: BuyService.FirstUnknown(all, users, k)
                                     && r.effects == BuyService.Reminders(BuyService.Unpaid(all[..k]), OptPiece(post.context.buyName))
  {
    var interests := GetInterestsOfBuy(s, post.context.channelId, post.context.buyId);
    var effects, failed := BuyService.Remind(users, interests, OptPiece(post.context.buyName));
    r := Response(s, effects, failed);
  }

  /** No button carries a `buy_name`: a reminder sent from the management
      panel's button names the buy "undefined". */
  lemma ReminderFromPanelSaysUndefined(sub: Submission<BuyForm>, buyId: string, ctx: ActionContext)
    requires Some(ctx) == DecodeContext(ActionsOf(AttachmentsOf(ManageMessage(sub, buyId))[0])[3].context)
    ensures BuyService.ReminderMessage(OptPiece(ctx.buyName)).text
            == Some([Lit(BuyService.ReminderLine), Lit("undefined"), Lit("**")])
  {
  }
}
