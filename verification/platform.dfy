/**
 * What a request handler sees of the chat platform: the shapes of incoming
 * button clicks and dialog submissions, the user directory, and the calls a
 * handler makes on the platform, recorded as effects in call order.
 */
module Platform {
  import opened Wrappers
  import opened Js
  import opened Entities
  import opened Storage
  import opened MessageBuilder
  import opened DialogBuilder

  /** The bot's own externally reachable base URL (`BOT_URL`); every
      callback URL is built from it. */
  const BotUrl: string := "https://bot.invalid"

  /** One call made on the chat platform. */
  datatype Effect =
    | PostMessage(channelId: string, message: Message)
    | Ephemeral(channelId: string, userId: string, text: Text)
    | DirectMessage(userId: string, message: Message)
    | OpenDialog(triggerId: string, dialog: Dialog, url: string)
    | RemoveBotReactions(postId: string)
    | AddReaction(postId: string, emoji: string)

  /** The outcome of one request: the store afterwards, the platform calls
      made in order, and whether the handler ended in an unhandled
      exception (the writes and calls made before it stay done). */
  datatype Response = Response(store: Store, effects: seq<Effect>, failed: bool)

  function Done(s: Store, effects: seq<Effect>): Response {
    Response(s, effects, false)
  }

  function Crash(s: Store, effects: seq<Effect>): Response {
    Response(s, effects, true)
  }

  /** The platform's user directory: the user name of every known id. */
  type Directory = map<string, string>

  /** `getUser`; the lookup of an unknown id throws (absent here). */
  function GetUser(users: Directory, id: string): (r: Option<User>)
    ensures r.Some? <==> id in users
    ensures r.Some? ==> r.value.id == id && r.value.username == users[id]
  {
    if id in users then Some(User(id, users[id])) else None
  }

  /** The identifiers a button's context carries back to its handler. */
  datatype ActionContext = ActionContext(channelId: string, buyId: string, userId: string, buyName: Option<string>)

  /** A button click as posted back by the platform. */
  datatype PostAction = PostAction(
    userId: string,
    channelId: string,
    triggerId: string,
    postId: string,
    context: ActionContext)

  predicate HasString(ctx: map<string, Json>, key: string) {
    key in ctx && ctx[key].JStr?
  }

  /** Reads the identifiers back from a context object: present when the
      channel, buy and user ids are strings. */
  function DecodeContext(ctx: map<string, Json>): (r: Option<ActionContext>)
    ensures r.Some? <==> HasString(ctx, "channel_id") && HasString(ctx, "buy_id") && HasString(ctx, "user_id")
    ensures r.Some? ==> && ctx["channel_id"] == JStr(r.value.channelId)
                        && ctx["buy_id"] == JStr(r.value.buyId)
                        && ctx["user_id"] == JStr(r.value.userId)
                        && (r.value.buyName.Some? <==> HasString(ctx, "buy_name"))
  {
    if HasString(ctx, "channel_id") && HasString(ctx, "buy_id") && HasString(ctx, "user_id")
    then
      var name := if "buy_name" in ctx && ctx["buy_name"].JStr? then Some(ctx["buy_name"].s) else None;
      Some(ActionContext(ctx["channel_id"].s, ctx["buy_id"].s, ctx["user_id"].s, name))
    else None
  }

  /** A slash command invocation (only the fields the handlers read). */
  datatype SlashCommand = SlashCommand(channelId: string, userId: string, triggerId: string)

  /** A dialog submission carrying the typed form values. */
  datatype Submission<F> = Submission(state: string, userId: string, channelId: string, teamId: string, form: F)

  /** The buy dialog's values. */
  datatype BuyForm = BuyForm(
    buyName: string,
    buyDescription: Option<string>,
    unitForShares: Unit,
    shareSize: real,
    pricePerShare: real)

  /** The payment details dialog's values, each optional. */
  datatype PaymentForm = PaymentForm(paypal: Option<string>, usdcWallet: Option<string>, wiseId: Option<string>)

  /** The interest dialog's values as typed. */
  datatype InterestForm = InterestForm(shares: string, email: string)

  /** A dialog submission seen by `fromPayload`: it has no token, team
      domain, channel or user name, response URL or trigger id. */
  function SubmissionPayload<F>(sub: Submission<F>): Payload {
    Payload(None, sub.channelId, sub.userId, sub.teamId, None, None, None, None, None)
  }

  /** The notice every closed-buy guard sends. */
  const ClosedNotice: Text := [Lit("Buy is already closed. You can't edit it.")]

  /** The closed-buy guard of both revisions: when the buy under
      (channelId, buyId) is closed, the request ends with the store as it
      was and one notice to the user in `noticeChannel`; otherwise the
      guard lets the request through. */
  function ClosedGuard(s: Store, channelId: string, buyId: string, noticeChannel: string, userId: string)
    : (r: Option<Response>)
    ensures r.Some? <==> IsBuyClosed(s, channelId, buyId)
    ensures r.Some? ==> r.value.store == s && !r.value.failed
                        && r.value.effects == [Ephemeral(noticeChannel, userId, ClosedNotice)]
  {
    if IsBuyClosed(s, channelId, buyId) then Some(Done(s, [Ephemeral(noticeChannel, userId, ClosedNotice)]))
    else None
  }

  /** True when `e` is an ephemeral notice (and not a dialog, a write or a
      message to others). */
  predicate IsEphemeral(e: Effect) {
    e.Ephemeral?
  }
}
