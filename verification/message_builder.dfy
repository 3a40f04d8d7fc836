/**
 * Outbound chat messages and the fluent builders that assemble them. Each
 * builder call is a pure function from the message (or attachment) built
 * so far to the next one.
 */
module MessageBuilder {
  import opened Wrappers
  import opened Js

  datatype Style = Primary | Success | Danger | Default

  datatype DataSource = Users | Channels | Options

  /** An interactive action: a button, or a select menu. Its integration is
      the callback URL and the context object posted back on use. */
  datatype Action =
    | Button(id: string, name: string, url: string, context: map<string, Json>, style: Option<Style>)
    | Menu(id: string, name: string, url: string, context: map<string, Json>, dataSource: DataSource)
  {
    /** The action's `type` field. */
    function Type(): string {
      if Button? then "button" else "select"
    }
  }

  datatype Field = Field(title: string, value: string, short: bool)

  datatype Attachment = Attachment(
    pretext: Option<Text>,
    text: Option<Text>,
    color: Option<string>,
    fields: Option<seq<Field>>,
    imageUrl: Option<string>,
    actions: Option<seq<Action>>)

  datatype Message = Message(
    text: Option<Text>,
    attachments: Option<seq<Attachment>>,
    props: Option<map<string, Json>>)

  /** The fields `fromPayload` copies. A slash command payload carries all of
      them; a dialog submission only the channel, user and team. */
  datatype Payload = Payload(
    token: Option<string>,
    channelId: string,
    userId: string,
    teamId: string,
    teamDomain: Option<string>,
    channelName: Option<string>,
    userName: Option<string>,
    responseUrl: Option<string>,
    triggerId: Option<string>)

  /** The nine props `fromPayload` writes. */
  const PayloadKeys: set<string> :=
    {"token", "channel_id", "user_id", "team_id", "team_domain",
     "channel_name", "user_name", "response_url", "trigger_id"}

  const NewMessage: Message := Message(None, None, None)

  function AttachmentsOf(m: Message): seq<Attachment> {
    m.attachments.GetOr([])
  }

  function PropsOf(m: Message): map<string, Json> {
    m.props.GetOr(map[])
  }

  /** `text`: replaces the text and nothing else. */
  function SetText(m: Message, t: Text): (r: Message)
    ensures r.text == Some(t)
    ensures r.(text := m.text) == m
  {
    m.(text := Some(t))
  }

  /** `attachment`: appends one built attachment after the earlier ones. */
  function AddAttachment(m: Message, a: Attachment): (r: Message)
    ensures r.attachments.Some? && AttachmentsOf(r) == AttachmentsOf(m) + [a]
    ensures r.text == m.text && r.props == m.props
  {
    m.(attachments := Some(AttachmentsOf(m) + [a]))
  }

  /** `prop`: sets one prop, last write wins, other props unchanged. */
  function Prop(m: Message, key: string, value: Json): (r: Message)
    ensures r.props.Some? && key in PropsOf(r) && PropsOf(r)[key] == value
    ensures PropsOf(r).Keys == PropsOf(m).Keys + {key}
    ensures forall k :: k in PropsOf(m) && k != key ==> PropsOf(r)[k] == PropsOf(m)[k]
    ensures r.text == m.text && r.attachments == m.attachments
  {
    m.(props := Some(PropsOf(m)[key := value]))
  }

  /** `channelId`: sets the `channel_id` prop. */
  function ChannelId(m: Message, channelId: string): (r: Message)
    ensures "channel_id" in PropsOf(r) && PropsOf(r)["channel_id"] == JStr(channelId)
    ensures PropsOf(r).Keys == PropsOf(m).Keys + {"channel_id"}
    ensures forall k :: k in PropsOf(m) && k != "channel_id" ==> PropsOf(r)[k] == PropsOf(m)[k]
    ensures r.text == m.text && r.attachments == m.attachments
  {
    Prop(m, "channel_id", JStr(channelId))
  }

  /** `userId`: sets the `user_id` prop. */
  function UserId(m: Message, userId: string): (r: Message)
    ensures "user_id" in PropsOf(r) && PropsOf(r)["user_id"] == JStr(userId)
    ensures PropsOf(r).Keys == PropsOf(m).Keys + {"user_id"}
    ensures forall k :: k in PropsOf(m) && k != "user_id" ==> PropsOf(r)[k] == PropsOf(m)[k]
    ensures r.text == m.text && r.attachments == m.attachments
  {
    Prop(m, "user_id", JStr(userId))
  }

  /** `teamId`: sets the `team_id` prop. */
  function TeamId(m: Message, teamId: string): (r: Message)
    ensures "team_id" in PropsOf(r) && PropsOf(r)["team_id"] == JStr(teamId)
    ensures PropsOf(r).Keys == PropsOf(m).Keys + {"team_id"}
    ensures forall k :: k in PropsOf(m) && k != "team_id" ==> PropsOf(r)[k] == PropsOf(m)[k]
    ensures r.text == m.text && r.attachments == m.attachments
  {
    Prop(m, "team_id", JStr(teamId))
  }

  /** `fromPayload`: overwrites exactly the nine payload props (absent
      payload fields become `undefined`) and keeps every other prop. */
  function FromPayload(m: Message, p: Payload): (r: Message)
    ensures r.props.Some? && PropsOf(r).Keys == PropsOf(m).Keys + PayloadKeys
    ensures forall k :: k in PropsOf(m) && k !in PayloadKeys ==> PropsOf(r)[k] == PropsOf(m)[k]
    ensures PropsOf(r)["channel_id"] == JStr(p.channelId)
    ensures PropsOf(r)["user_id"] == JStr(p.userId)
    ensures PropsOf(r)["team_id"] == JStr(p.teamId)
    ensures PropsOf(r)["token"] == OptStr(p.token)
    ensures PropsOf(r)["team_domain"] == OptStr(p.teamDomain)
    ensures PropsOf(r)["channel_name"] == OptStr(p.channelName)
    ensures PropsOf(r)["user_name"] == OptStr(p.userName)
    ensures PropsOf(r)["response_url"] == OptStr(p.responseUrl)
    ensures PropsOf(r)["trigger_id"] == OptStr(p.triggerId)
    ensures r.text == m.text && r.attachments == m.attachments
  {
    var props := PropsOf(m)[
      "token" := OptStr(p.token)][
      "channel_id" := JStr(p.channelId)][
      "user_id" := JStr(p.userId)][
      "team_id" := JStr(p.teamId)][
      "team_domain" := OptStr(p.teamDomain)][
      "channel_name" := OptStr(p.channelName)][
      "user_name" := OptStr(p.userName)][
      "response_url" := OptStr(p.responseUrl)][
      "trigger_id" := OptStr(p.triggerId)];
    m.(props := Some(props))
  }

  /** `build`: the accumulated message, whose props always hold a `user_id`
      key (`undefined` when none was set). */
  function Build(m: Message): (r: Message)
    ensures r.text == m.text && r.attachments == m.attachments
    ensures r.props.Some? && "user_id" in PropsOf(r)
    ensures PropsOf(r).Keys == PropsOf(m).Keys + {"user_id"}
    ensures forall k :: k in PropsOf(m) ==> PropsOf(r)[k] == PropsOf(m)[k]
    ensures "user_id" !in PropsOf(m) ==> PropsOf(r)["user_id"] == JUndefined
  {
    var uid := if "user_id" in PropsOf(m) then PropsOf(m)["user_id"] else JUndefined;
    m.(props := Some(PropsOf(m)["user_id" := uid]))
  }

  // ---------------------------------------------------------------------
  // Attachments

  const NewAttachment: Attachment := Attachment(None, None, None, None, None, None)

  function ActionsOf(a: Attachment): seq<Action> {
    a.actions.GetOr([])
  }

  function FieldsOf(a: Attachment): seq<Field> {
    a.fields.GetOr([])
  }

  /** `pretext`: replaces the pretext and nothing else. */
  function Pretext(a: Attachment, t: Text): (r: Attachment)
    ensures r.pretext == Some(t) && r.(pretext := a.pretext) == a
  {
    a.(pretext := Some(t))
  }

  /** `text`: replaces the attachment text and nothing else. */
  function AttachmentText(a: Attachment, t: Text): (r: Attachment)
    ensures r.text == Some(t) && r.(text := a.text) == a
  {
    a.(text := Some(t))
  }

  /** `color`: replaces the colour and nothing else. */
  function Color(a: Attachment, hexColor: string): (r: Attachment)
    ensures r.color == Some(hexColor) && r.(color := a.color) == a
  {
    a.(color := Some(hexColor))
  }

  /** `image`: replaces the image URL and nothing else. */
  function Image(a: Attachment, url: string): (r: Attachment)
    ensures r.imageUrl == Some(url) && r.(imageUrl := a.imageUrl) == a
  {
    a.(imageUrl := Some(url))
  }

  /** `field`: appends one field after the earlier ones. */
  function AddField(a: Attachment, title: string, value: string, short: bool): (r: Attachment)
    ensures r.fields.Some? && |FieldsOf(r)| == |FieldsOf(a)| + 1
    ensures FieldsOf(r)[..|FieldsOf(a)|] == FieldsOf(a)
    ensures FieldsOf(r)[|FieldsOf(a)|] == Field(title, value, short)
    ensures r.(fields := a.fields) == a
  {
    a.(fields := Some(FieldsOf(a) + [Field(title, value, short)]))
  }

  /** `button`: appends one action of type "button" carrying the given id,
      name, URL and context. */
  function AddButton(a: Attachment, id: string, name: string, url: string,
                     context: map<string, Json>, style: Option<Style>): (r: Attachment)
    ensures r.actions.Some? && |ActionsOf(r)| == |ActionsOf(a)| + 1
    ensures ActionsOf(r)[..|ActionsOf(a)|] == ActionsOf(a)
    ensures var act := ActionsOf(r)[|ActionsOf(a)|];
            act.Type() == "button" && act.id == id && act.name == name && act.url == url
            && act.context == context && act.style == style
    ensures r.(actions := a.actions) == a
  {
    a.(actions := Some(ActionsOf(a) + [Button(id, name, url, context, style)]))
  }

  /** `menu`: appends one action of type "select" carrying the given id,
      name, data source, URL and context. */
  function AddMenu(a: Attachment, id: string, name: string, dataSource: DataSource,
                   url: string, context: map<string, Json>): (r: Attachment)
    ensures r.actions.Some? && |ActionsOf(r)| == |ActionsOf(a)| + 1
    ensures ActionsOf(r)[..|ActionsOf(a)|] == ActionsOf(a)
    ensures var act := ActionsOf(r)[|ActionsOf(a)|];
            act.Type() == "select" && act.id == id && act.name == name && act.url == url
            && act.context == context && act.Menu? && act.dataSource == dataSource
    ensures r.(actions := a.actions) == a
  {
    a.(actions := Some(ActionsOf(a) + [Menu(id, name, url, context, dataSource)]))
  }

  // ---------------------------------------------------------------------
  // How builder calls combine

  /** Setting the text twice keeps only the second text. */
  lemma SetTextLastWins(m: Message, t1: Text, t2: Text)
    ensures SetText(SetText(m, t1), t2) == SetText(m, t2)
  {
  }

  /** Setting a prop twice keeps only the second value. */
  lemma PropLastWins(m: Message, key: string, v1: Json, v2: Json)
    ensures Prop(Prop(m, key, v1), key, v2) == Prop(m, key, v2)
  {
    assert PropsOf(m)[key := v1][key := v2] == PropsOf(m)[key := v2];
  }

  /** Text and attachments are independent: their order does not matter. */
  lemma TextAndAttachmentCommute(m: Message, t: Text, a: Attachment)
    ensures SetText(AddAttachment(m, a), t) == AddAttachment(SetText(m, t), a)
  {
  }

  /** Building an already built message changes nothing. */
  lemma BuildIdempotent(m: Message)
    ensures Build(Build(m)) == Build(m)
  {
    var p := PropsOf(Build(m));
    assert p["user_id" := p["user_id"]] == p;
  }

  /** Attachments appended one after the other appear in call order. */
  lemma AttachmentsInCallOrder(m: Message, a1: Attachment, a2: Attachment)
    ensures AttachmentsOf(AddAttachment(AddAttachment(m, a1), a2)) == AttachmentsOf(m) + [a1, a2]
  {
  }
}
