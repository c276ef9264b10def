/** The parts of the platform's update objects (the Bot API's Update, Message,
    MessageEntity, Chat, User, CallbackQuery, InlineQuery) that the dispatch code
    reads, and the bot client as a log of the outbound calls made on it. */
module Telegram {
  import opened Base

  datatype User = User(id: int, username: Option<string>)

  /** `kind` is the API's `type` field: 'private', 'group', 'supergroup' or 'channel'. */
  datatype Chat = Chat(
    id: int,
    kind: string,
    username: Option<string>,
    title: Option<string>,
    firstName: Option<string>,
    lastName: Option<string>)

  /** A MessageEntity; `kind` is its `type` field, such as 'bot_command'. */
  datatype MessageEntity = MessageEntity(kind: string, offset: nat, length: nat)

  /** A message; `text` is empty when the message carries none. */
  datatype Message = Message(
    chat: Chat,
    text: string,
    entities: seq<MessageEntity>,
    newChatMember: Option<User>,
    leftChatMember: Option<User>)

  /** A callback query; `message` is absent when the button that sent it
      sits on a message sent in inline mode. */
  datatype CallbackQuery = CallbackQuery(id: string, message: Option<Message>)

  datatype InlineQuery = InlineQuery(query: string)

  datatype Update = Update(
    message: Option<Message>,
    callbackQuery: Option<CallbackQuery>,
    inlineQuery: Option<InlineQuery>)

  const BOT_COMMAND: string := "bot_command"

  /** Python's `s[lo:hi]` for non-negative bounds: both bounds are clamped to
      the length of `s`, and an empty range gives the empty string. */
  function Slice(s: string, lo: nat, hi: nat): (r: string)
    ensures lo <= hi <= |s| ==> r == s[lo..hi]
    ensures lo <= |s| <= hi ==> r == s[lo..]
    ensures |s| <= lo ==> r == []
    ensures hi <= lo ==> r == []
    ensures |r| <= |s|
  {
    var a := if lo < |s| then lo else |s|;
    var b := if hi < |s| then hi else |s|;
    if a < b then s[a..b] else []
  }

  /** `text[ent.offset: ent.offset + ent.length]` */
  function EntityText(text: string, e: MessageEntity): string {
    Slice(text, e.offset, e.offset + e.length)
  }

  /** What getMe answers: the bot's own user id and username. */
  datatype BotIdentity = BotIdentity(id: int, username: string)

  datatype BotCall =
    | GetMe
    | AnswerCallbackQuery(callbackQueryId: string, text: Option<string>)

  /** The platform client: every outbound call is appended to `calls`. */
  class Bot {
    const identity: BotIdentity
    var calls: seq<BotCall>

    constructor (identity: BotIdentity)
      ensures this.identity == identity && calls == []
    {
      this.identity := identity;
      calls := [];
    }

    method GetMe() returns (me: BotIdentity)
      modifies this
      ensures me == identity
      ensures calls == old(calls) + [BotCall.GetMe]
    {
      me := identity;
      calls := calls + [BotCall.GetMe];
    }

    method AnswerCallbackQuery(callbackQueryId: string, text: Option<string>)
      modifies this
      ensures calls == old(calls) + [BotCall.AnswerCallbackQuery(callbackQueryId, text)]
    {
      calls := calls + [BotCall.AnswerCallbackQuery(callbackQueryId, text)];
    }
  }
}
