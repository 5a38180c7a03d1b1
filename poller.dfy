/**
 * The body of `get_updates_and_process` in sabadoDies.py for one batch of
 * Telegram updates: every update advances the global `last_update_id`, and each
 * message gets at most one reply, chosen by its normalised text, its chat type
 * and the fixed table of community group chats.
 */
module TelegramPoller {
  import opened Wrappers
  import opened PyValues

  /** `COMUNIDADES_CHATS`: group chat id (as text) to community name. */
  const CommunityChats: map<string, string> := map[
    "-1002585455176" := "brisas",
    "-1002594518135" := "mosca",
    "-1002886664361" := "mosca2",
    "-1002773966470" := "miraflores",
    "-1002780392932" := "sos",
    "-1002735693923" := "avion"
  ]

  /** A Telegram message: its `text` (absent for non-text messages), the `id` and
      `type` of its `chat` (`PyNone` when missing) and its `from` object. A
      message that is present is a non-empty object, so it is always truthy. */
  datatype Message = Message(text: Option<string>, chatId: Val, chatType: Val, sender: Fields)

  /** One element of the `result` list of `getUpdates`. */
  datatype Update = Update(updateId: int, message: Option<Message>, editedMessage: Option<Message>)

  /** `update.get("message") or update.get("edited_message")` */
  function MessageOf(u: Update): Option<Message> {
    if u.message.Some? then u.message else u.editedMessage
  }

  /** `text.upper().strip()` */
  function Normalize(text: string): string {
    Strip(Upper(text))
  }

  /** `message.get("text", "")`, normalised. */
  function CommandOf(m: Message): string {
    Normalize(m.text.GetOr(""))
  }

  /** `str(chat.get("id"))` */
  function ChatKey(m: Message): string {
    Str(m.chatId)
  }

  predicate IsPrivate(m: Message) {
    m.chatType == PyStr("private")
  }

  /** The query parameters of the emergency web-app link of an SOS reply. */
  datatype LaunchLink = LaunchLink(
    base: string, community: string, userId: string, firstName: string, lastName: string, username: string)

  /** The replies the bot can send; `chat` is the chat the reply goes to. */
  datatype Reply =
    | RegisterPrompt(chat: string, url: string)
    | SosPrompt(chat: string, community: string, launch: LaunchLink)
    | Welcome(chat: string)

  /** The `if`/`elif` chain of the loop body, on the message's normalised text,
      its chat key, whether the chat is private and its sender. */
  function Answer(text: string, chat: string, isPrivate: bool, sender: Fields, webappUrl: string): Option<Reply> {
    if text == "MIREGISTRO" && isPrivate then
      Some(RegisterPrompt(chat, webappUrl + "/register"))
    else if text == "SOS" && chat in CommunityChats then
      var name := CommunityChats[chat];
      Some(SosPrompt(chat, Upper(name),
        LaunchLink(webappUrl, name, Str(Get(sender, "id", PyNone)),
                   Str(Get(sender, "first_name", PyStr(""))), Str(Get(sender, "last_name", PyStr(""))),
                   Str(Get(sender, "username", PyStr(""))))))
    else if text == "/START" && isPrivate then
      Some(Welcome(chat))
    else
      None
  }

  function Classify(m: Message, webappUrl: string): Option<Reply> {
    Answer(CommandOf(m), ChatKey(m), IsPrivate(m), m.sender, webappUrl)
  }

  /** The reply to one update, if any. */
  function ReplyTo(u: Update, webappUrl: string): Option<Reply> {
    match MessageOf(u)
    case None => None
    case Some(m) => Classify(m, webappUrl)
  }

  /** The replies to a batch, in order. */
  function BatchReplies(us: seq<Update>, webappUrl: string): seq<Reply> {
    if us == [] then []
    else
      var r := ReplyTo(us[|us| - 1], webappUrl);
      BatchReplies(us[..|us| - 1], webappUrl) + (if r.Some? then [r.value] else [])
  }

  /** `last_update_id` after a batch: one past the last update's id, skipped or not. */
  function NextCursor(prev: Option<int>, us: seq<Update>): Option<int> {
    if us == [] then prev else Some(us[|us| - 1].updateId + 1)
  }

  /** The `offset` parameter of the next `getUpdates`: sent only when
      `last_update_id` is truthy, so neither before the first update nor when it is 0. */
  function OffsetOf(cursor: Option<int>): Option<int> {
    if cursor.Some? && cursor.value != 0 then cursor else None
  }

  class Poller {
    /** `WEBAPP_URL` */
    const webappUrl: string
    /** the global `last_update_id` */
    var lastUpdateId: Option<int>

    constructor (webappUrl: string)
      ensures this.webappUrl == webappUrl && lastUpdateId == None
    {
      this.webappUrl := webappUrl;
      lastUpdateId := None;
    }

    /** The offset the next request passes. */
    function Offset(): Option<int>
      reads this
    {
      OffsetOf(lastUpdateId)
    }

    /** The `for update in data.get("result", [])` loop. */
    method ProcessBatch(updates: seq<Update>) returns (replies: seq<Reply>)
      modifies this
      ensures lastUpdateId == NextCursor(old(lastUpdateId), updates)
      ensures replies == BatchReplies(updates, webappUrl)
    {
      replies := [];
      for i := 0 to |updates|
        invariant lastUpdateId == NextCursor(old(lastUpdateId), updates[..i])
        invariant replies == BatchReplies(updates[..i], webappUrl)
      {
        var u := updates[i];
        assert updates[..i + 1][..i] == updates[..i];
        lastUpdateId := Some(u.updateId + 1);
        var message := if u.message.Some? then u.message else u.editedMessage;
        if message.None? {
          continue;
        }
        var reply := Classify(message.value, webappUrl);
        if reply.Some? {
          replies := replies + [reply.value];
        }
      }
      assert updates[..|updates|] == updates;
    }

    /** One turn of the `while True` loop: request with the current offset, then
        process the batch; a failed request (`None`) changes nothing. */
    method PollOnce(fetched: Option<seq<Update>>) returns (offset: Option<int>, replies: seq<Reply>)
      modifies this
      ensures offset == OffsetOf(old(lastUpdateId))
      ensures fetched.None? ==> lastUpdateId == old(lastUpdateId) && replies == []
      ensures fetched.Some? ==>
        lastUpdateId == NextCursor(old(lastUpdateId), fetched.value) &&
        replies == BatchReplies(fetched.value, webappUrl)
    {
      offset := Offset();
      if fetched.None? {
        return offset, [];
      }
      replies := ProcessBatch(fetched.value);
    }
  }

  // ---------------------------------------------------------------- lemmas

  /** Each branch of the chain, both directions: "MIREGISTRO" and "/START" are
      answered only in private chats, "SOS" only in a chat of the community
      table, nothing else is answered; a reply always goes to the chat it came
      from, and an SOS reply names the mapped community upper-cased. */
  lemma ClassifyCases(m: Message, webappUrl: string)
    ensures Classify(m, webappUrl).Some? && Classify(m, webappUrl).value.RegisterPrompt? <==>
      CommandOf(m) == "MIREGISTRO" && IsPrivate(m)
    ensures Classify(m, webappUrl).Some? && Classify(m, webappUrl).value.SosPrompt? <==>
      CommandOf(m) == "SOS" && ChatKey(m) in CommunityChats
    ensures Classify(m, webappUrl).Some? && Classify(m, webappUrl).value.Welcome? <==>
      CommandOf(m) == "/START" && IsPrivate(m)
    ensures Classify(m, webappUrl).Some? ==> Classify(m, webappUrl).value.chat == ChatKey(m)
    ensures Classify(m, webappUrl).Some? && Classify(m, webappUrl).value.SosPrompt? ==>
      Classify(m, webappUrl).value.community == Upper(CommunityChats[ChatKey(m)]) &&
      Classify(m, webappUrl).value.launch.community == CommunityChats[ChatKey(m)]
    ensures Classify(m, webappUrl).Some? && Classify(m, webappUrl).value.RegisterPrompt? ==>
      Classify(m, webappUrl).value.url == webappUrl + "/register"
  {
  }

  /** Only the normalised text matters: two messages alike except for case and
      surrounding whitespace get the same reply. */
  lemma ClassifyIgnoresCaseAndSpace(m: Message, t1: string, t2: string, webappUrl: string)
    requires Normalize(t1) == Normalize(t2)
    ensures Classify(m.(text := Some(t1)), webappUrl) == Classify(m.(text := Some(t2)), webappUrl)
  {
  }

  /** Normalising twice is normalising once. */
  lemma NormalizeIdempotent(text: string)
    ensures Normalize(Normalize(text)) == Normalize(text)
  {
    var u := Upper(text);
    var s := Strip(u);
    var o := StripOffset(u);
    forall k | 0 <= k < |s| ensures UpperChar(s[k]) == s[k] {
      assert s[k] == u[o + k] == UpperChar(text[o + k]);
      UpperCharIdempotent(text[o + k]);
    }
    assert Upper(s) == s;
    StripIdempotent(u);
  }

  lemma NormalizeSos()
    ensures Normalize(" sos\n") == "SOS"
  {
    var t := Upper(" sos\n");
    assert t == [' '] + "SOS" + ['\n'] by {
      assert t[0] == ' ' && t[1] == 'S' && t[2] == 'O' && t[3] == 'S' && t[4] == '\n';
    }
    StripPadded(' ', "SOS", '\n');
  }

  lemma BrisasChat()
    ensures "-1002585455176" in CommunityChats && CommunityChats["-1002585455176"] == "brisas"
  {
    var k := "-1002585455176";
    assert k != "-1002594518135" && k != "-1002886664361" && k != "-1002773966470";
    assert k != "-1002780392932" && k != "-1002735693923";
  }

  /** " sos\n" typed in the "brisas" group gets the SOS reply naming "BRISAS".
      The chat id may arrive in any form whose `str()` is the table key. */
  lemma SosInBrisas(chatId: Val, sender: Fields, webappUrl: string)
    requires Str(chatId) == "-1002585455176"
    ensures Classify(Message(Some(" sos\n"), chatId, PyStr("supergroup"), sender), webappUrl)
      == Some(SosPrompt("-1002585455176", "BRISAS",
                        LaunchLink(webappUrl, "brisas", Str(Get(sender, "id", PyNone)),
                                   Str(Get(sender, "first_name", PyStr(""))), Str(Get(sender, "last_name", PyStr(""))),
                                   Str(Get(sender, "username", PyStr(""))))))
  {
    var m := Message(Some(" sos\n"), chatId, PyStr("supergroup"), sender);
    NormalizeSos();
    assert CommandOf(m) == "SOS";
    assert ChatKey(m) == "-1002585455176" && !IsPrivate(m);
    BrisasChat();
    var up := Upper("brisas");
    assert up == "BRISAS" by {
      assert up[0] == 'B' && up[1] == 'R' && up[2] == 'I' && up[3] == 'S' && up[4] == 'A' && up[5] == 'S';
    }
  }

  /** A batch gets at most one reply per update, and an update without a message
      gets none. */
  lemma {:induction false} BatchRepliesBound(us: seq<Update>, webappUrl: string)
    ensures |BatchReplies(us, webappUrl)| <= |us|
    ensures (forall k :: 0 <= k < |us| ==> MessageOf(us[k]).None?) ==> BatchReplies(us, webappUrl) == []
  {
    if us != [] {
      BatchRepliesBound(us[..|us| - 1], webappUrl);
    }
  }

  /** Every reply of a batch goes back to the chat of one of its messages. */
  lemma {:induction false} BatchRepliesAnswerTheirChat(us: seq<Update>, webappUrl: string)
    ensures forall r :: r in BatchReplies(us, webappUrl) ==>
      exists u :: u in us && MessageOf(u).Some? && r.chat == ChatKey(MessageOf(u).value)
  {
    if us != [] {
      var init := us[..|us| - 1];
      BatchRepliesAnswerTheirChat(init, webappUrl);
      assert forall u :: u in init ==> u in us;
      var last := us[|us| - 1];
      assert last in us;
      if ReplyTo(last, webappUrl).Some? {
        ClassifyCases(MessageOf(last).value, webappUrl);
      }
    }
  }

  /** Processing two batches one after the other leaves the same offset as
      processing them as one, and sends the same replies. */
  lemma {:induction false} BatchesCompose(prev: Option<int>, a: seq<Update>, b: seq<Update>, webappUrl: string)
    ensures NextCursor(NextCursor(prev, a), b) == NextCursor(prev, a + b)
    ensures BatchReplies(a + b, webappUrl) == BatchReplies(a, webappUrl) + BatchReplies(b, webappUrl)
    decreases |b|
  {
    if b == [] {
      assert a + b == a;
    } else {
      assert (a + b)[..|a + b| - 1] == a + b[..|b| - 1];
      BatchesCompose(prev, a, b[..|b| - 1], webappUrl);
    }
  }
}
