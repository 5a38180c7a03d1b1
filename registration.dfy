/**
 * servidor-de-registro.py: the Telegram webhook that answers `/registrar` and
 * `/obtener_id` with a button opening the registration web app, and the
 * `/api/register` endpoint that accepts a Telegram id. Neither keeps state.
 */
module Registration {
  import opened Wrappers
  import opened PyValues
  import opened Directory

  /** A truthy `update['message']`. `chatId` is `message['chat']['id']`, or None
      when that lookup raises (no `chat`, or a chat without `id`); `text` is the
      `text` value, or None when the key is absent. */
  datatype WebhookMessage = WebhookMessage(chatId: Option<Val>, text: Option<Val>)

  /** The body of `POST /webhook`: not a JSON object at all (so `update.get`
      raises), or an update whose `message` is truthy (`Some`) or not (`None`). */
  datatype WebhookBody = NotAnObject | Update(message: Option<WebhookMessage>)

  const RegistrationApp := "https://alarma2-production.up.railway.app"
  const PromptText := "Presiona el botón para obtener tu ID de Telegram."

  /** An inline-keyboard button that opens a web app. */
  datatype Button = WebAppButton(text: string, url: string)

  /** The `sendMessage` payload of the reply. */
  datatype Payload = Payload(chatId: Val, text: string, keyboard: seq<seq<Button>>)

  datatype WebhookOutcome = WebhookOutcome(response: Response, reply: Option<Payload>)

  const WebhookOk := Response(200, Status("ok"))

  /** `text.startswith('/registrar') or text.startswith('/obtener_id')` */
  predicate IsRegisterCommand(text: string) {
    StartsWith(text, "/registrar") || StartsWith(text, "/obtener_id")
  }

  /** The payload sent back to `chatId`. */
  function RegisterPayload(chatId: Val): Payload {
    Payload(chatId, PromptText, [[WebAppButton("Obtener mi ID", RegistrationApp)]])
  }

  /** The reply the handler attempts, if any. Every exception inside the `try`
      (no object, no chat id, a `text` that is not a string) ends with no reply. */
  function WebhookReply(body: WebhookBody): Option<Payload> {
    match body
    case NotAnObject => None
    case Update(None) => None
    case Update(Some(m)) =>
      if m.chatId.None? then None
      else
        var text := m.text.GetOr(PyStr(""));
        if text.PyStr? && IsRegisterCommand(text.s) then Some(RegisterPayload(m.chatId.value)) else None
  }

  /** `webhook()`. Whether `sendMessage` succeeded is not an input: its failure
      is caught inside `send_telegram_message` and nothing reads the result. */
  function Webhook(body: WebhookBody): WebhookOutcome {
    WebhookOutcome(WebhookOk, WebhookReply(body))
  }

  /** A reply goes out exactly for a message with a chat id and a text that starts
      with one of the two commands; it targets that chat and carries one keyboard
      row holding the single "Obtener mi ID" web-app button. Every update gets
      the response `{"status": "ok"}` with 200. */
  lemma WebhookReplies(body: WebhookBody)
    ensures Webhook(body).reply.Some? <==>
      body.Update? && body.message.Some? && body.message.value.chatId.Some? &&
      body.message.value.text.GetOr(PyStr("")).PyStr? &&
      IsRegisterCommand(body.message.value.text.GetOr(PyStr("")).s)
    ensures Webhook(body).reply.Some? ==>
      var p := Webhook(body).reply.value;
      p.chatId == body.message.value.chatId.value && p.text == PromptText &&
      |p.keyboard| == 1 && |p.keyboard[0]| == 1 &&
      p.keyboard[0][0] == WebAppButton("Obtener mi ID", RegistrationApp)
    ensures Webhook(body).response == WebhookOk
  {
  }

  /** Detection is by prefix: anything after the command word still counts, and a
      message without text is never a command. */
  lemma CommandsArePrefixes(rest: string)
    ensures IsRegisterCommand("/registrar" + rest) && IsRegisterCommand("/obtener_id" + rest)
    ensures !IsRegisterCommand("")
  {
    assert ("/registrar" + rest)[..|"/registrar"|] == "/registrar";
    assert ("/obtener_id" + rest)[..|"/obtener_id"|] == "/obtener_id";
  }

  /** `register_id()`: the body is a JSON object (`Some`) or not, in which case
      `data.get` raises and the handler answers 500. */
  function Register(body: Option<Fields>): Response {
    match body
    case None => Response(500, Error("Error interno del servidor"))
    case Some(data) =>
      if Truthy(Get(data, "telegram_id", PyNone)) then Response(200, Status("ID recibido y registrado."))
      else Response(400, Error("ID no proporcionado"))
  }

  /** 200 exactly for a truthy `telegram_id`, 400 for a missing or falsy one,
      500 when the body could not be read. */
  lemma RegisterCodes(body: Option<Fields>)
    ensures Register(body).code == 200 <==> body.Some? && Truthy(Get(body.value, "telegram_id", PyNone))
    ensures Register(body).code == 400 <==> body.Some? && !Truthy(Get(body.value, "telegram_id", PyNone))
    ensures Register(body).code == 500 <==> body.None?
    ensures body.Some? && "telegram_id" in body.value && body.value["telegram_id"] == PyInt(0) ==>
      Register(body).code == 400
  {
  }
}
