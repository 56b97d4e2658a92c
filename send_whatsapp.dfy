/** The Netlify function `send-whatsapp`: it turns one HTTP event into either an early
    response or one outbound text-message request to the WhatsApp Cloud API, and then
    passes the provider's answer back to the caller.

    The handler is split at its one effectful step, the awaited `fetch`:
    `Decide` is everything before it, `Deliver` everything after it, and `Handler`
    joins the two with the provider's outcome given as an input. */
module SendWhatsApp {
  import opened Strings

  datatype Option<T> = None | Some(value: T)

  /** A configuration value is usable when it is set and not empty (JavaScript truthiness). */
  predicate Present(v: Option<string>) {
    v.Some? && v.value != []
  }

  /** The two environment variables the handler reads: `META_WA_TOKEN` and `PHONE_NUMBER_ID`. */
  datatype Env = Env(token: Option<string>, phoneId: Option<string>)

  /** The parsed JSON request body. Every key is an optional string, the empty string standing
      for an absent key, as `||` treats both alike. `dataEntregaObra` is the key
      `data_entrega_obra`. */
  datatype Payload = Payload(
    clienteTelefone: string,
    to: string,
    nome: string,
    cliente: string,
    obra: string,
    dataEntrega: string,
    dataEntregaObra: string)

  const EmptyPayload := Payload("", "", "", "", "", "", "")

  /** The request body as the handler finds it: missing or empty (read as `"{}"`), unreadable
      (`JSON.parse` throws, or the JSON is `null`, whose field access throws), or an object. */
  datatype Body = NoBody | Unreadable(error: string) | Json(payload: Payload)

  datatype Event = Event(httpMethod: string, body: Body)

  /** A response body: plain text, `JSON.stringify({ error })`, or the provider's JSON passed on. */
  datatype ResponseBody = Plain(text: string) | ErrorJson(error: string) | Forwarded(providerJson: string)

  datatype Response = Response(statusCode: int, body: ResponseBody)

  /** The JSON body of the Cloud API call: `{ messaging_product, to, type, text: { body } }`. */
  datatype TextMessage = TextMessage(messagingProduct: string, to: string, messageType: string, textBody: string)

  /** The `fetch` call: URL, method, the two headers and the JSON body. */
  datatype ProviderRequest = ProviderRequest(
    url: string,
    httpMethod: string,
    authorization: string,
    contentType: string,
    body: TextMessage)

  /** What the handler decided before any network traffic. */
  datatype Decision = Respond(response: Response) | Send(request: ProviderRequest)

  /** What `fetch` and `resp.json()` produced: a status with a JSON body, or a thrown error
      (network failure or a body that is not JSON), given as its `String(e)` text. */
  datatype ProviderOutcome = Replied(status: int, json: string) | Threw(error: string)

  const MethodNotAllowed := "Method Not Allowed"
  const EnvMissing := "Variáveis de ambiente ausentes"
  const PhoneMissing := "Telefone ausente"
  const DefaultName := "Cliente"
  const Footer := "Mensagem automática via WhatsApp"
  const GraphPrefix := "https://graph.facebook.com/v20.0/"
  const MessagesSuffix := "/messages"
  const BearerPrefix := "Bearer "
  const JsonContentType := "application/json"

  /** `JSON.parse(event.body || "{}")` once it did not throw. */
  function PayloadOf(body: Body): Payload
    requires !body.Unreadable?
  {
    if body.NoBody? then EmptyPayload else body.payload
  }

  // Field aliases: each logical field takes the first non-empty of its keys.

  function PhoneSource(p: Payload): string { FirstNonEmpty([p.clienteTelefone, p.to], "") }
  function Name(p: Payload): string { FirstNonEmpty([p.nome, p.cliente], DefaultName) }
  function Obra(p: Payload): string { FirstNonEmpty([p.obra], "") }
  function DeliveryDate(p: Payload): string { FirstNonEmpty([p.dataEntrega, p.dataEntregaObra], "") }

  /** The recipient number as sent: the chosen phone field with every non-digit removed. */
  function NormalizedPhone(p: Payload): string {
    DigitsOnly(PhoneSource(p))
  }

  function Greeting(nome: string): string { "Olá, " + nome + "!" }

  /** The candidate lines before `filter(Boolean)`: `obra && ...` yields `""` when `obra` is empty. */
  function MessageParts(p: Payload): seq<string> {
    var obra := Obra(p);
    var data := DeliveryDate(p);
    [Greeting(Name(p)),
     if obra != [] then "Obra: " + obra else "",
     if data != [] then "Entrega: " + data else "",
     Footer]
  }

  /** The text message: the non-empty parts joined by newlines. */
  function Message(p: Payload): string {
    JoinLines(DropEmpty(MessageParts(p)))
  }

  function RequestUrl(phoneId: string): string {
    GraphPrefix + phoneId + MessagesSuffix
  }

  function BuildRequest(token: string, phoneId: string, phone: string, msg: string): ProviderRequest {
    ProviderRequest(RequestUrl(phoneId), "POST", BearerPrefix + token, JsonContentType,
                    TextMessage("whatsapp", phone, "text", msg))
  }

  /** The ladder of early returns, and the request it builds once every check has passed. */
  function Decide(event: Event, env: Env): Decision {
    if event.httpMethod == "OPTIONS" then Respond(Response(204, Plain("")))
    else if event.httpMethod != "POST" then Respond(Response(405, Plain(MethodNotAllowed)))
    else if !Present(env.token) || !Present(env.phoneId) then Respond(Response(500, ErrorJson(EnvMissing)))
    else if event.body.Unreadable? then Respond(Response(500, ErrorJson(event.body.error)))
    else
      var p := PayloadOf(event.body);
      var phone := NormalizedPhone(p);
      if phone == [] then Respond(Response(400, ErrorJson(PhoneMissing)))
      else Send(BuildRequest(env.token.value, env.phoneId.value, phone, Message(p)))
  }

  /** After the call: the provider's status and JSON pass through unchanged; anything thrown
      becomes a 500 carrying the error text. */
  function Deliver(outcome: ProviderOutcome): Response {
    match outcome
    case Replied(status, json) => Response(status, Forwarded(json))
    case Threw(error) => Response(500, ErrorJson(error))
  }

  /** `handler(event)`, with the environment and the provider's outcome as inputs. */
  function Handler(event: Event, env: Env, outcome: ProviderOutcome): Response {
    match Decide(event, env)
    case Respond(r) => r
    case Send(_) => Deliver(outcome)
  }
}
