/** What the `send-whatsapp` handler promises, proved of the model in `SendWhatsApp`:
    the order of its early returns, the field aliases, the phone clean-up, the shape of the
    message and of the outbound request, and the pass-through of the provider's answer. */
module HandlerProperties {
  import opened Strings
  import opened SendWhatsApp

  // ---------------------------------------------------------------------------------------
  // The gate: checks run in a fixed order.

  /** A preflight `OPTIONS` gets 204 with an empty body, whatever the configuration or body. */
  lemma OptionsIsNoContent(event: Event, env: Env, outcome: ProviderOutcome)
    requires event.httpMethod == "OPTIONS"
    ensures Decide(event, env).Respond?
    ensures Handler(event, env, outcome) == Response(204, Plain(""))
  {
  }

  /** Every other method except `POST` gets 405, before the configuration is looked at. */
  lemma OtherMethodIsRejected(event: Event, env: Env, outcome: ProviderOutcome)
    requires event.httpMethod != "OPTIONS" && event.httpMethod != "POST"
    ensures Decide(event, env).Respond?
    ensures Handler(event, env, outcome) == Response(405, Plain(MethodNotAllowed))
  {
  }

  /** A `POST` without a usable token or phone-number id gets 500, whatever its body holds. */
  lemma MissingConfigurationIsServerError(event: Event, env: Env, outcome: ProviderOutcome)
    requires event.httpMethod == "POST"
    requires !Present(env.token) || !Present(env.phoneId)
    ensures Decide(event, env).Respond?
    ensures Handler(event, env, outcome) == Response(500, ErrorJson(EnvMissing))
  {
  }

  /** A body that cannot be read lands in the catch-all: 500 with the error's text. */
  lemma UnreadableBodyIsServerError(event: Event, env: Env, outcome: ProviderOutcome)
    requires event.httpMethod == "POST" && Present(env.token) && Present(env.phoneId)
    requires event.body.Unreadable?
    ensures Decide(event, env).Respond?
    ensures Handler(event, env, outcome) == Response(500, ErrorJson(event.body.error))
  {
  }

  /** A phone with no digits at all gets 400 "Telefone ausente" and no request is built. */
  lemma MissingPhoneIsBadRequest(event: Event, env: Env, outcome: ProviderOutcome)
    requires event.httpMethod == "POST" && Present(env.token) && Present(env.phoneId)
    requires !event.body.Unreadable?
    requires forall i :: 0 <= i < |PhoneSource(PayloadOf(event.body))| ==> !IsDigit(PhoneSource(PayloadOf(event.body))[i])
    ensures Decide(event, env).Respond?
    ensures Handler(event, env, outcome) == Response(400, ErrorJson(PhoneMissing))
  {
    DigitsOnlyEmptyIff(PhoneSource(PayloadOf(event.body)));
  }

  /** A `POST` with no body is read as `{}` and so has no phone. */
  lemma EmptyBodyIsBadRequest(env: Env, outcome: ProviderOutcome)
    requires Present(env.token) && Present(env.phoneId)
    ensures Handler(Event("POST", NoBody), env, outcome) == Response(400, ErrorJson(PhoneMissing))
    ensures Handler(Event("POST", Json(EmptyPayload)), env, outcome) == Response(400, ErrorJson(PhoneMissing))
  {
  }

  /** `clienteTelefone` wins as soon as it is non-empty, even when it holds no digit: then the
      request is refused with 400 although `to` may hold a perfectly good number. */
  lemma ClienteTelefoneShadowsTo(p: Payload, env: Env, outcome: ProviderOutcome)
    requires Present(env.token) && Present(env.phoneId)
    requires p.clienteTelefone != []
    requires forall i :: 0 <= i < |p.clienteTelefone| ==> !IsDigit(p.clienteTelefone[i])
    ensures Handler(Event("POST", Json(p)), env, outcome) == Response(400, ErrorJson(PhoneMissing))
  {
    DigitsOnlyEmptyIff(p.clienteTelefone);
  }

  /** A provider request is built exactly when every check passes. */
  lemma SendsIff(event: Event, env: Env)
    ensures Decide(event, env).Send? <==>
      event.httpMethod == "POST" && Present(env.token) && Present(env.phoneId) &&
      !event.body.Unreadable? && NormalizedPhone(PayloadOf(event.body)) != []
  {
  }

  // ---------------------------------------------------------------------------------------
  // After the call.

  /** When a request is sent, the handler's status is the provider's status and its body the
      provider's JSON; a thrown error becomes 500 with the error text. */
  lemma ProviderStatusPassesThrough(event: Event, env: Env, status: int, json: string, error: string)
    requires Decide(event, env).Send?
    ensures Handler(event, env, Replied(status, json)) == Response(status, Forwarded(json))
    ensures Handler(event, env, Threw(error)) == Response(500, ErrorJson(error))
  {
  }

  /** When no request is sent, what the provider would have answered makes no difference. */
  lemma EarlyResponseIgnoresProvider(event: Event, env: Env, o1: ProviderOutcome, o2: ProviderOutcome)
    requires Decide(event, env).Respond?
    ensures Handler(event, env, o1) == Handler(event, env, o2) == Decide(event, env).response
  {
  }

  // ---------------------------------------------------------------------------------------
  // Field aliases.

  /** Phone: `clienteTelefone`, else `to`, else empty. */
  lemma PhoneAlias(p: Payload)
    ensures PhoneSource(p) == if p.clienteTelefone != [] then p.clienteTelefone else p.to
  {
    FirstNonEmptyOfTwo(p.clienteTelefone, p.to, "");
  }

  /** Name: `nome`, else `cliente`, else "Cliente"; the result is never empty. */
  lemma NameAlias(p: Payload)
    ensures Name(p) == if p.nome != [] then p.nome else if p.cliente != [] then p.cliente else DefaultName
    ensures Name(p) != []
  {
    FirstNonEmptyOfTwo(p.nome, p.cliente, DefaultName);
  }

  /** Date: `dataEntrega`, else `data_entrega_obra`, else empty; `obra` defaults to empty. */
  lemma DateAndObraAlias(p: Payload)
    ensures DeliveryDate(p) == if p.dataEntrega != [] then p.dataEntrega else p.dataEntregaObra
    ensures Obra(p) == p.obra
  {
    FirstNonEmptyOfTwo(p.dataEntrega, p.dataEntregaObra, "");
    FirstNonEmptyOfOne(p.obra, "");
  }

  // ---------------------------------------------------------------------------------------
  // The phone.

  /** The number sent is exactly the digits of the chosen phone field, in their order: only
      '0'-'9', nothing inserted (no country code), nothing reordered, no digit lost. */
  lemma NormalizedPhoneIsItsDigits(p: Payload)
    ensures AllDigits(NormalizedPhone(p))
    ensures IsSubsequence(NormalizedPhone(p), PhoneSource(p))
    ensures forall c :: multiset(NormalizedPhone(p))[c] == if IsDigit(c) then multiset(PhoneSource(p))[c] else 0
  {
    DigitsOnlyIsSubsequence(PhoneSource(p));
    DigitsOnlyCounts(PhoneSource(p));
  }

  /** A phone given as bare digits is sent exactly as given. */
  lemma DigitPhoneSentVerbatim(p: Payload)
    requires AllDigits(PhoneSource(p))
    ensures NormalizedPhone(p) == PhoneSource(p)
  {
    DigitsOnlyKeepsDigitStrings(PhoneSource(p));
  }

  // ---------------------------------------------------------------------------------------
  // The message.

  /** The lines the message is meant to have: the greeting, `Obra:` only with an `obra`,
      `Entrega:` only with a date, then the footer. */
  function ExpectedLines(p: Payload): seq<string> {
    [Greeting(Name(p))]
    + (if Obra(p) != [] then ["Obra: " + Obra(p)] else [])
    + (if DeliveryDate(p) != [] then ["Entrega: " + DeliveryDate(p)] else [])
    + [Footer]
  }

  /** `filter(Boolean)` drops exactly the missing optional lines, never the fixed ones. */
  lemma KeptParts(p: Payload)
    ensures DropEmpty(MessageParts(p)) == ExpectedLines(p)
  {
    var parts := MessageParts(p);
    assert Greeting(Name(p))[0] == 'O';
    assert parts == [parts[0]] + [parts[1]] + [parts[2]] + [parts[3]];
    DropEmptyConcat([parts[0]] + [parts[1]] + [parts[2]], [parts[3]]);
    DropEmptyConcat([parts[0]] + [parts[1]], [parts[2]]);
    DropEmptyConcat([parts[0]], [parts[1]]);
    forall x: string ensures DropEmpty([x]) == if x != [] then [x] else [] {
      assert [x][1..] == [];
    }
  }

  /** The message text: the greeting first, each present optional line after a single "\n"
      and with its value inserted verbatim, then "\n" and the footer. */
  lemma MessageText(p: Payload)
    ensures Message(p) ==
      Greeting(Name(p))
      + (if Obra(p) != [] then "\n" + ("Obra: " + Obra(p)) else "")
      + (if DeliveryDate(p) != [] then "\n" + ("Entrega: " + DeliveryDate(p)) else "")
      + "\n" + Footer
  {
    KeptParts(p);
    JoinOptionalLines(Greeting(Name(p)), "Obra: " + Obra(p), "Entrega: " + DeliveryDate(p), Footer,
                      Obra(p) != [], DeliveryDate(p) != []);
  }

  /** Joining a first line, two optional lines and a last line. */
  lemma JoinOptionalLines(g: string, o: string, d: string, f: string, hasO: bool, hasD: bool)
    ensures JoinLines([g] + (if hasO then [o] else []) + (if hasD then [d] else []) + [f])
         == g + (if hasO then "\n" + o else "") + (if hasD then "\n" + d else "") + "\n" + f
  {
    if hasO && hasD {
      assert [g] + [o] + [d] + [f] == [g] + [o, d, f];
      JoinLinesCons(g, [o, d, f]);
      assert [o, d, f] == [o] + [d, f];
      JoinLinesCons(o, [d, f]);
      assert [d, f] == [d] + [f];
      JoinLinesCons(d, [f]);
    } else if hasO {
      assert [g] + [o] + [] + [f] == [g] + [o, f];
      JoinLinesCons(g, [o, f]);
      assert [o, f] == [o] + [f];
      JoinLinesCons(o, [f]);
    } else if hasD {
      assert [g] + [] + [d] + [f] == [g] + [d, f];
      JoinLinesCons(g, [d, f]);
      assert [d, f] == [d] + [f];
      JoinLinesCons(d, [f]);
    } else {
      assert [g] + [] + [] + [f] == [g] + [f];
      JoinLinesCons(g, [f]);
    }
  }

  /** Read back line by line, the message has exactly the expected lines, provided the
      payload's own values hold no newline. */
  lemma MessageLines(p: Payload)
    requires NoNewline(Name(p)) && NoNewline(Obra(p)) && NoNewline(DeliveryDate(p))
    ensures SplitLines(Message(p)) == ExpectedLines(p)
  {
    KeptParts(p);
    var lines := ExpectedLines(p);
    forall i | 0 <= i < |lines| ensures NoNewline(lines[i]) {
      assert lines[i] == Greeting(Name(p)) || lines[i] == "Obra: " + Obra(p)
          || lines[i] == "Entrega: " + DeliveryDate(p) || lines[i] == Footer;
    }
    SplitJoin(lines);
  }

  /** An `Obra:` line is in the message iff `obra` is non-empty, and an `Entrega:` line iff a
      date is; the `Obra:` line comes before the `Entrega:` line, and the greeting opens and
      the footer closes the message. */
  lemma OptionalLinesIff(p: Payload)
    requires NoNewline(Name(p)) && NoNewline(Obra(p)) && NoNewline(DeliveryDate(p))
    ensures |SplitLines(Message(p))| == 2 + (if Obra(p) != [] then 1 else 0) + (if DeliveryDate(p) != [] then 1 else 0)
    ensures ("Obra: " + Obra(p)) in SplitLines(Message(p)) <==> Obra(p) != []
    ensures ("Entrega: " + DeliveryDate(p)) in SplitLines(Message(p)) <==> DeliveryDate(p) != []
    ensures SplitLines(Message(p))[0] == Greeting(Name(p))
    ensures SplitLines(Message(p))[|SplitLines(Message(p))| - 1] == Footer
    ensures Obra(p) != [] && DeliveryDate(p) != [] ==>
      SplitLines(Message(p))[1] == "Obra: " + Obra(p) && SplitLines(Message(p))[2] == "Entrega: " + DeliveryDate(p)
  {
    MessageLines(p);
    var g, o, d := Greeting(Name(p)), "Obra: " + Obra(p), "Entrega: " + DeliveryDate(p);
    assert g[1] == 'l' && o[1] == 'b' && d[0] == 'E' && Footer[0] == 'M';
  }

  // ---------------------------------------------------------------------------------------
  // The outbound request.

  /** The phone-number id read back out of a Graph API messages URL. */
  function PhoneIdOfUrl(url: string): Option<string> {
    if |GraphPrefix| + |MessagesSuffix| <= |url|
       && url[..|GraphPrefix|] == GraphPrefix
       && url[|url| - |MessagesSuffix|..] == MessagesSuffix
    then Some(url[|GraphPrefix|..|url| - |MessagesSuffix|])
    else None
  }

  /** The token read back out of an `Authorization` header. */
  function TokenOfAuthorization(header: string): Option<string> {
    if |BearerPrefix| <= |header| && header[..|BearerPrefix|] == BearerPrefix
    then Some(header[|BearerPrefix|..])
    else None
  }

  /** The URL and the authorization header carry the configured id and token intact. */
  lemma UrlAndTokenRoundTrip(token: string, phoneId: string)
    ensures PhoneIdOfUrl(RequestUrl(phoneId)) == Some(phoneId)
    ensures TokenOfAuthorization(BearerPrefix + token) == Some(token)
  {
  }

  /** The one request the handler sends: a POST to the messages URL of the configured id,
      bearer-authorised with the configured token, JSON-typed, whose body is a WhatsApp text
      message to the normalised phone carrying the composed message. */
  lemma SentRequestShape(event: Event, env: Env)
    requires Decide(event, env).Send?
    ensures var req := Decide(event, env).request;
      var p := PayloadOf(event.body);
      && PhoneIdOfUrl(req.url) == Some(env.phoneId.value)
      && req.httpMethod == "POST"
      && TokenOfAuthorization(req.authorization) == Some(env.token.value)
      && req.contentType == "application/json"
      && req.body == TextMessage("whatsapp", NormalizedPhone(p), "text", Message(p))
      && req.body.to != [] && AllDigits(req.body.to)
  {
  }
}
