/** The server route `POST /api/polaroid`: it validates the client's request
    and the deployment's configuration, builds the render request for the
    Orshot provider and turns the provider's answer into the client's
    response. The network is abstracted: the provider's answer is an input
    (`ProviderOutcome`) and the request the route would send is an output. */
module RenderProxy {
  import opened JsText

  const ApiUrl := "https://api.orshot.com/v1/studio/render"
  const ApiKeyPlaceholder := "your_orshot_api_key_here"
  const TemplatePlaceholder := "PLACEHOLDER_TEMPLATE_ID"
  const MaxCaptionLength := 60

  const ImageRequired := "Image URL or base64 data is required"
  const ApiKeyMissing := "Orshot API key is not configured"
  const TemplateMissing := "Orshot template ID is not configured"
  const GenerationFailed := "Failed to generate polaroid"
  const InternalError := "Internal server error"

  /** The environment, read when the route module is loaded. */
  datatype Config = Config(apiKey: Option<string>, templateIdEnv: Option<string>)

  /** The fields the route destructures from the client's JSON body. */
  datatype RenderRequest = RenderRequest(
    imageUrl: Option<string>,
    caption: Option<string>,
    backgroundColor: Option<string>,
    captionColor: Option<string>)

  /** The client's body: JSON an object can be destructured from, or not. */
  datatype InboundBody = Unparsable | Body(request: RenderRequest)

  datatype ResponseSpec = ResponseSpec(kind: string, format: string, scale: int)

  /** The JSON body sent to the provider. `templateId` is the configured
      template id text; the route passes it through `Number(...)` when it
      serialises the body. */
  datatype ProviderPayload = ProviderPayload(
    templateId: string,
    modifications: map<string, string>,
    response: ResponseSpec)

  datatype OutboundRequest = OutboundRequest(
    url: string,
    httpMethod: string,
    headers: map<string, string>,
    payload: ProviderPayload)

  /** `data.data` of a provider success body. */
  datatype RenderedData = RenderedData(content: string, format: string)

  /** A provider body: not JSON, the JSON value `null`, or a JSON value with
      an optional `message` and an optional `data` object (a JSON value that
      has neither reads as `{}`). */
  datatype ProviderBody = NotJson | JsonNull | Json(message: Option<string>, data: Option<RenderedData>)

  /** What `fetch` to the provider gave: a rejection (network failure) or a
      response with an HTTP status and a body. */
  datatype ProviderOutcome = FetchFailed | Response(status: int, body: ProviderBody)

  datatype ClientBody = ErrorBody(error: string) | ImageBody(image: string, format: string)

  datatype HttpResult = HttpResult(status: int, body: ClientBody)

  /** The route's decision before any network call: answer at once, or send
      the given request to the provider. */
  datatype Step = Respond(result: HttpResult) | Dispatch(outbound: OutboundRequest)

  /** One run of the route: the response to the client and the request sent
      to the provider, if one was sent. */
  datatype Exchange = Exchange(result: HttpResult, sent: Option<OutboundRequest>)

  /** `response.ok`. */
  predicate IsOk(status: int)
  {
    200 <= status <= 299
  }

  /** The null body statuses of the Fetch standard: a response with one of
      them has no body, so `response.json()` on it rejects, and constructing
      a response that has a body with one of them throws a TypeError. */
  predicate IsNullBodyStatus(status: int)
  {
    status == 101 || status == 103 || status == 204 || status == 205 || status == 304
  }

  /** A status `NextResponse.json` accepts together with a JSON body. The
      `Response` constructor of the Fetch standard throws a RangeError for a
      status outside 200..599 and a TypeError for a null body status. */
  predicate IsConstructibleStatus(status: int)
  {
    200 <= status <= 599 && !IsNullBodyStatus(status)
  }

  /** `process.env.ORSHOT_TEMPLATE_ID || "PLACEHOLDER_TEMPLATE_ID"`. */
  function TemplateId(cfg: Config): (id: string)
    ensures id != ""
    ensures Truthy(cfg.templateIdEnv) ==> id == cfg.templateIdEnv.value
    ensures !Truthy(cfg.templateIdEnv) ==> id == TemplatePlaceholder
  {
    if Truthy(cfg.templateIdEnv) then cfg.templateIdEnv.value else TemplatePlaceholder
  }

  predicate ApiKeyConfigured(cfg: Config)
  {
    Truthy(cfg.apiKey) && cfg.apiKey.value != ApiKeyPlaceholder
  }

  predicate TemplateConfigured(cfg: Config)
  {
    var id := TemplateId(cfg);
    id != "" && id != TemplatePlaceholder
  }

  /** The template check fails exactly when the variable is unset, empty or
      set to the placeholder itself: the defaulting makes the emptiness half
      of the check unreachable. */
  lemma TemplateConfiguredIff(cfg: Config)
    ensures TemplateConfigured(cfg) <==>
              cfg.templateIdEnv.Some? && cfg.templateIdEnv.value != "" &&
              cfg.templateIdEnv.value != TemplatePlaceholder
  {
  }

  /** `caption ? String(caption).slice(0, 60) : undefined`. */
  function SanitizedCaption(caption: Option<string>): (r: Option<string>)
    ensures r.Some? <==> Truthy(caption)
    ensures r.Some? ==> r.value != "" && r.value <= caption.value
    ensures r.Some? ==> |r.value| == if |caption.value| <= MaxCaptionLength
                                     then |caption.value| else MaxCaptionLength
  {
    if Truthy(caption) then Some(SliceTo(caption.value, MaxCaptionLength)) else None
  }

  /** The `modifications` object: `photo`, then `caption` and `caption.color`
      spread in when truthy, then `canvasBackgroundColor` written into the
      same object when the background colour is truthy. */
  function Modifications(imageUrl: string, req: RenderRequest): (m: map<string, string>)
    ensures "photo" in m && m["photo"] == imageUrl
    ensures "caption" in m <==> Truthy(req.caption)
    ensures "caption" in m ==> m["caption"] == SanitizedCaption(req.caption).value
    ensures "caption.color" in m <==> Truthy(req.captionColor)
    ensures "caption.color" in m ==> m["caption.color"] == req.captionColor.value
    ensures "canvasBackgroundColor" in m <==> Truthy(req.backgroundColor)
    ensures "canvasBackgroundColor" in m ==> m["canvasBackgroundColor"] == req.backgroundColor.value
    ensures m.Keys <= {"photo", "caption", "caption.color", "canvasBackgroundColor"}
  {
    var sanitized := SanitizedCaption(req.caption);
    var spread := map["photo" := imageUrl];
    var spread := if Truthy(sanitized) then spread["caption" := sanitized.value] else spread;
    var spread := if Truthy(req.captionColor) then spread["caption.color" := req.captionColor.value] else spread;
    if Truthy(req.backgroundColor) then spread["canvasBackgroundColor" := req.backgroundColor.value] else spread
  }

  /** The `fetch` call the route makes once all checks pass. */
  function Outbound(imageUrl: string, req: RenderRequest, apiKey: string, templateId: string): (o: OutboundRequest)
    ensures o.url == ApiUrl
    ensures o.httpMethod == "POST"
    ensures o.headers.Keys == {"Content-Type", "Authorization"}
    ensures o.headers["Content-Type"] == "application/json"
    ensures o.headers["Authorization"] == "Bearer " + apiKey
    ensures o.payload.templateId == templateId
    ensures o.payload.modifications == Modifications(imageUrl, req)
    ensures o.payload.response == ResponseSpec("url", "png", 3)
  {
    OutboundRequest(
      ApiUrl,
      "POST",
      map["Content-Type" := "application/json", "Authorization" := "Bearer " + apiKey],
      ProviderPayload(templateId, Modifications(imageUrl, req), ResponseSpec("url", "png", 3)))
  }

  /** The straight-line early returns of the route, in their order: the
      body, the image, the API key, the template id. */
  function Prepare(body: InboundBody, cfg: Config): (s: Step)
    ensures body.Unparsable? ==> s == Respond(HttpResult(500, ErrorBody(InternalError)))
    ensures body.Body? && !Truthy(body.request.imageUrl) ==>
              s == Respond(HttpResult(400, ErrorBody(ImageRequired)))
    ensures body.Body? && Truthy(body.request.imageUrl) && !ApiKeyConfigured(cfg) ==>
              s == Respond(HttpResult(500, ErrorBody(ApiKeyMissing)))
    ensures body.Body? && Truthy(body.request.imageUrl) && ApiKeyConfigured(cfg) && !TemplateConfigured(cfg) ==>
              s == Respond(HttpResult(500, ErrorBody(TemplateMissing)))
    ensures s.Dispatch? <==> body.Body? && Truthy(body.request.imageUrl) && ApiKeyConfigured(cfg) && TemplateConfigured(cfg)
    ensures s.Dispatch? ==>
              s.outbound == Outbound(body.request.imageUrl.value, body.request, cfg.apiKey.value, TemplateId(cfg))
  {
    match body
    case Unparsable => Respond(HttpResult(500, ErrorBody(InternalError)))
    case Body(req) =>
      if !Truthy(req.imageUrl) then
        Respond(HttpResult(400, ErrorBody(ImageRequired)))
      else if !Truthy(cfg.apiKey) || cfg.apiKey.value == ApiKeyPlaceholder then
        Respond(HttpResult(500, ErrorBody(ApiKeyMissing)))
      else if TemplateId(cfg) == "" || TemplateId(cfg) == TemplatePlaceholder then
        Respond(HttpResult(500, ErrorBody(TemplateMissing)))
      else
        Dispatch(Outbound(req.imageUrl.value, req, cfg.apiKey.value, TemplateId(cfg)))
  }

  /** `errorData.message || "Failed to generate polaroid"`, where an
      unparsable error body counts as `{}`. None when reading `message`
      throws, which it does on `null`. */
  function ProviderErrorMessage(body: ProviderBody): (msg: Option<string>)
    ensures msg.None? <==> body.JsonNull?
    ensures msg.Some? ==> msg.value != ""
    ensures body.Json? && Truthy(body.message) ==> msg == body.message
    ensures !body.JsonNull? && !(body.Json? && Truthy(body.message)) ==> msg == Some(GenerationFailed)
  {
    match body
    case JsonNull => None
    case Json(message, _) => if Truthy(message) then message else Some(GenerationFailed)
    case NotJson => Some(GenerationFailed)
  }

  /** The route's response once the provider has been called. Everything the
      route does not expect ends in the catch-all 500: a failed fetch, an
      error body of `null`, an error status the response constructor refuses,
      and an ok answer whose body is missing, not JSON or without `data`. */
  function Normalise(outcome: ProviderOutcome): (r: HttpResult)
    ensures outcome.FetchFailed? ==> r == HttpResult(500, ErrorBody(InternalError))
    ensures outcome.Response? && !IsOk(outcome.status) && IsConstructibleStatus(outcome.status) &&
            !outcome.body.JsonNull? ==>
              r == HttpResult(outcome.status, ErrorBody(ProviderErrorMessage(outcome.body).value))
    ensures outcome.Response? && !IsOk(outcome.status) && outcome.body.JsonNull? ==>
              r == HttpResult(500, ErrorBody(InternalError))
    ensures outcome.Response? && !IsConstructibleStatus(outcome.status) && !IsOk(outcome.status) ==>
              r == HttpResult(500, ErrorBody(InternalError))
    ensures outcome.Response? && IsOk(outcome.status) && IsNullBodyStatus(outcome.status) ==>
              r == HttpResult(500, ErrorBody(InternalError))
    ensures outcome.Response? && IsOk(outcome.status) && !IsNullBodyStatus(outcome.status) &&
            outcome.body.Json? && outcome.body.data.Some? ==>
              r == HttpResult(200, ImageBody(outcome.body.data.value.content, outcome.body.data.value.format))
    ensures outcome.Response? && IsOk(outcome.status) && !(outcome.body.Json? && outcome.body.data.Some?) ==>
              r == HttpResult(500, ErrorBody(InternalError))
    ensures IsOk(r.status) <==> r.body.ImageBody?
    ensures IsConstructibleStatus(r.status)
  {
    match outcome
    case FetchFailed => HttpResult(500, ErrorBody(InternalError))
    case Response(status, body) =>
      if !IsOk(status) then
        match ProviderErrorMessage(body)
        case Some(msg) =>
          if IsConstructibleStatus(status) then HttpResult(status, ErrorBody(msg))
          else HttpResult(500, ErrorBody(InternalError))
        case None => HttpResult(500, ErrorBody(InternalError))
      else if IsNullBodyStatus(status) then
        HttpResult(500, ErrorBody(InternalError))
      else
        match body
        case Json(_, Some(data)) => HttpResult(200, ImageBody(data.content, data.format))
        case _ => HttpResult(500, ErrorBody(InternalError))
  }

  /** A provider 304 is never relayed: the route cannot build a 304 response
      with a JSON body, so whatever the body, the catch answers 500. */
  lemma NotModifiedBecomesInternalError(body: ProviderBody)
    ensures Normalise(Response(304, body)) == HttpResult(500, ErrorBody(InternalError))
  {
  }

  /** A provider error whose body is the JSON value `null` is not relayed:
      reading its `message` throws, and the catch answers 500. */
  lemma NullErrorBodyBecomesInternalError(status: int)
    requires !IsOk(status)
    ensures Normalise(Response(status, JsonNull)) == HttpResult(500, ErrorBody(InternalError))
  {
  }

  /** The whole route. `outcome` is what the provider would answer; it is
      consulted only if a request is actually sent. */
  function Post(body: InboundBody, cfg: Config, outcome: ProviderOutcome): (x: Exchange)
    ensures x.sent.Some? <==> Prepare(body, cfg).Dispatch?
    ensures x.sent.None? ==> x.result == Prepare(body, cfg).result
    ensures x.sent.Some? ==> x.sent.value == Prepare(body, cfg).outbound && x.result == Normalise(outcome)
    ensures IsOk(x.result.status) <==> x.result.body.ImageBody?
    ensures x.result.body.ErrorBody? ==> x.result.body.error != ""
  {
    match Prepare(body, cfg)
    case Respond(result) => Exchange(result, None)
    case Dispatch(outbound) => Exchange(Normalise(outcome), Some(outbound))
  }

  /** A missing or empty image is refused with 400 before the configuration
      is looked at, whatever the configuration and the provider would do, and
      nothing is sent. */
  lemma MissingImageRefusedFirst(req: RenderRequest, cfg: Config, outcome: ProviderOutcome)
    requires !Truthy(req.imageUrl)
    ensures Post(Body(req), cfg, outcome) == Exchange(HttpResult(400, ErrorBody(ImageRequired)), None)
  {
  }

  /** A configuration error answers 500 without any provider call, and the
      answer does not depend on the request beyond its image being present. */
  lemma MisconfigurationDoesNotVaryByRequest(r1: RenderRequest, r2: RenderRequest, cfg: Config,
                                              o1: ProviderOutcome, o2: ProviderOutcome)
    requires Truthy(r1.imageUrl) && Truthy(r2.imageUrl)
    requires !ApiKeyConfigured(cfg) || !TemplateConfigured(cfg)
    ensures Post(Body(r1), cfg, o1) == Post(Body(r2), cfg, o2)
    ensures Post(Body(r1), cfg, o1).sent.None? && Post(Body(r1), cfg, o1).result.status == 500
  {
  }

  /** The background colour is written inside `modifications`, next to the
      photo, and nowhere else in the payload (the comment above that line of
      the route calls it a top-level parameter; the code does not do that). */
  lemma BackgroundColorInsideModifications(req: RenderRequest, cfg: Config, outcome: ProviderOutcome)
    requires Truthy(req.backgroundColor)
    requires Post(Body(req), cfg, outcome).sent.Some?
    ensures var p := Post(Body(req), cfg, outcome).sent.value.payload;
            "canvasBackgroundColor" in p.modifications &&
            p.modifications["canvasBackgroundColor"] == req.backgroundColor.value &&
            p == ProviderPayload(p.templateId, p.modifications, ResponseSpec("url", "png", 3))
  {
  }

  /** The caption the provider sees is the first `min(60, |caption|)`
      characters of the client's caption, and there is none when the client's
      caption is empty or absent. */
  lemma CaptionTruncated(req: RenderRequest, imageUrl: string)
    ensures var m := Modifications(imageUrl, req);
            ("caption" in m <==> req.caption.Some? && req.caption.value != "") &&
            ("caption" in m ==> m["caption"] == req.caption.value[..if |req.caption.value| <= 60 then |req.caption.value| else 60])
  {
  }
}
