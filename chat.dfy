/** The chat-completion request every node posts: a URL, a header map and a
    JSON body. Besides the pieces the node files share (the two endpoints,
    the two header sets, the two message layouts), this module holds
    `Interpret`, the reading of a request that a chat-completion server
    applies: which backend and key, which model, which messages, which
    sampling fields at top level and under `options`. Every request builder
    is specified by what `Interpret` reads back from it. */
module Chat {
  import opened Base
  import opened Json

  datatype Request = Request(url: string, headers: map<string, string>, body: Json)

  /** The fixed endpoint of the OpenRouter nodes. */
  const OpenRouterUrl: string := "https://openrouter.ai/api/v1/chat/completions"
  const ChatPath: string := "/v1/chat/completions"
  const JsonContentType: string := "application/json"

  /** `f"http://{ip_port}/v1/chat/completions"`. */
  function LocalUrl(ipPort: string): string {
    "http://" + ipPort + ChatPath
  }

  /** The OpenRouter header dict. */
  function BearerHeaders(apiKey: string): map<string, string> {
    map["Authorization" := "Bearer " + apiKey, "Content-Type" := JsonContentType]
  }

  /** The Ollama header dict. */
  const JsonHeaders: map<string, string> := map["Content-Type" := JsonContentType]

  const JpegDataUrlPrefix: string := "data:image/jpeg;base64,"

  /** `"data:image/jpeg;base64," + base64.b64encode(...).decode()`, with the
      base64 text taken as given. */
  function DataUrl(encoded: string): (url: string)
    ensures StartsWith(url, JpegDataUrlPrefix)
  {
    JpegDataUrlPrefix + encoded
  }

  // ---------------------------------------------------------------------
  // Messages

  datatype Part = TextPart(text: string) | ImagePart(url: string)
  datatype Content = Plain(text: string) | Parts(parts: seq<Part>)
  datatype Message = Message(role: string, content: Content)

  /** The text nodes' messages: system, then user, each content a plain string. */
  function PlainChat(systemPrompt: string, userPrompt: string): seq<Message> {
    [Message("system", Plain(systemPrompt)), Message("user", Plain(userPrompt))]
  }

  /** The vision nodes' messages: the system content is one text part; the
      user content is a text part followed by an image part. */
  function VisionChat(systemPrompt: string, userPrompt: string, dataUrl: string): seq<Message> {
    [ Message("system", Parts([TextPart(systemPrompt)])),
      Message("user", Parts([TextPart(userPrompt), ImagePart(dataUrl)])) ]
  }

  /** `{"type": "text", "text": text}`. */
  function TextPartJson(text: string): (j: Json)
    ensures ParsePart(j) == Some(TextPart(text))
  {
    var m := map["type" := Str("text"), "text" := Str(text)];
    assert m.Keys == {"type", "text"};
    Obj(m)
  }

  /** `{"type": "image_url", "image_url": {"url": url}}`. */
  function ImagePartJson(url: string): (j: Json)
    ensures ParsePart(j) == Some(ImagePart(url))
  {
    var inner := map["url" := Str(url)];
    var m := map["type" := Str("image_url"), "image_url" := Obj(inner)];
    assert inner.Keys == {"url"};
    assert m.Keys == {"type", "image_url"};
    assert m["type"] != Str("text");
    Obj(m)
  }

  /** `{"role": role, "content": content}`. */
  function MessageJson(role: string, content: Json): (j: Json)
    ensures ParseMessage(j) == match ParseContent(content) case Some(c) => Some(Message(role, c)) case None => None
  {
    var m := map["role" := Str(role), "content" := content];
    assert m.Keys == {"role", "content"};
    Obj(m)
  }

  lemma ParsePartsCons(x: Json, rest: seq<Json>)
    ensures ParseParts([x] + rest) ==
      if ParsePart(x).Some? && ParseParts(rest).Some? then Some([ParsePart(x).value] + ParseParts(rest).value) else None
  {
    var js := [x] + rest;
    assert js[0] == x && js[1..] == rest;
  }

  lemma ParseMessageListCons(x: Json, rest: seq<Json>)
    ensures ParseMessageList([x] + rest) ==
      if ParseMessage(x).Some? && ParseMessageList(rest).Some? then Some([ParseMessage(x).value] + ParseMessageList(rest).value) else None
  {
    var js := [x] + rest;
    assert js[0] == x && js[1..] == rest;
  }

  lemma ParsePairOfMessages(a: Json, b: Json, ma: Message, mb: Message)
    requires ParseMessage(a) == Some(ma) && ParseMessage(b) == Some(mb)
    ensures ParseMessages(Arr([a, b])) == Some([ma, mb])
  {
    assert ParseMessageList([]) == Some([]);
    ParseMessageListCons(b, []);
    assert [b] + [] == [b] && [mb] + [] == [mb];
    ParseMessageListCons(a, [b]);
    assert [a] + [b] == [a, b] && [ma] + [mb] == [ma, mb];
  }

  /** The `messages` list literal of the text nodes. */
  function PlainMessages(systemPrompt: string, userPrompt: string): (j: Json)
    ensures ParseMessages(j) == Some(PlainChat(systemPrompt, userPrompt))
  {
    var system := MessageJson("system", Str(systemPrompt));
    var user := MessageJson("user", Str(userPrompt));
    ParsePairOfMessages(system, user, Message("system", Plain(systemPrompt)), Message("user", Plain(userPrompt)));
    Arr([system, user])
  }

  /** The `messages` list literal of the vision nodes. */
  function VisionMessages(systemPrompt: string, userPrompt: string, dataUrl: string): (j: Json)
    ensures ParseMessages(j) == Some(VisionChat(systemPrompt, userPrompt, dataUrl))
  {
    var systemParts := [TextPartJson(systemPrompt)];
    var userParts := [TextPartJson(userPrompt), ImagePartJson(dataUrl)];
    ParsePartsCons(TextPartJson(systemPrompt), []);
    ParsePartsCons(ImagePartJson(dataUrl), []);
    ParsePartsCons(TextPartJson(userPrompt), [ImagePartJson(dataUrl)]);
    assert [TextPartJson(systemPrompt)] + [] == systemParts;
    assert [ImagePartJson(dataUrl)] + [] == [ImagePartJson(dataUrl)];
    assert [TextPartJson(userPrompt)] + [ImagePartJson(dataUrl)] == userParts;
    assert ParseParts([]) == Some([]);
    assert [TextPart(systemPrompt)] + [] == [TextPart(systemPrompt)];
    assert [ImagePart(dataUrl)] + [] == [ImagePart(dataUrl)];
    assert [TextPart(userPrompt)] + [ImagePart(dataUrl)] == [TextPart(userPrompt), ImagePart(dataUrl)];
    assert ParseParts(systemParts) == Some([TextPart(systemPrompt)]);
    assert ParseParts(userParts) == Some([TextPart(userPrompt), ImagePart(dataUrl)]);
    var system := MessageJson("system", Arr(systemParts));
    var user := MessageJson("user", Arr(userParts));
    ParsePairOfMessages(system, user, VisionChat(systemPrompt, userPrompt, dataUrl)[0], VisionChat(systemPrompt, userPrompt, dataUrl)[1]);
    Arr([system, user])
  }

  /** Reads one content part: exactly `{"type": "text", "text": s}` or
      `{"type": "image_url", "image_url": {"url": u}}`. */
  function ParsePart(j: Json): Option<Part> {
    if !j.Obj? || "type" !in j.fields then None
    else if j.fields["type"] == Str("text") && j.fields.Keys == {"type", "text"} then
      (if j.fields["text"].Str? then Some(TextPart(j.fields["text"].s)) else None)
    else if j.fields["type"] == Str("image_url") && j.fields.Keys == {"type", "image_url"} then
      var img := j.fields["image_url"];
      if img.Obj? && img.fields.Keys == {"url"} && img.fields["url"].Str? then Some(ImagePart(img.fields["url"].s)) else None
    else None
  }

  function ParseParts(js: seq<Json>): (r: Option<seq<Part>>)
    ensures r.Some? ==> |r.value| == |js|
  {
    if js == [] then Some([])
    else
      var head, tail := ParsePart(js[0]), ParseParts(js[1..]);
      if head.Some? && tail.Some? then Some([head.value] + tail.value) else None
  }

  /** Reads a message content: a string, or a list of parts. */
  function ParseContent(j: Json): Option<Content> {
    match j
    case Str(s) => Some(Plain(s))
    case Arr(items) => (match ParseParts(items) case Some(ps) => Some(Parts(ps)) case None => None)
    case _ => None
  }

  /** Reads one message: exactly `{"role": r, "content": c}`. */
  function ParseMessage(j: Json): Option<Message> {
    if j.Obj? && j.fields.Keys == {"role", "content"} && j.fields["role"].Str? then
      match ParseContent(j.fields["content"])
      case Some(c) => Some(Message(j.fields["role"].s, c))
      case None => None
    else None
  }

  function ParseMessageList(js: seq<Json>): (r: Option<seq<Message>>)
    ensures r.Some? ==> |r.value| == |js|
  {
    if js == [] then Some([])
    else
      var head, tail := ParseMessage(js[0]), ParseMessageList(js[1..]);
      if head.Some? && tail.Some? then Some([head.value] + tail.value) else None
  }

  function ParseMessages(j: Json): Option<seq<Message>> {
    if j.Arr? then ParseMessageList(j.items) else None
  }

  // ---------------------------------------------------------------------
  // Reading a request

  datatype Endpoint = OpenRouter(apiKey: string) | Local(ipPort: string)

  /** The three sampling fields; `None` when the body does not carry one. */
  datatype Sampling = Sampling(maxTokens: Option<Json>, temperature: Option<Json>, topP: Option<Json>)

  const NoSampling: Sampling := Sampling(None, None, None)

  /** What a request asks for. `options` is `None` when the body has no
      `options` object. */
  datatype Call = Call(endpoint: Endpoint, model: string, messages: seq<Message>,
                       topLevel: Sampling, options: Option<Sampling>)

  const BodyKeys: set<string> := {"model", "messages", "max_tokens", "temperature", "top_p", "options"}
  const OptionKeys: set<string> := {"num_predict", "temperature", "top_p"}

  function Lookup(m: map<string, Json>, k: string): Option<Json> {
    if k in m then Some(m[k]) else None
  }

  /** The host:port of a plain-HTTP chat URL. */
  function LocalHost(url: string): (r: Option<string>)
    ensures r.Some? ==> url == LocalUrl(r.value)
  {
    if |url| >= 27 && url[..7] == "http://" && url[|url| - 20..] == ChatPath then
      var host := url[7..|url| - 20];
      assert url == url[..7] + host + url[|url| - 20..];
      Some(host)
    else None
  }

  lemma LocalHostOfLocalUrl(ipPort: string)
    ensures LocalHost(LocalUrl(ipPort)) == Some(ipPort)
  {
    var url := LocalUrl(ipPort);
    assert url[..7] == "http://";
    assert url[|url| - 20..] == ChatPath;
    assert url[7..|url| - 20] == ipPort;
  }

  /** Which backend a URL and header set address: the OpenRouter URL with a
      bearer token and the JSON content type and nothing else, or a
      plain-HTTP chat URL with the JSON content type only. */
  function EndpointOf(url: string, headers: map<string, string>): Option<Endpoint> {
    if "Content-Type" !in headers || headers["Content-Type"] != JsonContentType then None
    else if headers.Keys == {"Authorization", "Content-Type"} && url == OpenRouterUrl then
      match StripPrefix("Bearer ", headers["Authorization"])
      case Some(key) => Some(OpenRouter(key))
      case None => None
    else if headers.Keys == {"Content-Type"} then
      match LocalHost(url)
      case Some(host) => Some(Local(host))
      case None => None
    else None
  }

  lemma EndpointOfOpenRouter(apiKey: string)
    ensures EndpointOf(OpenRouterUrl, BearerHeaders(apiKey)) == Some(OpenRouter(apiKey))
  {
    StripPrefixOfConcat("Bearer ", apiKey);
  }

  lemma EndpointOfLocal(ipPort: string)
    ensures EndpointOf(LocalUrl(ipPort), JsonHeaders) == Some(Local(ipPort))
  {
    LocalHostOfLocalUrl(ipPort);
  }

  /** The sampling fields of a dict, under the given names. */
  function SamplingOf(m: map<string, Json>, maxTokensKey: string): Sampling {
    Sampling(Lookup(m, maxTokensKey), Lookup(m, "temperature"), Lookup(m, "top_p"))
  }

  /** The reading of a request; `None` for anything that is not a well-formed
      chat request to one of the two backends, including a body with a key
      outside `BodyKeys` or an `options` object with a key outside
      `OptionKeys`. Ollama reads `options.num_predict` as the token limit. */
  function Interpret(r: Request): (c: Option<Call>)
    ensures c.Some? ==> EndpointOf(r.url, r.headers) == Some(c.value.endpoint)
  {
    match EndpointOf(r.url, r.headers)
    case None => None
    case Some(endpoint) =>
      if !r.body.Obj? then None
      else
        var fields := r.body.fields;
        if !(fields.Keys <= BodyKeys) || "model" !in fields || !fields["model"].Str? || "messages" !in fields then None
        else match ParseMessages(fields["messages"])
          case None => None
          case Some(messages) =>
            var topLevel := SamplingOf(fields, "max_tokens");
            if "options" !in fields then Some(Call(endpoint, fields["model"].s, messages, topLevel, None))
            else
              var opts := fields["options"];
              if opts.Obj? && opts.fields.Keys <= OptionKeys then
                Some(Call(endpoint, fields["model"].s, messages, topLevel, Some(SamplingOf(opts.fields, "num_predict"))))
              else None
  }

  /** An `Authorization` header is present exactly when the request goes to
      OpenRouter; OpenRouter is reached over HTTPS with the bearer token,
      the local server over plain HTTP with the JSON content type alone. */
  lemma AuthorizationIffOpenRouter(r: Request, c: Call)
    requires Interpret(r) == Some(c)
    ensures "Authorization" in r.headers <==> c.endpoint.OpenRouter?
    ensures c.endpoint.OpenRouter? ==>
      r.url == OpenRouterUrl && StartsWith(r.url, "https://") && r.headers["Authorization"] == "Bearer " + c.endpoint.apiKey
    ensures c.endpoint.Local? ==>
      r.url == LocalUrl(c.endpoint.ipPort) && StartsWith(r.url, "http://") && r.headers == JsonHeaders
  {
    EndpointReadBack(r.url, r.headers, c.endpoint);
  }

  lemma EndpointReadBack(url: string, headers: map<string, string>, e: Endpoint)
    requires EndpointOf(url, headers) == Some(e)
    ensures "Authorization" in headers <==> e.OpenRouter?
    ensures e.OpenRouter? ==>
      url == OpenRouterUrl && StartsWith(url, "https://") && headers["Authorization"] == "Bearer " + e.apiKey
    ensures e.Local? ==>
      url == LocalUrl(e.ipPort) && StartsWith(url, "http://") && headers == JsonHeaders
  {
    if e.OpenRouter? {
      OpenRouterReadBack(url, headers, e.apiKey);
      OpenRouterUrlIsHttps();
    } else {
      LocalReadBack(url, headers, e.ipPort);
    }
  }

  lemma OpenRouterReadBack(url: string, headers: map<string, string>, apiKey: string)
    requires EndpointOf(url, headers) == Some(OpenRouter(apiKey))
    ensures "Authorization" in headers && headers["Authorization"] == "Bearer " + apiKey
    ensures url == OpenRouterUrl
  {
  }

  lemma OpenRouterUrlIsHttps()
    ensures StartsWith(OpenRouterUrl, "https://")
  {
    assert OpenRouterUrl == "https://openrouter.ai/api/v1/" + "chat/completions";
  }

  lemma LocalReadBack(url: string, headers: map<string, string>, ipPort: string)
    requires EndpointOf(url, headers) == Some(Local(ipPort))
    ensures "Authorization" !in headers
    ensures url == LocalUrl(ipPort) && StartsWith(url, "http://") && headers == JsonHeaders
  {
    assert headers.Keys == {"Content-Type"};
    assert url == "http://" + (ipPort + ChatPath);
    StripPrefixOfConcat("http://", ipPort + ChatPath);
  }

  /** How `Interpret` reads a body without `options`. */
  lemma InterpretFlat(url: string, headers: map<string, string>, fields: map<string, Json>,
                      endpoint: Endpoint, model: string, messages: seq<Message>)
    requires EndpointOf(url, headers) == Some(endpoint)
    requires fields.Keys <= BodyKeys && "options" !in fields
    requires "model" in fields && fields["model"] == Str(model)
    requires "messages" in fields && ParseMessages(fields["messages"]) == Some(messages)
    ensures Interpret(Request(url, headers, Obj(fields))) ==
      Some(Call(endpoint, model, messages, SamplingOf(fields, "max_tokens"), None))
  {
  }

  /** How `Interpret` reads a body with an `options` object. */
  lemma InterpretNested(url: string, headers: map<string, string>, fields: map<string, Json>,
                        endpoint: Endpoint, model: string, messages: seq<Message>, options: map<string, Json>)
    requires EndpointOf(url, headers) == Some(endpoint)
    requires fields.Keys <= BodyKeys && "options" in fields && fields["options"] == Obj(options)
    requires options.Keys <= OptionKeys
    requires "model" in fields && fields["model"] == Str(model)
    requires "messages" in fields && ParseMessages(fields["messages"]) == Some(messages)
    ensures Interpret(Request(url, headers, Obj(fields))) ==
      Some(Call(endpoint, model, messages, SamplingOf(fields, "max_tokens"), Some(SamplingOf(options, "num_predict"))))
  {
  }
}
