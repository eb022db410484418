/** `OpenRouterVisionNodeExperimental`: an image and a prompt sent to
    OpenRouter with top-level sampling fields, retried up to three times. */
module OpenRouterVisionNodeExperimental {
  import opened Base
  import opened Json
  import opened Images
  import opened Chat
  import opened Transport
  import OpenRouterVisionNode

  /** `_to_pil`, with the transpose test and the mode lookup as two separate
      `if`s: the transpose applies to three axes whose first is 1, 3 or 4,
      and the rank is checked again afterwards. */
  function ToPil(img: ImageInput): (r: Conversion)
    ensures img.PilImage? ==> r == Converted(img.picture)
    ensures img.ArrayImage? ==> MeetsReference(img.shape, r)
  {
    match img
    case PilImage(p) => Converted(p)
    case ArrayImage(shape) =>
      var s := Squeeze(shape);
      var a := if |s| == 3 && ChannelFirstSize(s[0]) then ToChannelLast(s) else s;
      if |a| == 3 then
        match ModeFor(a[2])
        case None => Rejected(UnsupportedChannels(a[2]))
        case Some(mode) => Converted(Picture(mode, a[0], a[1]))
      else if |a| == 2 then Converted(Picture("L", a[0], a[1]))
      else Rejected(UnhandledShape(a))
  }

  /** The split form converts exactly as the nested form of the
      single-attempt node does. */
  lemma SameConversion(img: ImageInput)
    ensures ToPil(img) == OpenRouterVisionNode.ToPil(img)
  {
  }

  /** The URL, headers and payload: the vision messages and top-level
      `max_tokens`, `temperature` and `top_p`. */
  function BuildRequest(apiKey: string, modelName: string, systemPrompt: string, userPrompt: string,
                        dataUrl: string, maxTokens: Json, temperature: Json, topP: Json): (r: Request)
    ensures Interpret(r) == Some(Call(OpenRouter(apiKey), modelName, VisionChat(systemPrompt, userPrompt, dataUrl),
                                      Sampling(Some(maxTokens), Some(temperature), Some(topP)), None))
  {
    var body := map["model" := Str(modelName), "messages" := VisionMessages(systemPrompt, userPrompt, dataUrl),
                    "max_tokens" := maxTokens, "temperature" := temperature, "top_p" := topP];
    assert body.Keys == {"model", "messages", "max_tokens", "temperature", "top_p"};
    EndpointOfOpenRouter(apiKey);
    InterpretFlat(OpenRouterUrl, BearerHeaders(apiKey), body, OpenRouter(apiKey), modelName,
                  VisionChat(systemPrompt, userPrompt, dataUrl));
    Request(OpenRouterUrl, BearerHeaders(apiKey), Obj(body))
  }

  /** `call_openrouter`: a refused image is reported before any request; a
      converted one is encoded once (`jpegBase64` stands for the thumbnail,
      JPEG and base64 steps) and posted up to three times with the same
      body. The fallback after the loop is never reached. */
  method CallOpenRouter(apiKey: string, modelName: string, systemPrompt: string, userPrompt: string,
                        img: ImageInput, jpegBase64: Picture -> string,
                        maxTokens: Json, temperature: Json, topP: Json, outcomes: seq<Outcome>)
    returns (r: Reply, sent: seq<Request>)
    requires |outcomes| >= MaxAttempts
    ensures ToPil(img).Rejected? ==>
      r == Error("Error converting image: " + SplitFormErrorText(ToPil(img).error)) && sent == []
    ensures ToPil(img).Converted? ==>
      && r == Expected(outcomes)
      && 1 <= |sent| == AttemptsMade(outcomes) <= MaxAttempts
      && forall i :: 0 <= i < |sent| ==>
           sent[i] == BuildRequest(apiKey, modelName, systemPrompt, userPrompt,
                                   DataUrl(jpegBase64(ToPil(img).picture)), maxTokens, temperature, topP)
  {
    var conversion := ToPil(img);
    if conversion.Rejected? {
      return Error("Error converting image: " + SplitFormErrorText(conversion.error)), [];
    }
    var dataUrl := DataUrl(jpegBase64(conversion.picture));
    var req := BuildRequest(apiKey, modelName, systemPrompt, userPrompt, dataUrl, maxTokens, temperature, topP);
    r, sent := Send(req, outcomes, Error(ExhaustedRetries));
  }
}
