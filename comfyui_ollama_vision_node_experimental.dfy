/** `OllamaVisionNodeExperimental`: an image and a prompt sent to a local
    Ollama server with the sampling fields under `options`, retried up to
    three times. */
module OllamaVisionNodeExperimental {
  import opened Base
  import opened Json
  import opened Images
  import opened Chat
  import opened Transport
  import OpenRouterVisionNode

  /** Python's truth value of the looked-up mode: `None` and `""` are false. */
  predicate Truthy(mode: Option<string>) {
    mode.Some? && mode.value != ""
  }

  /** `_to_pil`, in the split form, refusing a channel count when the looked
      up mode is not truthy (`if not mode`) rather than when it is `None`. */
  function ToPil(img: ImageInput): (r: Conversion)
    ensures img.PilImage? ==> r == Converted(img.picture)
    ensures img.ArrayImage? ==> MeetsReference(img.shape, r)
  {
    match img
    case PilImage(p) => Converted(p)
    case ArrayImage(shape) =>
      var s := Squeeze(shape);
      var a := if |s| == 3 && ChannelFirstSize(s[0]) then ToChannelLast(s) else s;
      if |a| == 3 then
        var mode := ModeFor(a[2]);
        if !Truthy(mode) then Rejected(UnsupportedChannels(a[2]))
        else Converted(Picture(mode.value, a[0], a[1]))
      else if |a| == 2 then Converted(Picture("L", a[0], a[1]))
      else Rejected(UnhandledShape(a))
  }

  /** The `not mode` test refuses exactly the channel counts the `is None`
      test refuses, since no mode name is empty; so this converter agrees
      with the single-attempt node's. */
  lemma SameConversion(img: ImageInput)
    ensures ToPil(img) == OpenRouterVisionNode.ToPil(img)
    ensures forall ch: nat :: Truthy(ModeFor(ch)) <==> ModeFor(ch).Some?
  {
  }

  /** The URL, headers and payload: no `Authorization` header, the vision
      messages, and `options` holding `num_predict`, `temperature` and
      `top_p`, with nothing at top level. */
  function BuildRequest(ipPort: string, modelName: string, systemPrompt: string, userPrompt: string,
                        dataUrl: string, maxTokens: Json, temperature: Json, topP: Json): (r: Request)
    ensures Interpret(r) == Some(Call(Local(ipPort), modelName, VisionChat(systemPrompt, userPrompt, dataUrl),
                                      NoSampling, Some(Sampling(Some(maxTokens), Some(temperature), Some(topP)))))
  {
    var options := map["num_predict" := maxTokens, "temperature" := temperature, "top_p" := topP];
    var body := map["model" := Str(modelName), "messages" := VisionMessages(systemPrompt, userPrompt, dataUrl),
                    "options" := Obj(options)];
    assert options.Keys == {"num_predict", "temperature", "top_p"};
    assert body.Keys == {"model", "messages", "options"};
    EndpointOfLocal(ipPort);
    InterpretNested(LocalUrl(ipPort), JsonHeaders, body, Local(ipPort), modelName,
                    VisionChat(systemPrompt, userPrompt, dataUrl), options);
    Request(LocalUrl(ipPort), JsonHeaders, Obj(body))
  }

  /** `call_ollama`: a refused image is reported before any request; a
      converted one is encoded once and posted up to three times with the
      same body. The fallback after the loop is never reached. */
  method CallOllama(ipPort: string, modelName: string, systemPrompt: string, userPrompt: string,
                    img: ImageInput, jpegBase64: Picture -> string,
                    maxTokens: Json, temperature: Json, topP: Json, outcomes: seq<Outcome>)
    returns (r: Reply, sent: seq<Request>)
    requires |outcomes| >= MaxAttempts
    ensures ToPil(img).Rejected? ==>
      r == Error("Error converting image: " + SplitFormErrorText(ToPil(img).error)) && sent == []
    ensures ToPil(img).Converted? ==>
      && r == Expected(outcomes)
      && 1 <= |sent| == AttemptsMade(outcomes) <= MaxAttempts
      && forall i :: 0 <= i < |sent| ==>
           sent[i] == BuildRequest(ipPort, modelName, systemPrompt, userPrompt,
                                   DataUrl(jpegBase64(ToPil(img).picture)), maxTokens, temperature, topP)
  {
    var conversion := ToPil(img);
    if conversion.Rejected? {
      return Error("Error converting image: " + SplitFormErrorText(conversion.error)), [];
    }
    var dataUrl := DataUrl(jpegBase64(conversion.picture));
    var req := BuildRequest(ipPort, modelName, systemPrompt, userPrompt, dataUrl, maxTokens, temperature, topP);
    r, sent := Send(req, outcomes, Error(ExhaustedRetries));
  }
}
