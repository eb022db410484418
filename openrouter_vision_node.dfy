/** `OpenRouterVisionNode`: an image and a prompt sent to OpenRouter in a
    single attempt, with no sampling fields. */
module OpenRouterVisionNode {
  import opened Base
  import opened Json
  import opened Images
  import opened Chat
  import opened Transport

  /** `_to_pil`: a PIL image passes through untouched; an array is squeezed,
      and on three axes turned to channels-last when its first axis is 1, 3
      or 4, then given the mode of its last axis; two axes are grayscale;
      anything else is refused. */
  function ToPil(img: ImageInput): (r: Conversion)
    ensures img.PilImage? ==> r == Converted(img.picture)
    ensures img.ArrayImage? ==> MeetsReference(img.shape, r)
  {
    match img
    case PilImage(p) => Converted(p)
    case ArrayImage(shape) =>
      var s := Squeeze(shape);
      if |s| == 3 then
        var hwc := if ChannelFirstSize(s[0]) then ToChannelLast(s) else s;
        var ch := hwc[2];
        match ModeFor(ch)
        case None => Rejected(UnsupportedChannels(ch))
        case Some(mode) => Converted(Picture(mode, hwc[0], hwc[1]))
      else if |s| == 2 then Converted(Picture("L", s[0], s[1]))
      else Rejected(UnhandledShape(s))
  }

  const ChannelsLead: string := "[to_pil] Unsupported channel count: "
  const ShapeLead: string := "[to_pil] Cannot handle array shape: "

  /** The `TypeError` texts of this converter; the two kinds of error are
      told apart by the word after `[to_pil] `. */
  function ErrorText(e: ConversionError): (r: string)
    ensures ErrorTextReadsBack(r, e, ChannelsLead, ShapeLead)
    ensures StartsWith(r, ChannelsLead) <==> e.UnsupportedChannels?
  {
    var r := TypeErrorText(e, ChannelsLead, ShapeLead);
    if e.UnhandledShape? then
      assert r[..|ShapeLead|] == ShapeLead;
      assert r[9] == 'C';
      r
    else r
  }

  /** The URL, headers and payload: only `model` and `messages`, the image
      sent as a JPEG data URL in the user message. */
  function BuildRequest(apiKey: string, modelName: string, systemPrompt: string, userPrompt: string,
                        dataUrl: string): (r: Request)
    ensures Interpret(r) == Some(Call(OpenRouter(apiKey), modelName, VisionChat(systemPrompt, userPrompt, dataUrl),
                                      NoSampling, None))
  {
    var body := map["model" := Str(modelName), "messages" := VisionMessages(systemPrompt, userPrompt, dataUrl)];
    assert body.Keys == {"model", "messages"};
    EndpointOfOpenRouter(apiKey);
    InterpretFlat(OpenRouterUrl, BearerHeaders(apiKey), body, OpenRouter(apiKey), modelName,
                  VisionChat(systemPrompt, userPrompt, dataUrl));
    Request(OpenRouterUrl, BearerHeaders(apiKey), Obj(body))
  }

  /** `call_openrouter`: the reply and the requests posted (none or one).
      `jpegBase64` stands for the thumbnail, JPEG and base64 steps. */
  function CallOpenRouter(apiKey: string, modelName: string, systemPrompt: string, userPrompt: string,
                          img: ImageInput, jpegBase64: Picture -> string, outcome: Outcome)
    : (result: (Reply, seq<Request>))
    ensures ToPil(img).Rejected? ==>
      result == (Error("Error converting image: " + ErrorText(ToPil(img).error)), [])
    ensures ToPil(img).Converted? ==>
      && result.0 == SingleAttempt(outcome)
      && result.1 == [BuildRequest(apiKey, modelName, systemPrompt, userPrompt, DataUrl(jpegBase64(ToPil(img).picture)))]
  {
    match ToPil(img)
    case Rejected(e) => (Error("Error converting image: " + ErrorText(e)), [])
    case Converted(p) =>
      var req := BuildRequest(apiKey, modelName, systemPrompt, userPrompt, DataUrl(jpegBase64(p)));
      (SingleAttempt(outcome), [req])
  }

  /** At most one request is posted, and none when the image is refused;
      a posted request carries a JPEG data URL and no sampling fields. */
  lemma {:induction false} SingleRequest(apiKey: string, modelName: string, systemPrompt: string, userPrompt: string,
                                         img: ImageInput, jpegBase64: Picture -> string, outcome: Outcome)
    ensures var (_, sent) := CallOpenRouter(apiKey, modelName, systemPrompt, userPrompt, img, jpegBase64, outcome);
      && |sent| <= 1
      && (sent == [] <==> ToPil(img).Rejected?)
      && (sent != [] ==> Interpret(sent[0]).Some? && Interpret(sent[0]).value.topLevel == NoSampling
                         && Interpret(sent[0]).value.options.None?
                         && StartsWith(Interpret(sent[0]).value.messages[1].content.parts[1].url, JpegDataUrlPrefix))
  {
    var (_, sent) := CallOpenRouter(apiKey, modelName, systemPrompt, userPrompt, img, jpegBase64, outcome);
    if sent != [] {
      var url := DataUrl(jpegBase64(ToPil(img).picture));
      assert Interpret(sent[0]).value.messages == VisionChat(systemPrompt, userPrompt, url);
    }
  }

  /** A PIL image is never refused, whatever its mode. */
  lemma PilNeverRefused(apiKey: string, modelName: string, systemPrompt: string, userPrompt: string,
                        p: Picture, jpegBase64: Picture -> string, outcome: Outcome)
    ensures CallOpenRouter(apiKey, modelName, systemPrompt, userPrompt, PilImage(p), jpegBase64, outcome).0
      == SingleAttempt(outcome)
  {
  }

  /** An array that squeezes to a single axis is refused with the
      one-element tuple text of that axis, and nothing is sent. */
  lemma VectorRefused(apiKey: string, modelName: string, systemPrompt: string, userPrompt: string,
                      shape: seq<nat>, jpegBase64: Picture -> string, outcome: Outcome)
    requires |Squeeze(shape)| == 1
    ensures CallOpenRouter(apiKey, modelName, systemPrompt, userPrompt, ArrayImage(shape), jpegBase64, outcome)
      == (Error("Error converting image: " + ShapeLead + "(" + NatToString(Squeeze(shape)[0]) + ",)"), [])
  {
    var e, d := "Error converting image: ", NatToString(Squeeze(shape)[0]);
    assert e + (ShapeLead + ("(" + d + ",)")) == e + ShapeLead + "(" + d + ",)";
  }
}
