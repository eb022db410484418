# ComfyUI chat-completion nodes, modelled in Dafny

The repository is a set of ComfyUI custom nodes. Each node takes a system
prompt and a user prompt, and the vision nodes also take an image. The node
posts a chat-completion request either to OpenRouter (HTTPS, bearer token)
or to a local Ollama server (plain HTTP on a given `ip:port`). It returns
the text of `choices[0].message.content`, or an error string.

The model covers the four pieces of logic the seven node files share:

- **Image shapes** (`Images`). The shape side of `_to_pil`: `np.squeeze`;
  the channel-first guess and transpose; the channel-count-to-mode table;
  and the two `TypeError`s.
- **Request builders** (`Chat` and one module per node). Each builder is a
  pure function from the node's arguments to a URL, a header dict and a
  JSON body. `Chat.Interpret` is the reader a chat-completion server
  applies to a request: which backend and key, which model, which
  messages, which sampling fields at top level and under `options`. Every
  builder is proved against it.
- **The bounded retry loop** (`Transport.Send`). `for attempt in range(1,
  4)` with early returns becomes a method with loop invariants. It
  consumes a sequence of outcomes standing in for the network and is
  proved equal to the reference `Transport.Expected`. Lemmas about
  `Expected` state the properties: at most three attempts, the first
  success wins, the third failure is reported, earlier failures are
  discarded, and nothing after the loop is ever reached.
- **Response extraction** (`Json.ChoiceContent`).
  `j["choices"][0]["message"]["content"]` on a parsed JSON value follows
  Python's subscript rules. `len(content)` runs in the success log line,
  inside the `try`, so content without a length also counts as a failed
  attempt (`Transport.Classify`).

One module per source file holds that file's builder, its entry point and,
for the vision nodes, its own `_to_pil` in the file's own control-flow form:
`OpenRouterNode`, `OpenRouterNodeExperimental`, `OllamaNode`,
`OllamaNodeExperimental`, `OpenRouterVisionNode`,
`OpenRouterVisionNodeExperimental` and `OllamaVisionNodeExperimental`.

Behaviour the code has and the model keeps:

- After `np.squeeze` no axis has size 1. The `1` in the channel-first test
  and the `1: "L"` table entry are therefore dead for three-axis input.
  Grayscale only comes from two-axis arrays (`Images.NoGrayscaleOnThreeAxes`).
- An image conversion failure returns `"Error converting image: ..."`.
  This is the one error text that does not start with `"Error: "`. No
  request is sent.
- Nothing after the retry loop is reachable. In `openrouter_node.py` and
  `openrouter_node_experimental.py` that would be Python's implicit `None`.
  In the other retrying files it is `"Error: exhausted retries"`.
- The single-attempt vision node words an HTTP error as
  `"Error: HTTP {code} {reason}"`. The retrying nodes use
  `"Error: HTTPError {code}: {reason}"`.

## Model

| member | source | states |
|---|---|---|
| Base.NatToString | openrouter_node.py:66 | the decimal text of a status code is a non-empty run of digits without a leading zero |
| Base.NatToStringRoundTrip | openrouter_node.py:66 | reading the decimal text back gives the number, so the code in an error text is exact |
| Base.DigitsRoundTrip | openrouter_node.py:66 | conversely, every digit string without leading zeros is the decimal text of the number it stands for |
| Json.Key | openrouter_node.py:61 | a dict lookup succeeds exactly when the key is present; otherwise the error is Python's `KeyError` text, or the `TypeError` text for a value that is not a dict |
| Json.First | openrouter_node.py:61 | `[0]` succeeds exactly on a non-empty list or string, giving the first element; otherwise the error is Python's `IndexError` text for an empty list or string, the `KeyError` text `0` for a dict, or the "not subscriptable" `TypeError` text |
| Json.Completion | openrouter_node.py:61 | the response shape the nodes expect yields its content under the lookup chain |
| Json.ChoiceContent | openrouter_node.py:61 | the lookup chain succeeds exactly when `choices` is a non-empty list whose first item has a `message` dict holding `content`, and it then yields that content; otherwise its error is the error of the first step of the chain that fails |
| Json.StringChoices | openrouter_node.py:61 | a non-empty string under `choices` passes `[0]` and fails at `["message"]` with the string-index `TypeError` |
| Json.MissingChoices | openrouter_node.py:61 | a response without `choices` fails with `'choices'` |
| Json.EmptyChoices | openrouter_node.py:61 | an empty `choices` list fails with `list index out of range` |
| Images.Squeeze | openrouter_vision_node.py:48 | no size-1 axis is left, and every other size keeps its multiplicity |
| Images.SqueezeLength | openrouter_vision_node.py:48 | the rank drops by exactly the number of size-1 axes |
| Images.SqueezeAppend | openrouter_vision_node.py:48 | squeezing distributes over concatenation of shapes |
| Images.SqueezeIdempotent | openrouter_vision_node.py:48 | squeezing twice is the same as squeezing once |
| Images.SqueezeKeepsElements | openrouter_vision_node.py:48 | squeezing never changes the element count |
| Images.SqueezeAllOnes | openrouter_vision_node.py:48 | a shape made only of ones squeezes to rank 0 |
| Images.ShapeText | openrouter_vision_node.py:69 | the shape tuple text is parenthesised, is `()` exactly for rank 0, and has a trailing comma exactly for rank 1 |
| Images.ShapeTextReadBack | openrouter_vision_node.py:69 | the tuple text of every shape reads back, number by number, as that shape, under a reader that refuses leading zeros |
| Images.ShapeTextOfRead | openrouter_vision_node.py:69 | only the tuple text of a shape reads back as that shape, so the text printed is exactly Python's |
| Images.ShapeTextExact | openrouter_vision_node.py:69 | a text reads as a shape exactly when it is that shape's tuple text |
| Images.TypeErrorText | openrouter_vision_node_experimental.py:60-64 | an unsupported channel count is written after its lead in exactly as many digits as its decimal form has, and reads back from them; a refused shape's tuple text follows its lead |
| Images.SplitFormErrorText | openrouter_vision_node_experimental.py:60-64 | the split-form converters' texts read back as above under `Unsupported channels: ` and `Cannot handle shape: `, and the text starts with `Unsupported channels: ` exactly for a channel error |
| Images.ToChannelLast | openrouter_vision_node.py:59-60 | the transpose `(1, 2, 0)` moves the first axis last and keeps the other two in order |
| Images.ModeFor | openrouter_vision_node.py:63 | a mode exists exactly for 1, 3 and 4 channels; no mode name is empty; `L` exactly for 1 |
| Images.ReferenceSucceedsIff | openrouter_vision_node.py:56-69 | conversion succeeds exactly on rank 2, or on rank 3 when the post-transpose last axis is 1, 3 or 4; the mode is `L` on rank 2 and the table's mode on rank 3 |
| Images.NoGrayscaleOnThreeAxes | openrouter_vision_node.py:48-63 | a grayscale result always comes from an array of squeezed rank 2 |
| Images.AllOnesRejected | openrouter_vision_node_experimental.py:48-64 | an all-ones array is refused as the empty shape `()` |
| Images.ComfyImageConverts | openrouter_vision_node.py:48-71 | a `[1, h, w, c]` ComfyUI batch with `c` in {3, 4} and an ordinary height and width converts to an `h` by `w` image of the mode of `c` |
| Images.ShortImageMisread | openrouter_vision_node.py:57-61 | a ComfyUI image 3 or 4 pixels high is read as channels-first, with its height taken as the channel count |
| Images.BatchRejected | openrouter_vision_node.py:66-69 | a batch of more than one image keeps four axes and is refused with its shape |
| Images.OneRowReadAsGray | openrouter_vision_node.py:48-67 | a one-pixel-high colour image squeezes to two axes and is read as grayscale |
| Chat.DataUrl | openrouter_vision_node.py:93 | the image URL starts with `data:image/jpeg;base64,` |
| Chat.TextPartJson | openrouter_vision_node.py:99 | the text part literal reads back as that text part |
| Chat.ImagePartJson | openrouter_vision_node.py:103 | the `image_url` part literal reads back as an image part with that URL |
| Chat.MessageJson | openrouter_node.py:39-40 | a `{"role", "content"}` literal reads back as a message with that role and content |
| Chat.PlainMessages | openrouter_node.py:38-41 | the text nodes' message list reads back as system then user, each a plain string |
| Chat.VisionMessages | openrouter_vision_node.py:97-105 | the vision message list reads back as a system message of one text part, then a user message of a text part followed by the image part |
| Chat.LocalHost | comfyui_ollama_node.py:32 | a host read from a URL rebuilds that URL |
| Chat.LocalHostOfLocalUrl | comfyui_ollama_node.py:32 | the host read from `http://{ip_port}/v1/chat/completions` is `ip_port` |
| Chat.OpenRouterUrlIsHttps | openrouter_node.py:31 | the fixed OpenRouter endpoint is an `https://` URL |
| Chat.EndpointOfOpenRouter | openrouter_node.py:31-35 | the fixed URL with the bearer headers addresses OpenRouter with that key |
| Chat.EndpointOfLocal | comfyui_ollama_node.py:32-35 | the `ip_port` URL with the JSON content type alone addresses the local server at `ip_port` |
| Chat.Interpret | openrouter_node.py:31-43 | a request is read only when its URL and headers name a backend |
| Chat.AuthorizationIffOpenRouter | openrouter_node.py:31-35 | an `Authorization` header is present exactly when the request goes to OpenRouter, over HTTPS with `Bearer {key}`; the local server is reached over plain HTTP with the content type alone |
| Chat.InterpretFlat | openrouter_node.py:36-43 | a body without `options` is read with its top-level sampling fields |
| Chat.InterpretNested | comfyui_ollama_node.py:36-43 | a body with an `options` dict is read with `num_predict` as the token limit |
| Transport.Classify | openrouter_node.py:52-76 | an attempt succeeds exactly when a body arrived, the lookup chain succeeded and the content has a length; an HTTP error keeps its status code and reason unchanged, and other exceptions keep their text; a malformed body fails with the lookup chain's error text, and content without a length with the `len()` `TypeError` text |
| Transport.Describe | openrouter_node.py:65-75 | an HTTP failure reads `HTTPError `, then digits that read back as the status code, then `: ` and the reason; any other failure is its exception text unchanged |
| Transport.SingleAttempt | openrouter_vision_node.py:117-133 | one attempt returns the content on success, `Error: HTTP {code} {reason}` on an HTTP error, `Error: ` and the exception text otherwise |
| Transport.FirstSuccess | openrouter_node.py:47-63 | the index found is a success with no success before it; no index means no success at all |
| Transport.AttemptsMade | openrouter_node.py:47 | between one and three requests are posted |
| Transport.Send | openrouter_node.py:47-76 | the loop returns what `Expected` says, after exactly `AttemptsMade` posts of the same request |
| Transport.FirstSuccessWins | openrouter_node.py:47-63 | the first success among the first three attempts is returned, and no later attempt is made |
| Transport.ThirdFailureReported | openrouter_node.py:65-75 | when all three attempts fail, the result is `Error: ` and the third failure's description, after three requests |
| Transport.EarlierFailuresDiscarded | openrouter_node.py:65-75 | two runs whose first three attempts fail alike, except in the first two, return the same error |
| Transport.LaterOutcomesIgnored | openrouter_node.py:47 | what a server would answer to a fourth request never matters |
| Transport.NeverFallsThrough | openrouter_node.py:47-76 | the loop always returns an answer or an error starting with `Error: ` |
| Transport.AlwaysServerError | openrouter_node.py:65-69 | a server that always answers HTTP 500 gets exactly three requests, and the error carries the code 500 |
| Transport.ImmediateSuccess | comfyui_ollama_node.py:46-62 | a well-formed first reply is returned after one request |
| Transport.SingleAttemptAgreesOnSuccess | openrouter_vision_node.py:117-122 | the single attempt and the retry loop agree whenever the first attempt succeeds |
| OpenRouterNode.BuildRequest | openrouter_node.py:31-43 | OpenRouter with the caller's key and model, plain system and user messages, `temperature` alone, no `options` |
| OpenRouterNode.CallOpenRouter | openrouter_node.py:30-76 | the reply is the retry loop's result and never the implicit `None`; every posted request is the one built |
| OpenRouterNodeExperimental.BuildRequest | openrouter_node_experimental.py:33-47 | OpenRouter with plain messages and top-level `max_tokens`, `temperature` and `top_p` equal to the arguments, no `options` |
| OpenRouterNodeExperimental.CallOpenRouter | openrouter_node_experimental.py:31-83 | the reply is the retry loop's result and never the implicit `None`; every posted request is the one built |
| OllamaNode.BuildRequest | comfyui_ollama_node.py:32-43 | the local server at `ip_port`, no `Authorization` header, plain messages, and `options` holding `temperature` alone with nothing at top level |
| OllamaNode.CallOllama | comfyui_ollama_node.py:31-75 | the reply is the retry loop's result; every posted request is the one built |
| OllamaNodeExperimental.BuildRequest | comfyui_ollama_node_experimental.py:35-50 | the local server at `ip_port`, plain messages, and `options` holding `num_predict` (the `max_tokens` argument), `temperature` and `top_p`, with nothing at top level |
| OllamaNodeExperimental.CallOllama | comfyui_ollama_node_experimental.py:33-85 | the reply is the retry loop's result; every posted request is the one built |
| OpenRouterVisionNode.ToPil | openrouter_vision_node.py:33-73 | a PIL image passes through unchanged; an array converts or is refused exactly as the shape reference says |
| OpenRouterVisionNode.ErrorText | openrouter_vision_node.py:62-69 | the nested converter's texts read back under `[to_pil] Unsupported channel count: ` and `[to_pil] Cannot handle array shape: `, and start with the first lead exactly for a channel error |
| OpenRouterVisionNode.BuildRequest | openrouter_vision_node.py:93-115 | OpenRouter with the vision messages and no sampling fields at all |
| OpenRouterVisionNode.CallOpenRouter | openrouter_vision_node.py:75-133 | a refused image gives `Error converting image: ` and the converter's text with no request; otherwise one request with the image's data URL, answered by a single attempt |
| OpenRouterVisionNode.SingleRequest | openrouter_vision_node.py:79-133 | at most one request is posted, none exactly when the image is refused, and a posted one has no sampling fields and a JPEG data URL |
| OpenRouterVisionNode.PilNeverRefused | openrouter_vision_node.py:36-38 | a PIL image always reaches the request |
| OpenRouterVisionNode.VectorRefused | openrouter_vision_node.py:66-69 | every array that squeezes to one axis `n` is refused with `Error converting image: [to_pil] Cannot handle array shape: (n,)`, and nothing is sent |
| OpenRouterVisionNodeExperimental.ToPil | openrouter_vision_node_experimental.py:38-66 | a PIL image passes through unchanged; an array converts or is refused exactly as the shape reference says |
| OpenRouterVisionNodeExperimental.SameConversion | openrouter_vision_node_experimental.py:48-66 | the split transpose test converts every input exactly as the nested one does |
| OpenRouterVisionNodeExperimental.BuildRequest | openrouter_vision_node_experimental.py:81-105 | OpenRouter with the vision messages and top-level `max_tokens`, `temperature` and `top_p` equal to the arguments |
| OpenRouterVisionNodeExperimental.CallOpenRouter | openrouter_vision_node_experimental.py:68-134 | a refused image gives `Error converting image: ` and the converter's text with no request; otherwise the retry loop's result, with every request carrying the one data URL |
| OllamaVisionNodeExperimental.ToPil | comfyui_ollama_vision_node_experimental.py:39-61 | a PIL image passes through unchanged; an array converts or is refused exactly as the shape reference says |
| OllamaVisionNodeExperimental.SameConversion | comfyui_ollama_vision_node_experimental.py:52-56 | `if not mode` refuses exactly the channel counts `is None` refuses, so the converter agrees with the nested one |
| OllamaVisionNodeExperimental.BuildRequest | comfyui_ollama_vision_node_experimental.py:74-96 | the local server at `ip_port`, no `Authorization` header, the vision messages, and `options` holding `num_predict`, `temperature` and `top_p`, with nothing at top level |
| OllamaVisionNodeExperimental.CallOllama | comfyui_ollama_vision_node_experimental.py:63-119 | a refused image gives `Error converting image: ` and the converter's text with no request; otherwise the retry loop's result, with every request carrying the one data URL |

## Left out

- Network I/O (`urllib.request.Request`, `urlopen`, reading the
  response) is not modelled. It is replaced by a sequence of outcomes
  (`Transport.Outcome`): a parsed body, an `HTTPError` with code and
  reason, or any other exception with its text.
- Byte-level JSON (`json.dumps`, `json.loads`, UTF-8) is not modelled.
  Bodies and responses are `Json.Json` values. Dict key order and the
  determinism of serialisation are not modelled.
- The response body of an `HTTPError`, which the single-attempt vision
  node reads only for its log line, is not modelled.
- Pillow and base64 are library calls and are not modelled:
  `Image.fromarray`, `thumbnail((512, 512))`, the JPEG save and
  `base64.b64encode`. The thumbnail, JPEG and base64 steps together are
  the parameter `jpegBase64` of each vision entry point, and only the
  `data:image/jpeg;base64,` prefix is checked.
  - These three steps run outside any `try`. An RGBA image cannot be saved
    as JPEG, so Pillow raises and the exception reaches the host; the model
    does not capture that.
  - `Image.fromarray` runs inside `_to_pil`, under the `try`. It is assumed
    to succeed on every shape the converter accepts. A failure of it, for
    example on a zero-sized axis, would instead give
    `Error converting image: ` and Pillow's text, with no request sent.
- The float-to-`uint8` pixel conversion (`(arr * 255).clip(0, 255)`) is
  not modelled. Sampling values are opaque `Json` values passed through
  unchanged, and no floating-point arithmetic is modelled.
- The tensor-to-array step (`img.cpu().detach().numpy()`, `np.array(img)`)
  is not modelled. An array input is reduced to its shape.
- Logging is not modelled. The log line's `len(content)` is kept, because
  it decides whether an attempt succeeds.
- Python default argument values (`temperature=0.7`, `max_tokens=1024`,
  `top_p=0.9`) are not modelled. The host supplies them, so every entry
  point takes all arguments explicitly.
- Host registration and UI metadata are not modelled (`INPUT_TYPES`,
  `RETURN_TYPES`, `NODE_CLASS_MAPPINGS`, `__init__.py`), nor the node's
  one-element tuple return, which is modelled as its single value.
- `comfyui_ollama_vision_node.py` is not part of this model.
- Exception texts follow CPython 3.11 and later: `KeyError` shows the
  quoted key, plus the `IndexError` and `TypeError` wordings of
  subscripting and `len()`. Lookup keys are assumed to need no escaping
  in `repr`.
- Chat.Interpret: reads only the request fields the nodes produce. It
  refuses any other key rather than modelling how a real server treats
  unknown fields.
