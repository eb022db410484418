/** `OllamaNode.call_ollama`: a text prompt to a local Ollama server, with
    the temperature under `options`, retried up to three times. */
module OllamaNode {
  import opened Base
  import opened Json
  import opened Chat
  import opened Transport

  /** The URL, headers and payload the node assembles: no `Authorization`
      header, and `{"temperature": t}` as the `options` object. */
  function BuildRequest(ipPort: string, modelName: string, systemPrompt: string, userPrompt: string,
                        temperature: Json): (r: Request)
    ensures Interpret(r) == Some(Call(Local(ipPort), modelName, PlainChat(systemPrompt, userPrompt),
                                      NoSampling, Some(Sampling(None, Some(temperature), None))))
  {
    var options := map["temperature" := temperature];
    var body := map["model" := Str(modelName), "messages" := PlainMessages(systemPrompt, userPrompt),
                    "options" := Obj(options)];
    assert options.Keys == {"temperature"};
    assert body.Keys == {"model", "messages", "options"};
    EndpointOfLocal(ipPort);
    InterpretNested(LocalUrl(ipPort), JsonHeaders, body, Local(ipPort), modelName,
                    PlainChat(systemPrompt, userPrompt), options);
    Request(LocalUrl(ipPort), JsonHeaders, Obj(body))
  }

  /** The node's entry point. Its `return ("Error: exhausted retries",)`
      after the loop is never reached. */
  method CallOllama(ipPort: string, modelName: string, systemPrompt: string, userPrompt: string,
                    temperature: Json, outcomes: seq<Outcome>) returns (r: Reply, sent: seq<Request>)
    requires |outcomes| >= MaxAttempts
    ensures r == Expected(outcomes)
    ensures 1 <= |sent| == AttemptsMade(outcomes) <= MaxAttempts
    ensures forall i :: 0 <= i < |sent| ==> sent[i] == BuildRequest(ipPort, modelName, systemPrompt, userPrompt, temperature)
  {
    var req := BuildRequest(ipPort, modelName, systemPrompt, userPrompt, temperature);
    r, sent := Send(req, outcomes, Error(ExhaustedRetries));
  }
}
