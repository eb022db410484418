/** `OllamaNodeExperimental.call_ollama`: the Ollama text node with the
    token limit (as `num_predict`), temperature and `top_p` under
    `options`, retried up to three times. */
module OllamaNodeExperimental {
  import opened Base
  import opened Json
  import opened Chat
  import opened Transport

  /** The URL, headers and payload the node assembles. */
  function BuildRequest(ipPort: string, modelName: string, systemPrompt: string, userPrompt: string,
                        maxTokens: Json, temperature: Json, topP: Json): (r: Request)
    ensures Interpret(r) == Some(Call(Local(ipPort), modelName, PlainChat(systemPrompt, userPrompt),
                                      NoSampling, Some(Sampling(Some(maxTokens), Some(temperature), Some(topP)))))
  {
    var options := map["num_predict" := maxTokens, "temperature" := temperature, "top_p" := topP];
    var body := map["model" := Str(modelName), "messages" := PlainMessages(systemPrompt, userPrompt),
                    "options" := Obj(options)];
    assert options.Keys == {"num_predict", "temperature", "top_p"};
    assert body.Keys == {"model", "messages", "options"};
    EndpointOfLocal(ipPort);
    InterpretNested(LocalUrl(ipPort), JsonHeaders, body, Local(ipPort), modelName,
                    PlainChat(systemPrompt, userPrompt), options);
    Request(LocalUrl(ipPort), JsonHeaders, Obj(body))
  }

  /** The node's entry point; the fallback after the loop is never reached. */
  method CallOllama(ipPort: string, modelName: string, systemPrompt: string, userPrompt: string,
                    maxTokens: Json, temperature: Json, topP: Json, outcomes: seq<Outcome>)
    returns (r: Reply, sent: seq<Request>)
    requires |outcomes| >= MaxAttempts
    ensures r == Expected(outcomes)
    ensures 1 <= |sent| == AttemptsMade(outcomes) <= MaxAttempts
    ensures forall i :: 0 <= i < |sent| ==>
      sent[i] == BuildRequest(ipPort, modelName, systemPrompt, userPrompt, maxTokens, temperature, topP)
  {
    var req := BuildRequest(ipPort, modelName, systemPrompt, userPrompt, maxTokens, temperature, topP);
    r, sent := Send(req, outcomes, Error(ExhaustedRetries));
  }
}
