/** `OpenRouterNodeExperimental.call_openrouter`: the OpenRouter text node
    with `max_tokens`, `temperature` and `top_p` at the top level of the
    payload, retried up to three times. */
module OpenRouterNodeExperimental {
  import opened Base
  import opened Json
  import opened Chat
  import opened Transport

  /** The URL, headers and payload the node assembles. */
  function BuildRequest(apiKey: string, modelName: string, systemPrompt: string, userPrompt: string,
                        maxTokens: Json, temperature: Json, topP: Json): (r: Request)
    ensures Interpret(r) == Some(Call(OpenRouter(apiKey), modelName, PlainChat(systemPrompt, userPrompt),
                                      Sampling(Some(maxTokens), Some(temperature), Some(topP)), None))
  {
    var body := map["model" := Str(modelName), "messages" := PlainMessages(systemPrompt, userPrompt),
                    "max_tokens" := maxTokens, "temperature" := temperature, "top_p" := topP];
    assert body.Keys == {"model", "messages", "max_tokens", "temperature", "top_p"};
    EndpointOfOpenRouter(apiKey);
    InterpretFlat(OpenRouterUrl, BearerHeaders(apiKey), body, OpenRouter(apiKey), modelName,
                  PlainChat(systemPrompt, userPrompt));
    Request(OpenRouterUrl, BearerHeaders(apiKey), Obj(body))
  }

  /** The node's entry point; like the plain OpenRouter node it has no
      statement after the loop, which the loop never leaves. */
  method CallOpenRouter(apiKey: string, modelName: string, systemPrompt: string, userPrompt: string,
                        maxTokens: Json, temperature: Json, topP: Json, outcomes: seq<Outcome>)
    returns (r: Reply, sent: seq<Request>)
    requires |outcomes| >= MaxAttempts
    ensures r == Expected(outcomes) && r != NoneReturned
    ensures 1 <= |sent| == AttemptsMade(outcomes) <= MaxAttempts
    ensures forall i :: 0 <= i < |sent| ==>
      sent[i] == BuildRequest(apiKey, modelName, systemPrompt, userPrompt, maxTokens, temperature, topP)
  {
    var req := BuildRequest(apiKey, modelName, systemPrompt, userPrompt, maxTokens, temperature, topP);
    r, sent := Send(req, outcomes, NoneReturned);
    NeverFallsThrough(outcomes);
  }
}
