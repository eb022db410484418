/** `OpenRouterNode.call_openrouter`: a text prompt sent to OpenRouter with
    a temperature only, retried up to three times. */
module OpenRouterNode {
  import opened Base
  import opened Json
  import opened Chat
  import opened Transport

  /** The URL, headers and payload the node assembles: the bearer header,
      plain-string messages and a top-level `temperature`. */
  function BuildRequest(apiKey: string, modelName: string, systemPrompt: string, userPrompt: string,
                        temperature: Json): (r: Request)
    ensures Interpret(r) == Some(Call(OpenRouter(apiKey), modelName, PlainChat(systemPrompt, userPrompt),
                                      Sampling(None, Some(temperature), None), None))
  {
    var body := map["model" := Str(modelName), "messages" := PlainMessages(systemPrompt, userPrompt),
                    "temperature" := temperature];
    assert body.Keys == {"model", "messages", "temperature"};
    EndpointOfOpenRouter(apiKey);
    InterpretFlat(OpenRouterUrl, BearerHeaders(apiKey), body, OpenRouter(apiKey), modelName,
                  PlainChat(systemPrompt, userPrompt));
    Request(OpenRouterUrl, BearerHeaders(apiKey), Obj(body))
  }

  /** The node's entry point. The function has no statement after its loop,
      so falling out of it would return `None`; the loop never does. */
  method CallOpenRouter(apiKey: string, modelName: string, systemPrompt: string, userPrompt: string,
                        temperature: Json, outcomes: seq<Outcome>) returns (r: Reply, sent: seq<Request>)
    requires |outcomes| >= MaxAttempts
    ensures r == Expected(outcomes) && r != NoneReturned
    ensures 1 <= |sent| == AttemptsMade(outcomes) <= MaxAttempts
    ensures forall i :: 0 <= i < |sent| ==> sent[i] == BuildRequest(apiKey, modelName, systemPrompt, userPrompt, temperature)
  {
    var req := BuildRequest(apiKey, modelName, systemPrompt, userPrompt, temperature);
    r, sent := Send(req, outcomes, NoneReturned);
    NeverFallsThrough(outcomes);
  }
}
