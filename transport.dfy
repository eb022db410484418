/** One HTTP attempt and the bounded retry loop around it. The network is
    replaced by the sequence of outcomes the server would produce for the
    first, second, third ... attempt; the loop consumes them in order. */
module Transport {
  import opened Base
  import opened Json
  import opened Chat

  /** What posting the request once gives: a body that decoded and parsed
      as JSON, an `HTTPError` (a non-2xx status with its reason phrase), or
      any other exception (connection failure, timeout, a body that is not
      UTF-8 or not JSON), with its `str()`. */
  datatype Outcome =
    | Received(body: Json)
    | HttpError(code: nat, reason: string)
    | Raised(message: string)

  /** What the `try` around one attempt ends in. */
  datatype Attempt =
    | Got(content: Json)
    | HttpFailed(code: nat, reason: string)
    | Failed(message: string)

  /** The value the node returns to the host: the answer, an error text, or
      the `None` a Python function returns when control reaches its end. */
  datatype Reply = Answer(content: Json) | Error(message: string) | NoneReturned

  /** One attempt under `try`: the lookup of `choices[0].message.content` and
      the `len()` of the answer in the success log line both run inside it,
      so their exceptions are failures like any other. */
  function Classify(o: Outcome): (a: Attempt)
    ensures a.Got? <==> o.Received? && ChoiceContent(o.body).Ok? && HasLen(ChoiceContent(o.body).value)
    ensures a.Got? ==> a.content == ChoiceContent(o.body).value
    ensures a.HttpFailed? <==> o.HttpError?
    ensures o.HttpError? ==> a == HttpFailed(o.code, o.reason)
    ensures o.Raised? ==> a == Failed(o.message)
    ensures o.Received? && ChoiceContent(o.body).Err? ==> a == Failed(ChoiceContent(o.body).message)
    ensures o.Received? && ChoiceContent(o.body).Ok? && !HasLen(ChoiceContent(o.body).value) ==>
      a == Failed(NoLenText(ChoiceContent(o.body).value))
  {
    match o
    case HttpError(code, reason) => HttpFailed(code, reason)
    case Raised(msg) => Failed(msg)
    case Received(body) =>
      match ChoiceContent(body)
      case Err(msg) => Failed(msg)
      case Ok(c) => if HasLen(c) then Got(c) else Failed(NoLenText(c))
  }

  predicate Succeeds(o: Outcome) {
    Classify(o).Got?
  }

  /** The failure text the retrying nodes build: `f"HTTPError {code}: {reason}"`
      for an HTTP error, the exception text otherwise. The status code and
      the reason can be read back from the text. */
  function Describe(a: Attempt): (s: string)
    requires !a.Got?
    ensures a.Failed? ==> s == a.message
    ensures a.HttpFailed? ==>
      var n := |NatToString(a.code)|;
      && 10 + n <= |s| && s[..10] == "HTTPError "
      && (forall i :: 10 <= i < 10 + n ==> IsDigit(s[i]))
      && DigitsValue(s[10..10 + n]) == a.code
      && s[10 + n..] == ": " + a.reason
  {
    match a
    case HttpFailed(code, reason) =>
      var digits := NatToString(code);
      NatToStringRoundTrip(code);
      var lead, tail := "HTTPError ", ": " + reason;
      var s := lead + digits + tail;
      assert s == lead + (digits + tail);
      assert s[..10] == lead;
      assert s[10..10 + |digits|] == digits;
      assert s[10 + |digits|..] == tail;
      s
    case Failed(msg) => msg
  }

  /** The single attempt of the one node without a retry loop; its HTTP error
      text is `f"Error: HTTP {code} {reason}"`. */
  function SingleAttempt(o: Outcome): (r: Reply)
    ensures r.Answer? <==> Succeeds(o)
    ensures r.Answer? ==> r.content == Classify(o).content
    ensures o.HttpError? ==> r == Error("Error: HTTP " + NatToString(o.code) + " " + o.reason)
    ensures !o.HttpError? && !Succeeds(o) ==> r == Error("Error: " + Classify(o).message)
  {
    match Classify(o)
    case Got(c) => Answer(c)
    case HttpFailed(code, reason) => Error("Error: HTTP " + NatToString(code) + " " + reason)
    case Failed(msg) => Error("Error: " + msg)
  }

  const MaxAttempts: nat := 3

  /** What the Ollama and experimental vision nodes return after their loop. */
  const ExhaustedRetries: string := "Error: exhausted retries"

  /** The index of the first successful outcome in `os`, if any. */
  function FirstSuccess(os: seq<Outcome>): (r: Option<nat>)
    ensures r.Some? ==> r.value < |os| && Succeeds(os[r.value])
    ensures r.Some? ==> forall j :: 0 <= j < r.value ==> !Succeeds(os[j])
    ensures r.None? ==> forall j :: 0 <= j < |os| ==> !Succeeds(os[j])
  {
    if os == [] then None
    else if Succeeds(os[0]) then Some(0)
    else match FirstSuccess(os[1..])
      case None => None
      case Some(i) => Some(i + 1)
  }

  /** How many requests the loop posts: up to and including the first
      success among the first three outcomes, or all three. */
  function AttemptsMade(os: seq<Outcome>): (n: nat)
    requires |os| >= MaxAttempts
    ensures 1 <= n <= MaxAttempts
  {
    match FirstSuccess(os[..MaxAttempts])
    case Some(i) => i + 1
    case None => MaxAttempts
  }

  /** What the loop returns: the content of the first success among the
      first three outcomes, otherwise `"Error: "` and the third failure. */
  function Expected(os: seq<Outcome>): Reply
    requires |os| >= MaxAttempts
  {
    match FirstSuccess(os[..MaxAttempts])
    case Some(i) => Answer(Classify(os[i]).content)
    case None => Error("Error: " + Describe(Classify(os[MaxAttempts - 1])))
  }

  /** `for attempt in range(1, 4)`: post `req`, return the content of a
      success at once, and on a failure either retry or, on the third
      attempt, return the error. `tail` is what the code after the loop
      returns: `"Error: exhausted retries"`, or Python's implicit `None`
      where the function has nothing after the loop. The loop never
      reaches it. `sent` lists the requests posted, in order. */
  method Send(req: Request, outcomes: seq<Outcome>, tail: Reply) returns (r: Reply, sent: seq<Request>)
    requires |outcomes| >= MaxAttempts
    ensures r == Expected(outcomes)
    ensures |sent| == AttemptsMade(outcomes)
    ensures forall i :: 0 <= i < |sent| ==> sent[i] == req
  {
    sent := [];
    var attempt := 1;
    while attempt < 4
      invariant 1 <= attempt <= MaxAttempts
      invariant |sent| == attempt - 1
      invariant forall i :: 0 <= i < |sent| ==> sent[i] == req
      invariant forall j :: 0 <= j < attempt - 1 ==> !Succeeds(outcomes[j])
    {
      sent := sent + [req];
      var a := Classify(outcomes[attempt - 1]);
      if a.Got? {
        FirstSuccessAt(outcomes, attempt - 1);
        return Answer(a.content), sent;
      }
      if attempt == 3 {
        NoSuccess(outcomes);
        return Error("Error: " + Describe(a)), sent;
      }
      attempt := attempt + 1;
    }
    assert false;
    r := tail;
  }

  lemma FirstSuccessAt(os: seq<Outcome>, i: nat)
    requires |os| >= MaxAttempts && i < MaxAttempts
    requires Succeeds(os[i]) && forall j :: 0 <= j < i ==> !Succeeds(os[j])
    ensures FirstSuccess(os[..MaxAttempts]) == Some(i)
  {
    var p := os[..MaxAttempts];
    assert forall j :: 0 <= j < MaxAttempts ==> p[j] == os[j];
  }

  lemma NoSuccess(os: seq<Outcome>)
    requires |os| >= MaxAttempts
    requires forall j :: 0 <= j < MaxAttempts ==> !Succeeds(os[j])
    ensures FirstSuccess(os[..MaxAttempts]) == None
  {
    var p := os[..MaxAttempts];
    assert forall j :: 0 <= j < MaxAttempts ==> p[j] == os[j];
  }

  /** The first success among the first three attempts wins, and no later
      attempt is made. */
  lemma {:induction false} FirstSuccessWins(os: seq<Outcome>, i: nat)
    requires |os| >= MaxAttempts && i < MaxAttempts
    requires Succeeds(os[i]) && forall j :: 0 <= j < i ==> !Succeeds(os[j])
    ensures Expected(os) == Answer(Classify(os[i]).content)
    ensures AttemptsMade(os) == i + 1
  {
    FirstSuccessAt(os, i);
  }

  /** When all three attempts fail, the result is `"Error: "` and the third
      failure's description, after exactly three requests. */
  lemma {:induction false} ThirdFailureReported(os: seq<Outcome>)
    requires |os| >= MaxAttempts
    requires forall j :: 0 <= j < MaxAttempts ==> !Succeeds(os[j])
    ensures !Succeeds(os[MaxAttempts - 1]) && Expected(os) == Error("Error: " + Describe(Classify(os[MaxAttempts - 1])))
    ensures AttemptsMade(os) == MaxAttempts
  {
    NoSuccess(os);
  }

  /** The first two failures leave no trace in the result. */
  lemma {:induction false} EarlierFailuresDiscarded(os: seq<Outcome>, os': seq<Outcome>)
    requires |os| >= MaxAttempts && |os'| >= MaxAttempts
    requires forall j :: 0 <= j < MaxAttempts ==> !Succeeds(os[j]) && !Succeeds(os'[j])
    requires os[2] == os'[2]
    ensures Expected(os) == Expected(os')
  {
    ThirdFailureReported(os);
    ThirdFailureReported(os');
  }

  /** Outcomes beyond the third are never consulted. */
  lemma {:induction false} LaterOutcomesIgnored(os: seq<Outcome>, more: seq<Outcome>)
    requires |os| >= MaxAttempts
    ensures Expected(os + more) == Expected(os)
    ensures AttemptsMade(os + more) == AttemptsMade(os)
  {
    assert (os + more)[..MaxAttempts] == os[..MaxAttempts];
  }

  /** The loop always returns from inside: its result is an answer or an
      error text starting with `"Error: "`, never the code after the loop. */
  lemma {:induction false} NeverFallsThrough(os: seq<Outcome>)
    requires |os| >= MaxAttempts
    ensures Expected(os).Answer? || Expected(os).Error?
    ensures Expected(os).Error? ==> StartsWith(Expected(os).message, "Error: ")
  {
    if Expected(os).Error? {
      StripPrefixOfConcat("Error: ", Describe(Classify(os[MaxAttempts - 1])));
    }
  }

  /** A server that answers HTTP 500 every time gets exactly three requests,
      and the error carries the status code. */
  lemma {:induction false} AlwaysServerError(os: seq<Outcome>, reason: string)
    requires |os| >= MaxAttempts
    requires forall j :: 0 <= j < MaxAttempts ==> os[j] == HttpError(500, reason)
    ensures Expected(os) == Error("Error: HTTPError 500: " + reason)
    ensures AttemptsMade(os) == 3
  {
    ThirdFailureReported(os);
    assert Classify(os[2]) == HttpFailed(500, reason);
    Status500Description(reason);
  }

  lemma Status500Description(reason: string)
    ensures "Error: " + Describe(HttpFailed(500, reason)) == "Error: HTTPError 500: " + reason
  {
    Status500Text();
    var d := Describe(HttpFailed(500, reason));
    assert d == "HTTPError " + "500" + ": " + reason;
    assert "Error: " + d == "Error: HTTPError 500: " + reason;
  }

  lemma Status500Text()
    ensures NatToString(500) == "500"
  {
    assert NatToString(5) == "5";
    assert NatToString(50) == "5" + "0";
    assert NatToString(500) == "50" + "0";
  }

  /** A well-formed reply on the first attempt is returned at once. */
  lemma {:induction false} ImmediateSuccess(os: seq<Outcome>, text: string)
    requires |os| >= MaxAttempts && os[0] == Received(Completion(Str(text)))
    ensures Expected(os) == Answer(Str(text))
    ensures AttemptsMade(os) == 1
  {
    FirstSuccessWins(os, 0);
  }

  /** The single-attempt node and the retrying nodes agree whenever the first
      attempt succeeds; they word an HTTP error differently. */
  lemma {:induction false} SingleAttemptAgreesOnSuccess(os: seq<Outcome>)
    requires |os| >= MaxAttempts && Succeeds(os[0])
    ensures SingleAttempt(os[0]) == Expected(os)
  {
    FirstSuccessWins(os, 0);
  }
}
