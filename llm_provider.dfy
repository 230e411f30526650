/**
 * The language-model provider policy: `generate_json` (OpenAI first, Gemini on a rate limit or
 * after one retry of a transient error) and `embed_texts` (batches of 64 with up to three
 * attempts each and a doubling pause). Provider answers are oracle inputs; pauses are recorded
 * in the call trace instead of slept.
 */
module LlmProvider {
  import opened Wrappers
  import opened Seqs

  /** The exception classes the policy tells apart. */
  datatype ErrorClass = RateLimit | Connection | Api | Other

  /** `APIConnectionError` and `APIError` (the classes retried once by `generate_json`). */
  predicate Transient(e: ErrorClass) {
    e == Connection || e == Api
  }

  // ---------------------------------------------------------------------------------------------
  // generate_json

  /** The arguments of one JSON request. */
  datatype Request = Request(model: string, systemPrompt: string, userPrompt: string,
                             temperature: real, maxTokens: Option<int>)

  /** A provider call, or a pause, in the order they happen. */
  datatype Call = OpenAiChat(req: Request) | GeminiJson(req: Request) | Sleep(seconds: real)

  /** What one OpenAI chat call does: answers with `message.content` (possibly None) or raises. */
  datatype ChatOutcome = Answer(content: Option<string>) | Raised(error: ErrorClass)

  /** How `generate_json` fails: an OpenAI exception, a reply `json.loads` rejects, or a Gemini failure. */
  datatype JsonFailure = OpenAiRaised(cls: ErrorClass) | InvalidJson | GeminiFailed(message: string)

  datatype JsonRun<J> = JsonRun(result: Result<J, JsonFailure>, calls: seq<Call>)

  const GeminiModel: string := "gemini-2.5-flash"

  /** The Gemini request: the same prompts, temperature and token bound on the Gemini model. */
  function GeminiRequest(req: Request): Request {
    req.(model := GeminiModel)
  }

  /** `response.choices[0].message.content or ""`. */
  function RawContent(content: Option<string>): string {
    content.GetOr("")
  }

  function FromGemini<J>(gemini: Result<J, string>): Result<J, JsonFailure> {
    match gemini
    case Success(j) => Success(j)
    case Failure(m) => Failure(GeminiFailed(m))
  }

  /**
   * The call sequences `generate_json` can make: the OpenAI call alone, then Gemini, then a pause
   * and one retry, then a pause, the retry and Gemini.
   */
  function CallTraces(req: Request): (r: set<seq<Call>>)
    ensures forall t :: t in r ==> 0 < |t| <= 4 && t[0] == OpenAiChat(req)
  {
    var first := OpenAiChat(req);
    var fallback := GeminiJson(GeminiRequest(req));
    {[first], [first, fallback], [first, Sleep(1.0), first], [first, Sleep(1.0), first, fallback]}
  }

  /**
   * `generate_json(req)`: `chat(k)` is the outcome of the `k`-th OpenAI call, `parse` is `json.loads`
   * (None when it raises) and `gemini` is the Gemini fallback's outcome.
   */
  function GenerateJson<J>(req: Request, chat: nat -> ChatOutcome, parse: string -> Option<J>,
                           gemini: Result<J, string>): (r: JsonRun<J>)
    // one of four call sequences: at most two OpenAI calls and one Gemini call, Gemini last
    ensures r.calls in CallTraces(req)
    // a first answer is returned parsed, and a reply that does not parse raises without fallback
    ensures chat(0).Answer? ==>
              r.calls == [OpenAiChat(req)]
              && r.result == (match parse(RawContent(chat(0).content))
                              case Some(j) => Success(j)
                              case None => Failure(InvalidJson))
    // a rate limit goes straight to Gemini
    ensures chat(0) == Raised(RateLimit) ==>
              r.calls == [OpenAiChat(req), GeminiJson(GeminiRequest(req))] && r.result == FromGemini(gemini)
    // a transient error sleeps one second and retries once; any failure of the retry goes to Gemini
    ensures chat(0).Raised? && Transient(chat(0).error) ==>
              if chat(1).Answer? && parse(RawContent(chat(1).content)).Some? then
                r.calls == [OpenAiChat(req), Sleep(1.0), OpenAiChat(req)]
                && r.result == Success(parse(RawContent(chat(1).content)).value)
              else
                r.calls == [OpenAiChat(req), Sleep(1.0), OpenAiChat(req), GeminiJson(GeminiRequest(req))]
                && r.result == FromGemini(gemini)
    // any other first-call exception propagates
    ensures chat(0) == Raised(Other) ==> r.calls == [OpenAiChat(req)] && r.result == Failure(OpenAiRaised(Other))
  {
    var first := OpenAiChat(req);
    var fallback := GeminiJson(GeminiRequest(req));
    match chat(0)
    case Answer(content) =>
      (match parse(RawContent(content))
       case Some(j) => JsonRun(Success(j), [first])
       case None => JsonRun(Failure(InvalidJson), [first]))
    case Raised(RateLimit) => JsonRun(FromGemini(gemini), [first, fallback])
    case Raised(Other) => JsonRun(Failure(OpenAiRaised(Other)), [first])
    case Raised(_) =>
      if chat(1).Answer? && parse(RawContent(chat(1).content)).Some? then
        JsonRun(Success(parse(RawContent(chat(1).content)).value), [first, Sleep(1.0), first])
      else
        JsonRun(FromGemini(gemini), [first, Sleep(1.0), first, fallback])
  }

  // ---------------------------------------------------------------------------------------------
  // embed_texts

  const EmbedBatchSize: nat := 64
  const EmbedRetries: nat := 3

  type Vector = seq<real>

  /** One embeddings call on a batch, or a pause. */
  datatype EmbedEvent = EmbedCall(batch: seq<string>) | Pause(seconds: real)

  /** What one embeddings call does: returns one vector per item of `response.data`, or raises. */
  datatype EmbedOutcome = Embedded(vectors: seq<Vector>) | EmbedRaised(error: ErrorClass)

  /** The classes `embed_texts` retries: `RateLimitError`, `APIConnectionError`, `APIError`. */
  predicate Retried(e: ErrorClass) {
    e != Other
  }

  datatype EmbedRun = EmbedRun(result: Result<seq<Vector>, ErrorClass>, events: seq<EmbedEvent>)

  /**
   * The attempts on batch number `b` from attempt `attempt` on, the next pause being `delay`;
   * `embed(b, a)` is the outcome of attempt `a` on batch `b`.
   */
  function Attempts(batch: seq<string>, b: nat, embed: (nat, nat) -> EmbedOutcome, attempt: nat, delay: real): EmbedRun
    requires attempt < EmbedRetries
    decreases EmbedRetries - attempt
  {
    match embed(b, attempt)
    case Embedded(vs) => EmbedRun(Success(vs), [EmbedCall(batch)])
    case EmbedRaised(e) =>
      if !Retried(e) || attempt == EmbedRetries - 1 then EmbedRun(Failure(e), [EmbedCall(batch)])
      else
        var rest := Attempts(batch, b, embed, attempt + 1, delay * 2.0);
        EmbedRun(rest.result, [EmbedCall(batch), Pause(delay)] + rest.events)
  }

  /** A whole batch: up to three attempts, pausing 1.0 and then 2.0 seconds between them. */
  function BatchRun(batch: seq<string>, b: nat, embed: (nat, nat) -> EmbedOutcome): EmbedRun {
    Attempts(batch, b, embed, 0, 1.0)
  }

  /** The batches in order; the first batch that fails ends the run with its error. */
  function EmbedBatches(batches: seq<seq<string>>, embed: (nat, nat) -> EmbedOutcome): EmbedRun {
    Combine(Runs(batches, embed))
  }

  /** The runs of the batches one after the other, up to and including the first that fails. */
  function Combine(runs: seq<EmbedRun>): EmbedRun
    decreases |runs|
  {
    if runs == [] then EmbedRun(Success([]), [])
    else
      var prev := Combine(runs[..|runs| - 1]);
      if prev.result.Failure? then prev
      else
        var last := runs[|runs| - 1];
        EmbedRun(if last.result.Failure? then Failure(last.result.error)
                 else Success(prev.result.value + last.result.value),
                 prev.events + last.events)
  }

  /** One more batch after batches that all succeeded. */
  lemma CombineNext(runs: seq<EmbedRun>, k: nat)
    requires k < |runs| && Combine(runs[..k]).result.Success?
    ensures var prev := Combine(runs[..k]);
            Combine(runs[..k + 1])
            == EmbedRun(if runs[k].result.Failure? then Failure(runs[k].result.error)
                        else Success(prev.result.value + runs[k].result.value),
                        prev.events + runs[k].events)
  {
    assert runs[..k + 1][..k] == runs[..k];
  }

  /** After a failure the later batches are never run. */
  lemma {:induction false} CombinePrefixFailure(runs: seq<EmbedRun>, m: nat)
    requires m <= |runs| && Combine(runs[..m]).result.Failure?
    ensures Combine(runs) == Combine(runs[..m])
    decreases |runs|
  {
    if m < |runs| {
      assert runs[..|runs| - 1][..m] == runs[..m];
      CombinePrefixFailure(runs[..|runs| - 1], m);
    } else {
      assert runs[..m] == runs;
    }
  }

  /** `embed_texts(texts)`: no texts give no vectors, with no call and no pause. */
  function EmbedAll(texts: seq<string>, embed: (nat, nat) -> EmbedOutcome): (r: EmbedRun)
    ensures texts == [] ==> r == EmbedRun(Success([]), [])
  {
    EmbedBatches(Chunked(texts, EmbedBatchSize), embed)
  }

  /** Attempt `a` ends the attempt loop: it returns, raises a class that is not retried, or is the last. */
  predicate Ends(o: EmbedOutcome, a: nat) {
    o.Embedded? || !Retried(o.error) || a == EmbedRetries - 1
  }

  /** The attempt that ends the loop on batch `b`: the first that `Ends`. */
  function FinalAttempt(b: nat, embed: (nat, nat) -> EmbedOutcome): (a: nat)
    ensures a < EmbedRetries && Ends(embed(b, a), a)
    ensures forall j :: 0 <= j < a ==> !Ends(embed(b, j), j)
  {
    if Ends(embed(b, 0), 0) then 0 else if Ends(embed(b, 1), 1) then 1 else 2
  }

  /** What one attempt's outcome makes of the batch: its vectors, or its error re-raised. */
  function OutcomeResult(o: EmbedOutcome): Result<seq<Vector>, ErrorClass> {
    match o
    case Embedded(vs) => Success(vs)
    case EmbedRaised(e) => Failure(e)
  }

  /**
   * One batch: with `a` the first attempt that returns, raises a class that is not retried, or is
   * the third, the batch's result is attempt `a`'s (its vectors or its error), after the calls and
   * pauses call, (pause 1.0, call), (pause 2.0, call) cut after attempt `a`'s call.
   */
  lemma BatchRunSpec(batch: seq<string>, b: nat, embed: (nat, nat) -> EmbedOutcome)
    ensures var r := BatchRun(batch, b, embed);
            var a := FinalAttempt(b, embed);
            var pattern := [EmbedCall(batch), Pause(1.0), EmbedCall(batch), Pause(2.0), EmbedCall(batch)];
            r == EmbedRun(OutcomeResult(embed(b, a)), pattern[..2 * a + 1])
  {
    var pattern := [EmbedCall(batch), Pause(1.0), EmbedCall(batch), Pause(2.0), EmbedCall(batch)];
    var a := FinalAttempt(b, embed);
    var third := Attempts(batch, b, embed, 2, 4.0);
    assert third == EmbedRun(OutcomeResult(embed(b, 2)), pattern[4..]);
    var second := Attempts(batch, b, embed, 1, 2.0);
    assert a >= 1 ==> second == EmbedRun(OutcomeResult(embed(b, a)), pattern[2..2 * a + 1]) by {
      if a == 2 {
        assert second == EmbedRun(third.result, [EmbedCall(batch), Pause(2.0)] + third.events);
      }
    }
    if a >= 1 {
      assert BatchRun(batch, b, embed) == EmbedRun(second.result, [EmbedCall(batch), Pause(1.0)] + second.events);
    }
  }

  /** The run of each batch on its own. */
  function Runs(batches: seq<seq<string>>, embed: (nat, nat) -> EmbedOutcome): (r: seq<EmbedRun>)
    ensures |r| == |batches|
    ensures forall b :: 0 <= b < |batches| ==> r[b] == BatchRun(batches[b], b, embed)
  {
    seq(|batches|, b requires 0 <= b < |batches| => BatchRun(batches[b], b, embed))
  }

  function RunValues(runs: seq<EmbedRun>): (r: seq<seq<Vector>>)
    ensures |r| == |runs|
  {
    seq(|runs|, b requires 0 <= b < |runs| => if runs[b].result.Success? then runs[b].result.value else [])
  }

  function RunEvents(runs: seq<EmbedRun>): (r: seq<seq<EmbedEvent>>)
    ensures |r| == |runs|
  {
    seq(|runs|, b requires 0 <= b < |runs| => runs[b].events)
  }

  predicate AllSucceed(runs: seq<EmbedRun>) {
    forall b :: 0 <= b < |runs| ==> runs[b].result.Success?
  }

  lemma {:induction false} CombineSuccess(runs: seq<EmbedRun>)
    ensures var r := Combine(runs);
            (r.result.Success? <==> AllSucceed(runs))
            && (r.result.Success? ==>
                  r.result.value == Flatten(RunValues(runs)) && r.events == Flatten(RunEvents(runs)))
    decreases |runs|
  {
    if runs != [] {
      var n := |runs| - 1;
      CombineSuccess(runs[..n]);
      assert RunValues(runs) == RunValues(runs[..n]) + [RunValues(runs)[n]];
      assert RunEvents(runs) == RunEvents(runs[..n]) + [runs[n].events];
      if Combine(runs[..n]).result.Success? {
        FlattenAppend(RunEvents(runs[..n]), [runs[n].events]);
        FlattenSingle(runs[n].events);
        FlattenAppend(RunValues(runs[..n]), [RunValues(runs)[n]]);
        FlattenSingle(RunValues(runs)[n]);
        assert AllSucceed(runs[..n]);
      } else {
        assert !AllSucceed(runs[..n]);
      }
    }
  }

  lemma {:induction false} CombineFailure(runs: seq<EmbedRun>)
    ensures var r := Combine(runs);
            r.result.Failure? ==>
              exists m :: 0 <= m < |runs| && runs[m].result.Failure? && AllSucceed(runs[..m])
                          && r.result.error == runs[m].result.error
                          && r.events == Flatten(RunEvents(runs[..m + 1]))
    decreases |runs|
  {
    if runs != [] {
      var n := |runs| - 1;
      var prev := Combine(runs[..n]);
      assert RunEvents(runs) == RunEvents(runs[..n]) + [runs[n].events];
      if prev.result.Success? {
        CombineSuccess(runs[..n]);
        FlattenAppend(RunEvents(runs[..n]), [runs[n].events]);
        FlattenSingle(runs[n].events);
        assert runs[..n + 1] == runs;
      } else {
        CombineFailure(runs[..n]);
        var m :| 0 <= m < n && runs[..n][m].result.Failure? && AllSucceed(runs[..n][..m])
                 && prev.result.error == runs[..n][m].result.error
                 && prev.events == Flatten(RunEvents(runs[..n][..m + 1]));
        assert runs[..n][..m + 1] == runs[..m + 1];
        assert runs[..n][..m] == runs[..m];
      }
    }
  }

  /**
   * The whole run succeeds exactly when every batch does, and then returns the batches' vectors
   * in input order and makes exactly the batches' calls and pauses, in order.
   */
  lemma EmbedBatchesSuccess(batches: seq<seq<string>>, embed: (nat, nat) -> EmbedOutcome)
    ensures var r := EmbedBatches(batches, embed);
            var runs := Runs(batches, embed);
            (r.result.Success? <==> AllSucceed(runs))
            && (r.result.Success? ==>
                  r.result.value == Flatten(RunValues(runs)) && r.events == Flatten(RunEvents(runs)))
  {
    CombineSuccess(Runs(batches, embed));
  }

  /**
   * When batch `m` is the first to fail, the run raises its error after the calls and pauses of
   * batches `0 .. m`.
   */
  lemma EmbedBatchesFailure(batches: seq<seq<string>>, embed: (nat, nat) -> EmbedOutcome)
    ensures var r := EmbedBatches(batches, embed);
            var runs := Runs(batches, embed);
            r.result.Failure? ==>
              exists m :: 0 <= m < |runs| && runs[m].result.Failure? && AllSucceed(runs[..m])
                          && r.result.error == runs[m].result.error
                          && r.events == Flatten(RunEvents(runs[..m + 1]))
  {
    CombineFailure(Runs(batches, embed));
  }

  /** One attempt loop, `for attempt in range(retries)`, on batch number `b`. */
  method EmbedBatch(batch: seq<string>, b: nat, embed: (nat, nat) -> EmbedOutcome) returns (r: EmbedRun)
    ensures r == BatchRun(batch, b, embed)
  {
    var delay := 1.0;
    var events: seq<EmbedEvent> := [];
    var attempt := 0;
    while attempt < EmbedRetries
      invariant attempt < EmbedRetries
      invariant BatchRun(batch, b, embed)
                == EmbedRun(Attempts(batch, b, embed, attempt, delay).result, events + Attempts(batch, b, embed, attempt, delay).events)
      decreases EmbedRetries - attempt
    {
      var outcome := embed(b, attempt);
      if outcome.Embedded? {
        return EmbedRun(Success(outcome.vectors), events + [EmbedCall(batch)]);
      }
      if !Retried(outcome.error) || attempt == EmbedRetries - 1 {
        return EmbedRun(Failure(outcome.error), events + [EmbedCall(batch)]);
      }
      AppendAssoc(events, [EmbedCall(batch), Pause(delay)], Attempts(batch, b, embed, attempt + 1, delay * 2.0).events);
      events := events + [EmbedCall(batch), Pause(delay)];
      delay := delay * 2.0;
      attempt := attempt + 1;
    }
    assert false;
  }

  /** Batch number `k`, the texts from `i = 64 * k` on. */
  method EmbedChunk(texts: seq<string>, embed: (nat, nat) -> EmbedOutcome, k: nat, i: nat) returns (run: EmbedRun)
    requires i == k * EmbedBatchSize && i < |texts|
    ensures k < |Chunked(texts, EmbedBatchSize)| && run == BatchRun(Chunked(texts, EmbedBatchSize)[k], k, embed)
  {
    WindowCountBound(|texts|, EmbedBatchSize, k);
    ChunkedAt(texts, EmbedBatchSize, k);
    run := EmbedBatch(texts[i..Min(i + EmbedBatchSize, |texts|)], k, embed);
  }

  /** `embed_texts(texts)`: the batches of 64 in order, the vectors of each appended to `out`. */
  method EmbedTexts(texts: seq<string>, embed: (nat, nat) -> EmbedOutcome) returns (r: EmbedRun)
    ensures r == EmbedAll(texts, embed)
  {
    ghost var batches := Chunked(texts, EmbedBatchSize);
    ghost var runs := Runs(batches, embed);
    WindowCountBound(|texts|, EmbedBatchSize, 0);
    var out: seq<Vector> := [];
    var events: seq<EmbedEvent> := [];
    var k := 0;
    var i := 0;
    while i < |texts|
      invariant i == k * 64
      invariant k <= |batches|
      invariant k < |batches| <==> i < |texts|
      invariant Combine(runs[..k]) == EmbedRun(Success(out), events)
      decreases |texts| - i
    {
      var run := EmbedChunk(texts, embed, k, i);
      assert run == runs[k];
      CombineNext(runs, k);
      if run.result.Failure? {
        CombinePrefixFailure(runs, k + 1);
        return EmbedRun(Failure(run.result.error), events + run.events);
      }
      out := out + run.result.value;
      events := events + run.events;
      k := k + 1;
      i := i + EmbedBatchSize;
      WindowCountBound(|texts|, EmbedBatchSize, k);
    }
    assert runs[..k] == runs;
    return EmbedRun(Success(out), events);
  }
}
