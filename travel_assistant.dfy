/**
 * The travel-assistant client layer: a lazily built vector-database client,
 * the chat-completion call that produces a travel plan, and the three
 * vector-database wrappers. The HTTP endpoint and the vector-database SDK are
 * not modelled; their answers are inputs.
 */
module TravelAssistant {
  import opened Results
  import opened Strings
  import Env

  // ---------------------------------------------------------------------------
  // The lazily constructed vector-database client
  // ---------------------------------------------------------------------------

  /** A vector-database service client, built from an API key. */
  class Pinecone {
    const apiKey: string

    constructor (apiKey: string)
      ensures this.apiKey == apiKey
    {
      this.apiKey := apiKey;
    }
  }

  /** A handle on one named index of a client, as the SDK's `index` returns it. */
  datatype IndexHandle = IndexHandle(client: Pinecone, name: string)

  /** The outcome of a call into the vector-database SDK: a value, or a thrown error. */
  datatype Call<+T> = Done(value: T) | Threw(cause: string)

  const INIT_FAILED := "Failed to initialize Pinecone. Please check your API configuration and try again."
  const UPSERT_FAILED := "Failed to update travel data. Please try again."
  const QUERY_FAILED := "Failed to find similar destinations. Please try again."

  /**
   * The module's state: the validated configuration it imports and the
   * module-level `pineconeInstance` variable, `null` until first use.
   */
  class ClientModule {
    const pineconeApiKey: string
    const pineconeIndex: string
    var pineconeInstance: Pinecone?
    /** How many clients have been constructed so far. */
    ghost var constructions: nat

    ghost predicate Valid()
      reads this
    {
      (pineconeInstance == null <==> constructions == 0) &&
      constructions <= 1 &&
      (pineconeInstance != null ==> pineconeInstance.apiKey == pineconeApiKey)
    }

    /** Loading the module: only a configuration that passed validation can be imported. */
    constructor (env: Env.Config)
      requires Env.Configured(env)
      ensures Valid()
      ensures pineconeApiKey == env.pineconeApiKey.value && pineconeIndex == env.pineconeIndex.value
      ensures pineconeInstance == null && constructions == 0
    {
      pineconeApiKey := env.pineconeApiKey.value;
      pineconeIndex := env.pineconeIndex.value;
      pineconeInstance := null;
      constructions := 0;
    }

    /** `getPineconeClient`: build the client on the first call, return the stored one on every call. */
    method GetPineconeClient() returns (c: Pinecone)
      requires Valid()
      modifies this
      ensures Valid()
      ensures pineconeInstance == c
      ensures c.apiKey == pineconeApiKey
      ensures old(pineconeInstance) != null ==> c == old(pineconeInstance) && constructions == old(constructions)
      ensures old(pineconeInstance) == null ==> fresh(c) && constructions == 1
    {
      if pineconeInstance == null {
        pineconeInstance := new Pinecone(pineconeApiKey);
        constructions := constructions + 1;
      }
      c := pineconeInstance;
    }

    /**
     * `initPinecone`: take the client, open the configured index through the
     * SDK's `index` and fetch its statistics; a throw from either call becomes
     * the fixed message.
     */
    method InitPinecone(
      index: (Pinecone, string) -> Call<IndexHandle>,
      describeIndexStats: IndexHandle -> Call<()>) returns (r: Result<IndexHandle, string>)
      requires Valid()
      modifies this
      ensures Valid() && pineconeInstance != null
      ensures old(pineconeInstance) != null ==> pineconeInstance == old(pineconeInstance)
      ensures r.Success? <==>
        (index(pineconeInstance, pineconeIndex).Done? &&
         describeIndexStats(index(pineconeInstance, pineconeIndex).value).Done?)
      ensures r.Success? ==> r == Success(index(pineconeInstance, pineconeIndex).value)
      ensures r.Failure? ==> r.error == INIT_FAILED
    {
      var pinecone := GetPineconeClient();
      match index(pinecone, pineconeIndex)
      case Threw(_) => r := Failure(INIT_FAILED);
      case Done(handle) =>
        match describeIndexStats(handle)
        case Done(_) => r := Success(handle);
        case Threw(_) => r := Failure(INIT_FAILED);
    }
  }

  /** Two calls in a row: the second returns the instance the first built or found, and nothing new is built. */
  method GetPineconeClientTwice(m: ClientModule) returns (first: Pinecone, second: Pinecone)
    requires m.Valid()
    modifies m
    ensures m.Valid()
    ensures first == second && m.pineconeInstance == first
    ensures m.constructions <= 1
    ensures old(m.pineconeInstance) != null ==> first == old(m.pineconeInstance)
  {
    first := m.GetPineconeClient();
    second := m.GetPineconeClient();
  }

  // ---------------------------------------------------------------------------
  // The travel-plan call
  // ---------------------------------------------------------------------------

  const GROQ_URL := "https://api.groq.com/openai/v1/chat/completions"
  const GROQ_MODEL := "llama3-groq-70b-8192-tool-use-preview"
  const MAX_TOKENS := 8192
  const TOP_P := 1

  const SYSTEM_PROMPT :=
    "You are an expert travel assistant AI. \n" +
    "When given a destination, provide a comprehensive and personalized travel plan that includes:\n" +
    "1. Best time to visit\n" +
    "2. Top 3-5 attractions\n" +
    "3. Recommended 3-day itinerary\n" +
    "4. Local cuisine highlights\n" +
    "5. Budget and cost estimates\n" +
    "6. Travel tips and cultural insights\n" +
    "\n" +
    "Format the response in a clear, easy-to-read manner. Be specific and actionable."

  const USER_PREFIX := "Create a detailed travel plan for a trip to "
  const USER_SUFFIX := ". \n            Include practical information, must-visit locations, and insider tips."

  const NO_PLAN := "No plan generated."
  const GENERATE_FAILED := "Failed to generate travel plan. Please check your API configuration and try again."

  /** One chat message of the request. */
  datatype ChatMessage = ChatMessage(role: string, content: string)

  /** The POST request sent to the completion endpoint (the temperature is not modelled). */
  datatype Request = Request(
    url: string,
    authorization: string,
    model: string,
    messages: seq<ChatMessage>,
    maxTokens: int,
    topP: int)

  /** `message` of a choice: its `content` may be absent (`null` or undefined). */
  datatype AssistantMessage = AssistantMessage(content: Option<string>)

  /**
   * One object entry of `choices`: its `message` may be absent, which also
   * stands for a `message` that is not an object (`?.content` is undefined then).
   */
  datatype Choice = Choice(message: Option<AssistantMessage>)

  /**
   * The body once `response.json()` has run: it failed to parse, or it parsed
   * to a value whose serialisation is `raw` and whose `choices` field is an
   * array or absent. An entry is `None` when it is `null` or not an object.
   */
  datatype Body = Unparsable | Parsed(raw: string, choices: Option<seq<Option<Choice>>>)

  /** What `fetch` yields: a rejected promise, or a response. */
  datatype FetchOutcome =
    | NetworkError(cause: string)
    | Response(ok: bool, statusText: string, body: Body)

  /** Why the body of the `try` block threw. */
  datatype AttemptError =
    | Transport(cause: string)
    | HttpStatus(message: string)
    | BadJson
    | ChoicesAbsent

  /** The user message: the destination dropped into a fixed template. */
  function UserContent(destination: string): (c: string)
    ensures Contains(c, destination)
  {
    OccursAtFront(destination, USER_SUFFIX);
    OccursAfterPrefix(destination, USER_PREFIX, destination + USER_SUFFIX, 0);
    assert USER_PREFIX + destination + USER_SUFFIX == USER_PREFIX + (destination + USER_SUFFIX);
    USER_PREFIX + destination + USER_SUFFIX
  }

  /** The request `generateTravelPlan` sends for `destination`. */
  function BuildRequest(destination: string, groqApiKey: string): (r: Request)
    ensures |r.messages| == 2
    ensures r.messages[0] == ChatMessage("system", SYSTEM_PROMPT)
    ensures r.messages[1].role == "user" && Contains(r.messages[1].content, destination)
    ensures r.authorization == "Bearer " + groqApiKey
    ensures r.url == GROQ_URL && r.model == GROQ_MODEL && r.maxTokens == MAX_TOKENS && r.topP == TOP_P
  {
    Request(
      GROQ_URL,
      "Bearer " + groqApiKey,
      GROQ_MODEL,
      [ChatMessage("system", SYSTEM_PROMPT), ChatMessage("user", UserContent(destination))],
      MAX_TOKENS,
      TOP_P)
  }

  /** `data.choices[0]?.message?.content || 'No plan generated.'` for a `choices` array. */
  function PlanText(choices: seq<Option<Choice>>): string
  {
    if |choices| > 0 && choices[0].Some? && choices[0].value.message.Some?
       && choices[0].value.message.value.content.Some?
       && choices[0].value.message.value.content.value != ""
    then choices[0].value.message.value.content.value
    else NO_PLAN
  }

  /** The error thrown for a non-ok status: the status text and, when the body parsed, the body. */
  function StatusMessage(statusText: string, body: Body): string
  {
    "Groq API error: " + statusText + (if body.Parsed? then " - " + body.raw else "")
  }

  /** The body of the `try` block after `fetch` has answered. */
  function Attempt(outcome: FetchOutcome): Result<string, AttemptError>
  {
    match outcome
    case NetworkError(cause) => Failure(Transport(cause))
    case Response(ok, statusText, body) =>
      if !ok then Failure(HttpStatus(StatusMessage(statusText, body)))
      else match body
        case Unparsable => Failure(BadJson)
        case Parsed(_, None) => Failure(ChoicesAbsent)
        case Parsed(_, Some(choices)) => Success(PlanText(choices))
  }

  /** The `try`/`catch` of `generateTravelPlan`: any failure becomes the one fixed message. */
  function NormaliseResponse(outcome: FetchOutcome): (r: Result<string, string>)
    ensures r.Success? <==> outcome.Response? && outcome.ok && outcome.body.Parsed? && outcome.body.choices.Some?
    ensures r.Success? ==> r.value != ""
    ensures r.Failure? ==> r.error == GENERATE_FAILED
  {
    match Attempt(outcome)
    case Success(plan) => Success(plan)
    case Failure(_) => Failure(GENERATE_FAILED)
  }

  /**
   * `generateTravelPlan`: one request, authorised with the configured key and
   * sent through `send`, whose answer is normalised.
   */
  function GenerateTravelPlan(destination: string, env: Env.Config, send: Request -> FetchOutcome): (r: Result<string, string>)
    requires Env.Configured(env)
    ensures r.Success? ==> r.value != ""
    ensures r.Failure? ==> r.error == GENERATE_FAILED
  {
    NormaliseResponse(send(BuildRequest(destination, env.groqApiKey.value)))
  }

  /** A first choice with non-empty content is returned verbatim. */
  lemma ContentReturnedVerbatim(statusText: string, raw: string, choices: seq<Option<Choice>>, content: string)
    requires |choices| > 0 && choices[0] == Some(Choice(Some(AssistantMessage(Some(content)))))
    requires content != ""
    ensures NormaliseResponse(Response(true, statusText, Parsed(raw, Some(choices)))) == Success(content)
  {
  }

  /** No choice, a null first choice, no message, no content or empty content: the placeholder plan. */
  lemma DegenerateSuccess(statusText: string, raw: string, choices: seq<Option<Choice>>)
    requires choices == [] || choices[0].None? || choices[0].value.message.None?
      || choices[0].value.message.value.content.None?
      || choices[0].value.message.value.content == Some("")
    ensures NormaliseResponse(Response(true, statusText, Parsed(raw, Some(choices)))) == Success(NO_PLAN)
  {
  }

  /** A successful result is either the first choice's content or the placeholder. */
  lemma SuccessIsContentOrPlaceholder(outcome: FetchOutcome)
    requires NormaliseResponse(outcome).Success?
    ensures var plan := NormaliseResponse(outcome).value;
      plan == NO_PLAN ||
      (var cs := outcome.body.choices.value;
       |cs| > 0 && cs[0].Some? && cs[0].value.message.Some? && cs[0].value.message.value.content == Some(plan))
  {
  }

  /** A non-ok status fails with the fixed message, whatever the status text and whether or not the body parsed. */
  lemma NonOkFails(statusText: string, body: Body)
    ensures NormaliseResponse(Response(false, statusText, body)) == Failure(GENERATE_FAILED)
  {
  }

  /** Transport failure, an unparsable body and an absent `choices` field fail with the fixed message. */
  lemma OtherFailures(cause: string, statusText: string, raw: string)
    ensures NormaliseResponse(NetworkError(cause)) == Failure(GENERATE_FAILED)
    ensures NormaliseResponse(Response(true, statusText, Unparsable)) == Failure(GENERATE_FAILED)
    ensures NormaliseResponse(Response(true, statusText, Parsed(raw, None))) == Failure(GENERATE_FAILED)
  {
  }

  // ---------------------------------------------------------------------------
  // The vector-database wrappers
  // ---------------------------------------------------------------------------

  const DEFAULT_TOP_K := 5

  /** The metadata stored with each travel vector. */
  datatype TravelRecord = TravelRecord(destination: string, category: string, description: string)

  /** A vector to upsert (numbers modelled as reals). */
  datatype VectorRecord = VectorRecord(id: string, values: seq<real>, metadata: TravelRecord)

  /** A match returned by a query. */
  datatype ScoredRecord = ScoredRecord(id: string, score: Option<real>, values: seq<real>, metadata: Option<TravelRecord>)

  /** The argument of `index.query`. */
  datatype QueryRequest = QueryRequest(vector: seq<real>, topK: int, includeMetadata: bool)

  /** The answer of `index.query`. */
  datatype QueryResponse = QueryResponse(matches: seq<ScoredRecord>)

  /** `upsertTravelData`: one batch upsert of `vectors`; any failure becomes the fixed message. */
  function UpsertTravelData(
    index: IndexHandle,
    vectors: seq<VectorRecord>,
    upsert: (IndexHandle, seq<VectorRecord>) -> Call<()>): (r: Outcome<string>)
    ensures r.Pass? <==> upsert(index, vectors).Done?
    ensures r.Fail? ==> r.error == UPSERT_FAILED
  {
    match upsert(index, vectors)
    case Done(_) => Pass
    case Threw(_) => Fail(UPSERT_FAILED)
  }

  /** The query `querySimilarDestinations` sends: `topK` defaults to 5 and metadata is always requested. */
  function QueryFor(queryVector: seq<real>, topK: Option<int>): (q: QueryRequest)
    ensures q.vector == queryVector && q.includeMetadata
    ensures q.topK == if topK.Some? then topK.value else DEFAULT_TOP_K
  {
    QueryRequest(queryVector, if topK.Some? then topK.value else DEFAULT_TOP_K, true)
  }

  /** `querySimilarDestinations`: the service's matches, unchanged; any failure becomes the fixed message. */
  function QuerySimilarDestinations(
    index: IndexHandle,
    queryVector: seq<real>,
    topK: Option<int>,
    query: (IndexHandle, QueryRequest) -> Call<QueryResponse>): (r: Result<seq<ScoredRecord>, string>)
    ensures var answer := query(index, QueryFor(queryVector, topK));
      (r.Success? <==> answer.Done?) &&
      (r.Success? ==> r.value == answer.value.matches) &&
      (r.Failure? ==> r.error == QUERY_FAILED)
  {
    match query(index, QueryFor(queryVector, topK))
    case Done(response) => Success(response.matches)
    case Threw(_) => Failure(QUERY_FAILED)
  }

  /** Leaving `topK` out is the same as passing 5. */
  lemma QueryDefaultTopK(
    index: IndexHandle,
    queryVector: seq<real>,
    query: (IndexHandle, QueryRequest) -> Call<QueryResponse>)
    ensures QuerySimilarDestinations(index, queryVector, None, query)
         == QuerySimilarDestinations(index, queryVector, Some(DEFAULT_TOP_K), query)
  {
  }
}
