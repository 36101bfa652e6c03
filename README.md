# Travel assistant: configuration validator and API-client boundary

This project models the logic of a small travel-assistant web client. The client reads three
settings from the environment, asks a hosted chat-completion endpoint for a travel plan, and wraps
a vector-database SDK. The Dafny model covers the part of this that is decision logic and leaves
the network out:

- `Env` (`src/env.ts`): the `env` record of three optional settings, and `validateEnv`. It pushes
  the name of each missing or empty setting onto a list in a fixed order, and throws exactly when
  that list is non-empty. The error message names every missing setting. The record is a Dafny
  datatype value, so validation reads it and cannot change it. `LoadEnv` models the module
  running `validateEnv()` when it is imported and then exporting the record.
- `TravelAssistant` (`src/lib/ai/travel-assistant.ts`):
  - the module-level `pineconeInstance` variable, as the class `ClientModule`, with
    `getPineconeClient` (build the client on first use, reuse it after) and `initPinecone`;
  - the request `generateTravelPlan` sends (two messages, system first, then a user message
    that embeds the destination);
  - the normalisation of the endpoint's answer into a plan text or one fixed error;
  - `upsertTravelData` and `querySimilarDestinations`, with the argument passing, the default
    `topK` of 5 and the fixed error messages;
  - the system prompt, as its exact text; no property depends on its wording.
- `Strings`: JavaScript's `includes` and `join`, with the fact that each joined part occurs in
  the result.
- `Results`: `Option`, `Result` and `Outcome`.

The HTTP call is a function parameter `send: Request -> FetchOutcome`. Each SDK call (`describeIndexStats`,
`upsert`, `query`) is a function parameter that returns `Done(value)` or `Threw(cause)`. JavaScript's
`undefined`/`null` is `None`. A throw is a `Failure`/`Fail` value carrying the error's message.

## Model

| member | source | states |
|---|---|---|
| `Env.ValidateEnv` | src/env.ts:8-21 | the result is `Ok` exactly when all three settings are present and non-empty; otherwise `Error` with the prefix, the missing names joined by `", "` and the fixed suffix; the message starts with the prefix and names each missing setting |
| `Env.LoadEnv` | src/env.ts:23-26 | importing yields the unchanged record exactly when it is fully configured, and otherwise fails with the validation message |
| `Env.MissingVarsUnfold` | src/env.ts:9-13 | the missing list is the three checks' contributions concatenated in the order GROQ, Pinecone key, Pinecone index |
| `Env.MissingOfMembership` | src/env.ts:11-13 | a name is collected exactly when some missing setting carries it |
| `Env.MissingVarsMembership` | src/env.ts:11-13 | a setting's name is in the list if and only if that setting is missing; no other name ever appears |
| `Env.MissingVarsEmptyIff` | src/env.ts:11-15 | the list is empty exactly when all three settings are present and non-empty |
| `Env.MissingVarsOrdered` | src/env.ts:9-13 | the list has at most 3 entries, all known names, in strictly increasing check order, so with no duplicates |
| `Env.EmptyStringIsUndefined` | src/env.ts:11-13 | setting any variable to `""` gives the same list as leaving it undefined |
| `Env.MessageNamesEveryMissing` | src/env.ts:15-19 | every name in the list occurs in the error message |
| `Env.ErrorNamesMissing` | src/env.ts:15-19 | the message starts with the prefix and contains the name of each missing setting |
| `Env.AllMissingMessage` | src/env.ts:11-19 | with nothing configured the list is all three names and the message names all three, in order |
| `Strings.JoinContainsEach` | src/env.ts:17 | each part of `parts.join(sep)` occurs in the joined string |
| `Strings.JoinThree` | src/env.ts:17 | joining three names puts `sep` between each pair of neighbours |
| `TravelAssistant.ClientModule.constructor` | src/lib/ai/travel-assistant.ts:4-7 | the module can only be loaded with a validated configuration, and it starts with no client |
| `TravelAssistant.ClientModule.GetPineconeClient` | src/lib/ai/travel-assistant.ts:9-16 | afterwards the stored instance is the returned client and is non-null; a stored client is returned unchanged; otherwise a fresh client with the configured key is built; at most one client is ever built |
| `TravelAssistant.GetPineconeClientTwice` | src/lib/ai/travel-assistant.ts:9-16 | two successive calls return the same instance, and at most one construction happens |
| `TravelAssistant.ClientModule.InitPinecone` | src/lib/ai/travel-assistant.ts:75-89 | the client is built or reused; the result is the handle the SDK opens on the configured index exactly when opening it and fetching its statistics both succeed, else the fixed initialisation message |
| `TravelAssistant.UserContent` | src/lib/ai/travel-assistant.ts:41-45 | the user message contains the destination |
| `TravelAssistant.BuildRequest` | src/lib/ai/travel-assistant.ts:31-50 | exactly two messages: role `system` with the system prompt first, role `user` containing the destination second; bearer authorisation with the key; fixed URL, model, token limit and `top_p` |
| `TravelAssistant.NormaliseResponse` | src/lib/ai/travel-assistant.ts:53-62 | success exactly for an ok response whose body parsed and has `choices`; a success is never empty; every failure carries only the fixed generic message |
| `TravelAssistant.GenerateTravelPlan` | src/lib/ai/travel-assistant.ts:29-64 | for a validated configuration, the answer to the request built with its Groq key is a non-empty plan or fails with only the fixed generic message |
| `TravelAssistant.ContentReturnedVerbatim` | src/lib/ai/travel-assistant.ts:59 | on an ok response, non-empty content of the first choice is returned verbatim |
| `TravelAssistant.DegenerateSuccess` | src/lib/ai/travel-assistant.ts:59 | on an ok response, no choices, a null or non-object first choice, no message, no content or empty content yield exactly `"No plan generated."` |
| `TravelAssistant.SuccessIsContentOrPlaceholder` | src/lib/ai/travel-assistant.ts:58-59 | a successful plan is the placeholder or the first choice's content |
| `TravelAssistant.NonOkFails` | src/lib/ai/travel-assistant.ts:53-62 | a non-ok status fails with the fixed message whether or not its body parsed |
| `TravelAssistant.OtherFailures` | src/lib/ai/travel-assistant.ts:58-62 | transport failure, an unparsable body and an absent `choices` field all fail with the fixed message |
| `TravelAssistant.UpsertTravelData` | src/lib/ai/travel-assistant.ts:92-107 | succeeds exactly when the SDK's upsert of the given index and vectors succeeds; otherwise fails with the fixed upsert message |
| `TravelAssistant.QueryFor` | src/lib/ai/travel-assistant.ts:113-120 | the query carries the given vector, the given `topK` or 5 when it is left out, and always requests metadata |
| `TravelAssistant.QuerySimilarDestinations` | src/lib/ai/travel-assistant.ts:110-127 | succeeds exactly when the SDK's query succeeds, and then returns its `matches` unchanged; otherwise fails with the fixed query message |
| `TravelAssistant.QueryDefaultTopK` | src/lib/ai/travel-assistant.ts:113 | leaving `topK` out behaves the same as passing 5 |

## Left out

- The HTTP transport and JSON serialisation. The request models the URL, the bearer `Authorization` header, the model, the messages, `max_tokens` and `top_p`. It leaves out `method: 'POST'`, the `Content-Type: application/json` header and the temperature.
- The vector-database SDK (`index`, `describeIndexStats`, `upsert`, `query`). These are foreign calls. Each is a function parameter whose answer, a value or a throw, is an input to the model.
- `temperature: 0.7`. It is a floating-point request parameter with no logic attached.
- `console.log` and `console.error`. They only write to the log. The message built for a non-ok status (`StatusMessage`) only reaches the log, so the model keeps it but states nothing about it.
- `async`/`await`. Each operation is one sequential round trip, so there is no concurrency to model.
- `src/app/page.tsx` is not part of this model. It is React UI glue around one call to `generateTravelPlan`.
- `src/env.d.ts` is not part of this model. It holds type declarations only.
- The unused imports `Document` and `OpenAIEmbeddings`.
- JSON bodies that parse to a falsy value (`null`, `0`, `false`, `""`), and `choices` values that are neither an array nor absent. A body is either unparsable or parsed with an array-or-absent `choices`.
- TravelAssistant.NormaliseResponse: a `content` that is not a string is not modelled. A falsy one (`0`, `false`) would give the placeholder. A truthy one (a number, an object) would be returned as that non-string value, so there "a success is a non-empty string" does not hold. A `null` or non-object first entry of `choices` is modelled (`None`), and so is a `message` that is not an object (`message` is `None`). Both give the placeholder.
- Numbers are modelled as mathematical integers (`topK`) and reals (vector values and scores). IEEE-754 behaviour is left out.
- `topK` passed as `null` instead of being left out is not modelled. Only "left out" (`None`) triggers the default.
- TravelAssistant.ClientModule.InitPinecone: a `Pinecone` constructor that throws is not modelled. Client construction always succeeds, so `InitPinecone` fails only when the SDK's `index` or `describeIndexStats` throws.
- TravelAssistant.GenerateTravelPlan: the model does not state that `generateTravelPlan` calls `fetch` once. `send` is applied once, to the request `BuildRequest` builds from the destination and the configured key, but a pure function cannot count calls.
