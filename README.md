# Location-post responder: a Dafny model

The handler of this repository is given a location name. It searches a
social-media platform for recent posts at that place. Each post goes through
a chat-completion model twice: once to label its intent with one of a fixed
set of categories, and once to draft a question in reply. Unless the
`DRY_RUN` environment variable is `"true"`, the reply is then posted.

This model covers the decision logic of `index.ts`:

- the bounded retry of the post search, with exponential backoff on rate-limit errors (`fetchTweets`);
- the closed-set normalisation of the intent label (`classifyIntent`);
- the fallback reply text (`generateResponse`);
- the error-swallowing reply step (`replyToTweet`);
- input validation, status selection, per-post result assembly and dry-run gating in `handler`.

The remote collaborators become values:

- the search is a function `search: nat -> SearchOutcome`, where `search(k)` is what the k-th call yields (all posts, or the thrown value);
- a completion is `Answered(content)` or `CompletionThrew(error)`;
- a reply is `Posted` or `ReplyThrew(error)`;
- a thrown value is an `ErrorValue`, and `ErrorMessage` is the message-extraction rule repeated in every `catch` of `index.ts`: an object's `message`, own or inherited, when it has one, and `String(value)` otherwise;
- a backoff wait is recorded as its duration in milliseconds.

Files:

- `text.dfy`: the JavaScript string operations used (`trim`, `toLowerCase`, UTF-16 `length`).
- `outcomes.dfy`: the collaborator outcomes.
- `fetch.dfy`: `fetchTweets`, written as a `while` loop in a method and proved equal to the specification function `Fetch`; the lemmas about `Fetch` give the attempt count, the backoff schedule and which error comes out.
- `intents.dfy`: `classifyIntent` and `generateResponse`.
- `handler.dfy`: `replyToTweet`, the per-post pipeline and `handler`.

Three behaviours of `index.ts` that are easy to miss, all kept in the model:

- After the last rate-limited call the code still waits (`1000 * 2^(maxRetries-1)` ms) before it throws "max retries" (index.ts:37-47). With the default bound it waits 1, 2 and 4 seconds.
- `results` follow the order of the fetched posts (index.ts:137-152), and so do the model's.
- Generation falls back on an empty completion only after trimming (index.ts:96-97), so an all-whitespace completion also gives the fallback question.

## Model

| member | source | states |
|---|---|---|
| `Text.Trim` | index.ts:68 | `trim` returns the part of the string between its leading and its trailing whitespace, and that part starts and ends with a non-whitespace character |
| `Text.TrimUnique` | index.ts:68 | any split of a string into whitespace, a core with non-whitespace ends, and whitespace has `trim` as its core |
| `Text.TrimIdempotent` | index.ts:96 | trimming an already trimmed string changes nothing |
| `Text.Utf16Length` | index.ts:125 | the JavaScript `length` is between the number of characters and twice it, and is 0 only for the empty string |
| `Fetching.Schedule` | index.ts:39 | the k-th wait (0-based) is 1000 * 2^k ms |
| `Fetching.FetchTweets` | index.ts:20-48 | the loop's result, number of search calls and recorded waits are exactly those of `Fetch`, the recursive reference definition of the same loop (`Attempt` from a state of `retries` rate-limited calls), about which the lemmas below are stated |
| `Fetching.AttemptShape` | index.ts:22-46 | from any point reached by rate-limited calls, the run stays within the bound, waits only after rate-limited calls, and either exhausts the bound or stops at the first other outcome |
| `Fetching.FetchBounds` | index.ts:20-47 | at most `maxRetries` search calls, none when `maxRetries <= 0`; one wait per rate-limited call, the last included, following the 1000 * 2^k schedule |
| `Fetching.FetchExhausted` | index.ts:37-47 | "Max retries reached" is thrown if and only if all `maxRetries` calls are rate-limited, after exactly that many calls and waits |
| `Fetching.FetchSettles` | index.ts:31-44 | the first call that is not a 429 ends the fetch: its posts are returned unchanged and in order, or its message is wrapped as "Failed to fetch tweets: ..."; no further call or wait follows |
| `Fetching.DefaultExhaustion` | index.ts:20-47 | with the default bound, an always-rate-limited search is called 3 times with waits 1000, 2000, 4000 and fails with "Max retries reached for fetching tweets" |
| `Fetching.RecoversAfterTwoRateLimits` | index.ts:36-40 | two 429s then a success return that success's posts after waits 1000 and 2000 |
| `Intents.ClassifyIntent` | index.ts:50-76 | the label is always in `INTENT_CATEGORIES`; a label other than "other" is the trimmed, lower-cased completion; a completion that normalises to a category yields that category |
| `Intents.CategoriesAreWords` | index.ts:15 | every category is a non-empty lower-case ASCII word |
| `Intents.SpelledNormalises` | index.ts:68 | a category written in any letter case with only whitespace around it normalises to that category |
| `Intents.ClassifyAccepts` | index.ts:68-70 | such a completion is classified as that category |
| `Intents.ClassifyOnlyAccepts` | index.ts:68-70 | conversely, a category other than "other" is returned only for a completion spelling it that way |
| `Intents.ClassifyRejects` | index.ts:70 | a completion that does not normalise to a category gives "other" |
| `Intents.CategoryIsFixedPoint` | index.ts:68-70 | a completion that is exactly a category name is taken as is |
| `Intents.OffListExample` | index.ts:68-75 | "shopping", a missing completion and a throwing call all give "other" |
| `Intents.PaddedExample` | index.ts:68-70 | " Food\n" is classified as "food" |
| `Intents.GenerateResponse` | index.ts:78-107 | the reply is never empty: the trimmed completion when it has text, the question "What's cool about <intent> in that place?" otherwise, including when the call throws |
| `Intents.ReplyTextIsTrimmed` | index.ts:96-105 | the reply text never starts or ends with whitespace, from either branch |
| `Intents.EmptyGenerationExample` | index.ts:96-105 | an empty generation for "food" gives "What's cool about food in that place?" |
| `Handler.ReplyToTweet` | index.ts:109-117 | a reply attempt records the post's id and the text, and is marked failed exactly when the reply call throws, which it never propagates |
| `Handler.ProcessPost` | index.ts:138-151 | one post's result carries its id, the intent `classifyIntent` gives for that post's completion (hence in the category set) and the response `generateResponse` gives from that intent (hence non-empty); a reply is dispatched exactly when the run is not a dry run, with that post's id and that response |
| `Handler.Dispatched` | index.ts:145-148 | never more replies than pipelines; `DispatchedNone` and `DispatchedAll` give the exact replies |
| `Handler.DispatchedNone` | index.ts:146-148 | when every pipeline skips the reply, no reply is dispatched |
| `Handler.DispatchedAll` | index.ts:146-148 | when every pipeline replies, one reply per post is dispatched, in post order |
| `Handler.Handle` | index.ts:121-167 | the status is one of 200/400/404/500; 400 exactly for a missing, repeated or shorter-than-2 location, with no search call; 500 exactly when the fetch throws; 404 exactly when it returns no posts; on 200, one result per post in fetch order with the post's id, the intent classified from that post's completion and the response generated from that intent, `dryRun` equal to `DRY_RUN === "true"`, and one reply per post unless dry run, none otherwise |
| `Handler.ReplyOutcomesDoNotMatter` | index.ts:109-117 | whatever the reply calls do, the response and the replies sent (ids and texts) are the same |
| `Handler.PipelineKeepsAnswers` | index.ts:138-150 | a post whose completions answer a category name and a trimmed text gets exactly that intent and response |
| `Handler.RespondsInFetchOrder` | index.ts:137-158 | the 200 body holds the per-post results in fetch order |
| `Handler.TwoPipelines` | index.ts:138-150 | two posts answered "cat" and "text" give two results with those values, in order |
| `Handler.ParisExample` | index.ts:121-158 | "Paris" with two fetched posts, classification "food" and generation "Try the croissants?" gives 200 with two such results and `dryRun` following the flag |

## Left out

- `pages/api/tweets.js`, an alternative handler on another completion backend, is not part of this model.
- Client construction and the start-up check of the search credential (index.ts:6-12) are left out; the clients are the collaborator values above.
- The search query string, `max_results`, the requested fields, the prompts, the model name and `max_tokens` are left out, because they only shape requests to opaque services.
- Real time is not modelled. `delay` is recorded as the list of wait durations, and `2 ** retries` is computed exactly on integers.
- Concurrency is not modelled. `Promise.all` over the per-post pipelines is a map in fetch order, which is faithful because the pipelines share no state. The order in which the handler's replies are actually posted across posts is not fixed, while the model lists them in fetch order.
- Logging (`console.*`) is left out. A failed reply leaves only its message in `ReplyLog`.
- Error values are reduced to `ErrorValue`: an object with an optional numeric `code` and an optional string `message`, or a primitive shown as `String(value)`. A non-numeric `code`, a non-string `message` and a custom `toString` are not modelled.
- An object without a `message` is always shown as "[object Object]". For a non-plain object such as an array or a `Date`, `String()` gives something else, which the model does not capture.
- An error thrown while iterating the search pages is modelled as that search call throwing, because the partially collected posts are dropped in the source too.
- A completion whose content is not a string, so that `trim` throws, is modelled as a completion call that throws; both give the same fallback.
- `maxRetries` is an integer. Fractional values are not modelled.
- HTTP framing (`NextApiRequest`/`NextApiResponse`) is reduced to the status code and the JSON body. A failure of `res.json` itself is not modelled.
- `Text.AsciiLower`: `toLowerCase` is modelled on ASCII letters only. For the fixed category set this gives the same accept decision, since the only non-ASCII characters that lower to ASCII letters are U+212A (to "k", in no category) and U+0130 (to "i" plus a combining dot, never a whole category).
