# Discord live-stream notifier: webhook client

A model of the Discord webhook client of a Twitch "stream is live" notifier.
The client does three things. When a stream goes live, it posts a message with
one embed describing the stream and stores the id Discord returns. While the
stream runs, it edits that message's embed. When the stream ends, it replaces
the message with a notice carrying the VOD link.

The model has five modules:

- `Wrappers`: the `Option` datatype.
- `Json`: a JSON value type and dict-style member lookup. Objects are ordered
  member lists because Python dicts keep insertion order.
- `Webhook`: the `StreamInformation` record and the pure builders. These are
  the stream embed, the create, update and finalize bodies, the VOD
  placeholder rule and the two request URLs. Lemmas read each body back
  member by member.
- `Retry`: the bounded retry policy shared by create and finalize. The network
  is an oracle: a script of outcomes, one per attempt. `Outcome` is
  `Delivered(id)` for a response without an error status that carries an id,
  or `Failed` for a connection error or a 4xx/5xx status. An attempt past the end of the script fails.
  `Retrying` states the policy the way the source does, as self-recursion on a
  retry counter. `RetryingRun` gives the run in closed form. The corollaries
  cover all-failure runs (seven attempts, sleeps 5 to 30 seconds), the first
  success ending the run, and when a run gets an id.
- `DiscordClient`: the client class. Its one mutable field is
  `notificationMsgId`. Outbound requests and requested sleeps go into the ghost
  logs `requests` and `sleeps`; nothing is sent and nothing sleeps. The `Deliver`
  method runs the retry policy as a `while` loop and is proved equal to
  `Retrying`. The create, update and finalize methods say exactly which
  requests they send, which sleeps they take and what happens to the stored
  id. Only `SendInformation` may write the id: the other two methods do not
  list it in their `modifies` clauses. `GoLive` is a client method
  that uses only these contracts to follow a successful create.

Three behaviours of the code worth stating:

- When every attempt fails, create and finalize make **seven** attempts, not
  six. The guard `retry_count > 5` lets the counter reach 6 before giving up.
  The sleeps are 5, 10, 15, 20, 25 and 30 seconds.
- Update has no guard for a missing message id. With no id stored it PATCHes
  the webhook URL followed by a bare `/messages/`.
- The viewer count goes into the "Viewers" field as a JSON number (`JInt`),
  not as a string.

## Model

| member | source | states |
|---|---|---|
| `Webhook.StreamerUrl` | app/discord_client.py:26 | the channel URL is the Twitch channel base followed by exactly the user login (the login can be read back from it) |
| `Webhook.InlineFieldShape` | app/discord_client.py:48-57 | `InlineField` builds an embed field: the object {name, value, inline} is the object {name, value, inline} with `inline` true |
| `Webhook.StreamEmbedShape` | app/discord_client.py:36-59 | the stream embed built by `StreamEmbed` (with its author block from `Author`) has members title, color, timestamp, url, author, image, fields in that order; color 8388863; the channel URL as both the embed url and the author url; author name and icon; thumbnail as image; exactly two inline fields, "Game" with the game name then "Viewers" with the viewer count |
| `Webhook.CreatePayloadShape` | app/discord_client.py:30-61 | the create body built by `CreatePayload` is {username "Randy", the configured avatar_url, the configured content, embeds holding exactly the one stream embed} |
| `Webhook.UpdatePayloadShape` | app/discord_client.py:92-119 | the update body built by `UpdatePayload` has only an `embeds` member (no username, avatar or content), and it equals the create body's embeds for the same stream and profile image |
| `Webhook.VodText` | app/discord_client.py:137-138 | the VOD text is never empty; a non-empty VOD URL is used as given, and a missing or empty one becomes "None available." |
| `Webhook.FinalizeContent` | app/discord_client.py:146-149 | the finalize notice is the streamer name, then " stopped the stream. Check out the VOD!" and a line break, then the VOD text, each recoverable by position |
| `Webhook.FinalizePayloadShape` | app/discord_client.py:143-151 | the finalize body built by `FinalizePayload` is {username "Oak Tree", the fixed avatar URL, the stop notice as content, embeds empty} |
| `Webhook.CreateUrl` | app/discord_client.py:29 | the create URL is the webhook URL followed by exactly "?wait=true" |
| `Webhook.MessageUrl` | app/discord_client.py:91 | a message URL is the webhook URL, then "/messages/", then exactly the message id; an empty id leaves the URL ending in "/messages/" |
| `Webhook.MessageUrlInjective` | app/discord_client.py:142 | two message URLs of one webhook are equal exactly when their ids are |
| `Webhook.CreateUrlIsNoMessageUrl` | app/discord_client.py:29 | the create URL is never a message URL of the same webhook |
| `Retry.Retrying` | app/discord_client.py:72-82 | the run from a given counter as the source's own recursion on that counter: a success ends it with its id, a failure above 5 ends it without one, any other failure sleeps (counter + 1) * 5 and recurs; every run makes at least one attempt with one sleep between each two consecutive attempts; its closed form is `RetryingRun` |
| `Retry.Delays` | app/discord_client.py:75-77 | the i-th sleep (counting from 0) of a run started at counter r is (r + i + 1) * 5 seconds |
| `Retry.RetryingRun` | app/discord_client.py:72-82 | a run makes between 1 and Budget attempts (7 from counter 0); every attempt but the last failed; the last decides the id; a run with no id used its whole budget; the sleeps between attempts are the linear `Delays` |
| `Retry.AllFailuresExhaustBudget` | app/discord_client.py:159-172 | if every attempt within the budget fails, the run makes exactly Budget attempts, sleeps `Delays` between them and gets no id |
| `Retry.AllFailuresFromZero` | app/discord_client.py:72-82 | from counter 0, a run that never succeeds makes exactly 7 attempts with sleeps 5, 10, 15, 20, 25, 30 and ends without an id |
| `Retry.FirstSuccessEnds` | app/discord_client.py:64-67 | the first successful attempt (index j) ends the run: j + 1 attempts, j sleeps, and that attempt's id |
| `Retry.DeliveredIffSomeSuccess` | app/discord_client.py:153-154 | a run succeeds exactly when some attempt within the budget succeeds |
| `DiscordClient.DiscordClient.constructor` | app/discord_client.py:12-17 | the webhook URL, avatar URL and content are the given configuration; no message id is stored; nothing has been sent or slept |
| `DiscordClient.DiscordClient.Deliver` | app/discord_client.py:75-82 | the retry loop sends the same request once per attempt of the run `Retrying(0, outcomes)`, takes exactly that run's sleeps, and returns its id |
| `DiscordClient.DiscordClient.SendInformation` | app/discord_client.py:19-82 | create sends the create request (`CreateRequest`: a POST of the create body to the create URL) once per attempt of the retry run and takes its sleeps; the stored id becomes the successful attempt's id, or stays as it was when every attempt fails |
| `DiscordClient.DiscordClient.UpdateInformation` | app/discord_client.py:84-127 | update sends exactly one request, `UpdateRequest`: a PATCH of the update body to the stored message's URL, with no retry and no sleep, and leaves the stored id alone |
| `DiscordClient.DiscordClient.FinalizeInformation` | app/discord_client.py:129-172 | with no stored id, finalize sends nothing and sleeps nothing; otherwise it sends the finalize request (`FinalizeRequest`: a PATCH of the finalize body to the stored message's URL) once per attempt of the retry run and takes its sleeps; the stored id never changes |

## Left out

- Configuration loading: the three environment variables become constructor parameters, because reading the environment is I/O.
- HTTP: `requests.post`, `requests.patch`, `raise_for_status` and `response.json()["id"]` become the outcome oracle. A connection error and a 4xx/5xx status (the statuses `raise_for_status` raises for) are both `Failed`, as the code treats them alike.
- Uncaught exceptions are not modelled: a response body with no `id` or with malformed JSON, a read timeout, or any other error outside the two caught kinds. These would propagate to the caller.
- Sleeping: each requested delay goes into the ghost log `sleeps`; no real time passes.
- Logging through loguru, including create's "Retrying finalize" message text. Logs are not observable state.
- JSON serialisation to bytes: the model works on JSON values, not on the encoded text.
- `StreamInformation` is a plain datatype of the seven fields the client reads. The Twitch client that produces it is not part of this model.
- A caller-supplied `retry_count`. The client methods start the counter at 0, as the default argument does. `Retry.Retrying` accepts any non-negative counter. Negative counters are not modelled: a counter below -1 makes `sleep` raise after the first failure, and -1 sleeps 0 s and adds an eighth attempt.
- `streamer_name` has no type annotation in the source; the model takes a string. `vod_url` is `Option<string>`, and its falsy values are `None` and the empty string.
- Concurrency on the shared message id: the client is single-threaded.
