# Conversation controller of the run-wild browser agent

The agent keeps a chat with a language model. Each time the browser shows a
page, the agent asks the model for the next command (`CLICK`, `TYPE` or
`GOAL`). The `Conversation` in `src/openai.rs` owns four fields. The model
keeps three of them:

- the goal;
- the last URL seen;
- the list of messages, which starts with the fixed System prompt.

The fourth, the OpenAI `client`, is replaced by a parameter (see Left out).

It offers two operations:

- `enforce_context_length` parses the new URL. If no URL was stored yet, or the
  stored URL's host is not the new URL's host, it cuts the history back to the
  System prompt. It then records the new URL.
- `request_action` runs that context maintenance and appends one User message
  (objective, current URL, page content). It sends the whole history to the
  completion service, appends the first reply, and decodes the reply into an
  `Action`.

The model has two modules:

- `OpenAi` (`openai.dfy`) holds the data types and the pure reference
  functions `HostChanged`, `EnforceContext`, `UserPrompt` and `Request`. It also
  holds the class `Conversation`, whose fields `goal`, `url` and `messages` are
  updated in place. `Conversation.EnforceContextLength` and
  `Conversation.RequestAction` are proved to compute exactly what
  `EnforceContext` and `Request` say about the old state.
- `OpenAiProperties` (`properties.dfy`) proves properties of sequences of
  calls. These are that the System prompt survives every run, that a same-host
  call trims nothing, that a host change resets, and that a failed completion
  leaves its User message in place. It also proves that without debug logging
  a response missing usage is handled like any other. It ends with a three-call
  session.

The URL parser, the completion service and the action decoder are outside the
model. They are passed in as function values:

- `parse: string -> Option<Url>` stands for `Url::parse` with `Url::host`.
- `complete: CompletionRequest -> Completion` stands for the OpenAI client. It
  is supplied per call, so every call may get a different outcome.
- `decode: string -> Result<Action, string>` stands for `TryFrom<String> for
  Action`.

Behaviours of the code that are easy to miss:

- The code stores the whole parsed URL, not only its host. Only the host is
  compared.
- A URL that parses but has no host (`mailto:`, `data:`) is accepted. Two such
  URLs in a row do not reset the context.
- The default conversation hardcodes its goal ("Visit 10 webpages.") and its
  System prompt. They are not constructor parameters.
- The `expect` on the usage metadata (line 91) sits inside the arguments of a
  `debug!` event (lines 87-93). The `tracing` crate evaluates them only when
  that event is enabled. So a response without usage panics only with debug
  logging on; otherwise usage is never looked at. The model takes this as the
  input `debugLogging`. When it is true and usage is missing, the model reports
  `Err(UsageMissing)`. This is checked before the number of choices. The state
  is the one the conversation is in at that point: the User message has been
  appended and no reply has.
- The reply is appended with the role the service gave it, which need not be
  Assistant.

## Model

| member | source | states |
|---|---|---|
| OpenAi.HostChanged | src/openai.rs:113 | The context changes exactly when no URL is stored or the stored URL's host differs from the new URL's host; scheme, port and path play no part, and two host-less URLs count as the same context |
| OpenAi.EnforceContext | src/openai.rs:110-120 | The new URL is always recorded and the goal kept; the history becomes a non-empty prefix of the old one, of length exactly 1 on a host change and unchanged otherwise; the System-prompt invariant is preserved |
| OpenAi.UserPrompt | src/openai.rs:65-72 | The User message text holds, at fixed offsets and in this order, the label `OBJECTIVE: `, the goal, the label `CURRENT URL: ` (after a newline), the raw URL, the label `PAGE CONTENT: ` (after a newline), and the page content at the end |
| OpenAi.Request | src/openai.rs:62-108 | One turn keeps the System prompt first and never changes the goal. It fails with InvalidUrl exactly when the URL does not parse, and then changes nothing. Otherwise it records the new URL and appends exactly one User message after the maintained context. It then gives CompletionFailed exactly when the service call failed, UsageMissing exactly when debug logging is on and the response has no usage, and NoCompletionChoice exactly when the choice list is empty and usage either is present or is not looked at (debug logging off). In each of these three cases no reply is appended. Exactly when there is a choice and usage either is present or is not looked at, choice 0 is appended and the result is the decoder's result on its text: the action, or ActionDecodeFailed carrying the decoder's error, with the reply kept either way |
| OpenAi.Conversation.constructor | src/openai.rs:25-58 | A new conversation has the default goal, no URL, and the System prompt as its only message |
| OpenAi.Conversation.EnforceContextLength | src/openai.rs:110-120 | On a parse failure it returns InvalidUrl and leaves `url` and `messages` as they were; otherwise it returns success and leaves the fields equal to `EnforceContext` of the old state; `goal` never changes |
| OpenAi.Conversation.RequestAction | src/openai.rs:62-108 | The new fields and the result are exactly `Request` of the old fields, so every property of `Request` holds of the object; `goal` never changes and the System-prompt invariant is kept |
| OpenAiProperties.RunKeepsSystemMessage | src/openai.rs:62-120 | For every sequence of calls and every outcome of each, the history stays non-empty with the System prompt first, and the goal is never changed |
| OpenAiProperties.SessionKeepsSystemMessage | src/openai.rs:26-49 | Every session that starts from the default conversation keeps the System prompt first and the default goal |
| OpenAiProperties.SameHostContinues | src/openai.rs:113-118 | After a call whose URL parsed, whatever its outcome, context maintenance for a URL on the same host leaves the history exactly as that call left it, and the second call's history starts with that history followed by its own User message |
| OpenAiProperties.HostChangeResets | src/openai.rs:113-115 | After a call whose URL parsed, context maintenance for a URL on a different host leaves only the System prompt, and the second call's history starts with the System prompt followed by its own User message |
| OpenAiProperties.UnansweredMessageIsKept | src/openai.rs:65-85 | After a failed completion call, the call's User message is the last entry. A following same-host call keeps that message, directly followed by the second call's own User message |
| OpenAiProperties.UsageIgnoredWithoutDebugLogging | src/openai.rs:87-107 | With debug logging off, a response without usage still has its first choice appended, and the result is the decoder's result on its text (the action, or ActionDecodeFailed carrying the decoder's error); an empty one still gives NoCompletionChoice; with debug logging on, the same response gives UsageMissing |
| OpenAiProperties.Scenario | src/openai.rs:62-120 | Three calls: on a.example answered `CLICK 0`, which leaves 3 messages and returns Click(0); then on the same host with a failing completion, which leaves 4 messages with the first 3 kept; then on b.example with a failing completion, which leaves the System prompt and the new User message |

## Left out

- The OpenAI client, the HTTP transport and `.await` (lines 74-85) are not
  modelled. A failure to build the request and a failure to send it both become
  the single outcome `Failed` of `complete`.
- The sampling temperature `0.7` (line 80) is not modelled because it is a
  float. The model name `gpt-4` and `max_tokens` 100 are kept as the constants
  of `CompletionRequest`.
- `Url::parse` and `Url::host` (the WHATWG URL Standard, section 4.4 "URL
  parsing", as the `url` crate implements it) are a foreign library. They are
  the parameter `parse`.
- The `Action` decoder is in another module of the repository. That module is
  not part of this model, so the decoder is the parameter `decode` and its
  grammar is not modelled.
- The `tracing` output (lines 61, 87-93, 114) is not modelled. Only one part of
  it is kept: whether the usage `debug!` event is enabled, as the input
  `debugLogging`, because its arguments can panic. The model takes that for a
  whole run and does not model subscribers or filters.
- The panic on missing usage (line 91) is reported as `Err(UsageMissing)`. The
  model does not capture that the real call never returns.
- The `client` field is replaced by the per-call `complete` parameter. The
  optional `name` of a message is always `None` in the Rust code and is not
  modelled.
- Element ids in `Action` are unbounded naturals. The model does not capture
  the width of the decoder's integer type.
- Concurrency is not modelled: the methods take `&mut self`, so access is
  exclusive.
