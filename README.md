# Dr. Tsai chat plumbing — a Dafny model

This project models the deterministic part of the Dr. Tsai pharmacogenomics
chat page: the session transcript and how the reply to a question is rendered.

- When a browser session starts, the transcript is seeded with a greeting. On
  every script run it is replayed without being saved again.
- `write_message(role, content, save)` appends `{role, content}` to the
  transcript only when `save` is set, and always draws the message.
- The submit handler writes the agent's answer. The default is
  "I'm not sure.". When the agent returned documents, it then writes a
  Markdown `**References:**` block with one bullet per document, in order.
  Each bullet uses the document's `name`, or a 1-based `Source i` placeholder.
  It is a link `- [name](url)` exactly when the URL has usable text starting
  with `http`. The URL is `source`, or `source_url` when `source` is missing
  or empty.
- `get_session_id()` returns the script-run context's session id. With no
  context, or when the lookup raises, it returns `"unknown-session"`.

Modules:

- `Wrappers` (wrappers.dfy) holds the `Option` type.
- `Decimal` (decimal.dfy) is Python's `str(n)` for the placeholder number, with its parse-back.
- `Utils` (utils.dfy) models utils.py. `SessionState` is a class whose
  `WriteMessage` updates the transcript in place.
- `Bot` (bot.py's logic, in bot.dfy) holds the reference rendering functions.
  `BuildReferences` is the accumulating loop, proved equal to `ReferencesText`.
  Seeding, replay, the submit handler and one script run are methods on a
  `SessionState`.

Streamlit's drawing (`st.chat_message`, `st.markdown`) is kept only as the
`shown` log of the session state. The agent call `generate_response` is foreign
code, so it is a parameter: the `AgentCall` given to `HandleSubmit`, or the
`agent` function given to `RunScript`. An `AgentCall` either failed (the call
raised, which ends the turn) or answered with a `Response`. The script-run context lookup is the
`ContextLookup` given to `GetSessionId`.

## Model

| member | source | states |
|---|---|---|
| `Decimal.DecimalString` | bot.py:33 | the number in `f"Source {i+1}"` is rendered as a non-empty string of digits with no leading zero (except for 0) |
| `Decimal.ParseDecimalString` | bot.py:33 | reading the rendered digits back yields the number: the rendering loses nothing |
| `Decimal.DecimalStringInjective` | bot.py:33 | two numbers render alike exactly when they are equal |
| `Utils.Append` | utils.py:9-10 | a saved write adds exactly one `{role, content}` entry at the end; an unsaved one leaves the transcript as it was; earlier entries never change |
| `Utils.AfterWrites` | utils.py:9-10 | a series of `write_message` calls in call order; the old transcript stays a prefix, and at most one entry is added per call (further specified by `AfterWritesAppendsSaved`, `SavedWritesGrowByCount`, `UnsavedWritesKeepLog`) |
| `Utils.AfterWritesAppendsSaved` | utils.py:9-10 | any series of writes leaves the old transcript as a prefix, followed by the saved messages in call order |
| `Utils.SavedWritesGrowByCount` | utils.py:10 | N saved writes grow the transcript by exactly N entries; entry k is the k-th call's message; the earlier entries are untouched |
| `Utils.UnsavedWritesKeepLog` | utils.py:9 | writes with `save=False` leave the transcript unchanged |
| `Utils.SessionState.constructor` | bot.py:9 | a fresh browser session has no "messages" key and nothing drawn |
| `Utils.SessionState.WriteMessage` | utils.py:3-14 | the transcript becomes `Append(old, call)` and the message is drawn once; saving needs the "messages" key |
| `Utils.GetSessionId` | utils.py:16-25 | returns the context's session id when a context is returned; returns "unknown-session" when the lookup raises or returns none |
| `Bot.AnswerText` | bot.py:21 | a missing answer becomes "I'm not sure."; a present answer is kept verbatim |
| `Bot.ContextDocs` | bot.py:22 | a missing context is the empty list; a present one is kept as given |
| `Bot.MetadataOf` | bot.py:32 | a document's metadata, or the empty map when it has none |
| `Bot.Placeholder` | bot.py:33 | `f"Source {i+1}"`: the text opens with "Source " and has at least one character after it (its number is specified by `PlaceholderOneBased` and `PlaceholderInjective`) |
| `Bot.PlaceholderOneBased` | bot.py:33 | the placeholder is "Source " followed by the digits of the 1-based position i+1, with no leading zero, as `str(i+1)` writes them |
| `Bot.PlaceholderInjective` | bot.py:33 | placeholders of different positions are different |
| `Bot.DisplayName` | bot.py:33 | the bullet's name is metadata `name` when that key is present, else the positional placeholder |
| `Bot.SourceUrl` | bot.py:34 | the URL is `source` when present and non-empty, else `source_url`; there is no URL exactly when `source` is missing or empty and `source_url` is missing |
| `Bot.IsLinkUrl` | bot.py:36 | `url and url.startswith("http")` holds exactly when there is a URL and it has the prefix `http`; the non-empty test adds nothing beyond the prefix test |
| `Bot.Line` | bot.py:32-39 | the bullet for document i (specified by `LineShape` and `LineIsLinkIff`) |
| `Bot.LineShape` | bot.py:36-39 | every bullet starts with "- " and ends with a newline; it is `- [name](url)` exactly when the URL is non-empty and starts with `http`, and `- name` otherwise |
| `Bot.LineIsLinkIff` | bot.py:36-39 | when the name does not itself start with '[', a bullet opens a link exactly when its URL is usable |
| `Bot.RefLines` | bot.py:30-39 | exactly one bullet per document, bullet k rendering document k with index k |
| `Bot.Concat` | bot.py:37-39 | the `+=` accumulation of the bullets in order (specified through `ReferencesTextSnoc`, `ReferencesTextPrefix` and `BuildReferences`) |
| `Bot.ReferencesText` | bot.py:29 | the references message starts with the `**References:**` header line |
| `Bot.ReferencesTextSnoc` | bot.py:30-39 | one more document appends exactly its own bullet to the references |
| `Bot.ReferencesTextPrefix` | bot.py:30-39 | the references for the first k documents are a prefix of the references for all of them |
| `Bot.LineInPlace` | bot.py:30-39 | document i's bullet comes right after the bullets of documents 0..i-1, so the bullets appear in input order |
| `Bot.BuildReferences` | bot.py:29-39 | the `+=` loop produces exactly the header followed by every bullet in order |
| `Bot.SubmitMessages` | bot.py:21-42 | a submit adds one or two assistant messages. The first is the answer. The second exists exactly when the context is non-empty, and it is the references text |
| `Bot.ReplayCalls` | bot.py:45-46 | one `save=False` write call per saved message, carrying its role and content, in transcript order |
| `Bot.SubmitOutcome` | bot.py:18-42 | a submit whose agent call raised adds no message; otherwise it adds exactly `SubmitMessages` of the reply |
| `Bot.SeedMessages` | bot.py:9-12 | without a transcript, the transcript becomes exactly the greeting; an existing transcript is kept |
| `Bot.ReplayHistory` | bot.py:45-46 | replay draws every saved message in order. The transcript stays unchanged, and equals the fold `AfterWrites` of its `save=False` calls |
| `Bot.HandleSubmit` | bot.py:15-42 | the transcript and the drawn log both grow by exactly `SubmitOutcome(call)`. That is nothing when `generate_response` raised, and otherwise the answer, then the references if any |
| `Bot.RunScript` | bot.py:9-51 | a script run leaves the seeded transcript. With a non-empty question, it adds the user's question, then the submit's messages. When the agent call raises, the transcript ends with the unanswered question. The run draws exactly the transcript it leaves |

## Left out

- Streamlit rendering (page config, spinner, Markdown layout) is reduced to the `shown` log. Only the transcript's contents and order are modelled.
- The agent is a parameter. Its prompt, tools, Neo4j history and retrieval chain (agent.py, tools/vector.py, tools/cypher.py) are not part of this model.
- Only dictionary-shaped documents are modelled. The `getattr(doc, "metadata", ...)` path for `Document` objects is not modelled: the default `doc.get(...)` is evaluated first and would fail on such objects.
- A plain-string reply is not modelled. `generate_response` returns `response['output']`, but the handler calls `.get` on it, so the code has no working string path.
- Metadata values, the answer and the session id are modelled as strings. Non-string values, such as `None` stored under a key, are left out. `None` appears only as a missing key (`Option.None`).
- A `context` entry that is present but not a list (for example `None`) is left out. A context is either missing or a sequence of documents.
- `Bot.LineIsLinkIff`: it is stated only for names that do not start with '['. Such a name in a plain bullet reads like a link, so the text alone cannot tell the two forms apart.
- When `generate_response` raises, the error propagates out of the script. The model keeps only the transcript and drawn messages left at that point. Streamlit's display of the error is not modelled.
- `Bot.Line` and `Bot.Concat` carry no contract of their own. Any contract on them is re-examined inside every references proof and makes those proofs too costly. Their properties are stated by the lemmas named in their rows.
