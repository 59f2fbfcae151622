# Conversation store and prompt assembly of the call/SMS spam-blocker backend

This project models the core of the FastAPI backend in `main.py`. The backend
answers unknown callers with a language-model persona. It keeps each caller's
conversation in the MongoDB collection `calls`, in one document per
`caller_number`. A document holds two append-only lists:

- `conversation`, the voice turns. Each entry is `{caller, bot}`.
- `sms_conversation`, the text turns. Each entry is `{user}` or `{bot}`.

The prompt sent to the model has three parts, in this order:

1. the fixed persona `DEFAULT_PROMPT`, as the only system message;
2. one user message and one assistant message for every stored entry;
3. the caller's newest words, as the last user message.

The project has three modules, one per part of `main.py`:

- `ChatStore` (`store.dfy`) holds the documents as values: `Entry` is a
  string-to-string dictionary, `Document` maps field names to entry lists,
  and `Store` maps caller numbers to documents. `ChatHistory` is
  `get_chat_history`. `PushUpsert` is `update_one` with `$push` and
  `upsert=True`. The class `Collection` holds the store and is updated in
  place by `UpdateOnePush`. Its invariant says that a document exists only
  for a caller who has at least one stored entry.
- `PromptAssembly` (`prompt.dfy`) holds the message-building loop of
  `generate_ai_response` as the method `BuildMessages`. The method is proved
  against the specification function `Prompt`, and lemmas give the shape of
  `Prompt` position by position.
- `Endpoints` (`endpoints.dfy`) holds `handle_call` and `handle_sms` as methods
  that change a `Collection`. `handle_call` reads the history before it
  appends. `handle_sms` appends the incoming text first, so the history it
  reads already ends with that text. Lemmas compare the prompts that the two
  orderings produce.

Three outside services are parameters of the endpoint methods, as total
functions: speech-to-text (`transcribe`), the chat completion (`complete`,
from message list to reply text) and text-to-speech (`synthesize`).

The Streamlit tester `app.py` also drives a contact list, a "Ringing" path
for saved contacts and spam routing for everyone else (app.py:28, 48-56,
120), through endpoints that `main.py` does not define. In `main.py`,
`handle_call` always transcribes, answers, synthesizes and stores, and
`handle_sms` always answers and stores. The model follows `main.py`.

## Model

| member | source | states |
|---|---|---|
| `ChatStore.Lookup` | main.py:60-61 | `entry.get(key, "")`: the stored value when the key is present, the empty string when it is absent |
| `ChatStore.ChatHistory` | main.py:49-51 | the history is `[]` when the caller has no document, `[]` when the document lacks the field, and otherwise exactly the stored list |
| `ChatStore.PushUpsert` | main.py:103-107 | after a `$push` with upsert the caller has a document, and the field's history is the old history (empty if absent) plus the new entry at the end. The caller's other fields and every other caller's document are unchanged |
| `ChatStore.PushUpsertKeepsRecordsOnlyByAppend` | main.py:127-131 | an upsert keeps the invariant that every stored document holds at least one entry, so a document exists only for a caller who has something appended |
| `ChatStore.Collection.UpdateOnePush` | main.py:138-142 | the collection's new contents are the old ones with the `$push`/upsert applied, and the invariant is kept |
| `PromptAssembly.Pairs` | main.py:59-61 | the history contributes exactly two messages per entry, so no entry is skipped |
| `PromptAssembly.PairsAt` | main.py:59-61 | history entry i yields a user message whose content is the entry's `user_key` value (or `""`), then an assistant message whose content is its `bot` value (or `""`), in stored order |
| `PromptAssembly.PairsHaveNoSystem` | main.py:59-61 | the history part of the prompt contains no system message |
| `PromptAssembly.PromptShape` | main.py:55-64 | the prompt has length 2n+2 for a history of n entries. Position 0 holds the only system message, with content `DEFAULT_PROMPT`. Entry i gives the user message at 2i+1 and the assistant message at 2i+2, with a missing key giving `""`. The last message is a user message carrying the new input |
| `PromptAssembly.PromptDeterminedByShape` | main.py:56-64 | the converse of `PromptShape`: any message list with that length, first message, pair positions and last message is the assembled prompt |
| `PromptAssembly.BuildMessages` | main.py:56-64 | the loop that starts with the system message, appends a user/assistant pair per entry and then the new input produces exactly `Prompt(history, userKey, userInput)` |
| `Endpoints.CallEntry` | main.py:105 | the voice entry has exactly the keys `caller` and `bot`, carrying the transcription and the reply |
| `Endpoints.SmsUserEntry` | main.py:129 | the incoming SMS entry has only the key `user`, so its `bot` lookup is `""` |
| `Endpoints.SmsBotEntry` | main.py:140 | the reply SMS entry has only the key `bot`, so its `user` lookup is `""` |
| `Endpoints.GenerateAiResponse` | main.py:54-75 | the reply is the completion of the prompt assembled from the caller's stored history under the given field, and the store is only read |
| `Endpoints.HandleCall` | main.py:93-118 | returns the input caller number, the transcription of the audio, the reply and the synthesized reply audio. The reply answers the prompt built from the voice history as it was before the call. Exactly one `{caller, bot}` entry is appended to the end of the caller's `conversation` (the document is created if absent). The caller's other fields and every other caller are unchanged |
| `Endpoints.HandleSms` | main.py:122-147 | returns the input caller number, the input message and the reply. The reply answers the prompt built from the stored SMS history followed by `{user: message}`. Exactly `{user: message}` and then `{bot: reply}` are appended to `sms_conversation`. The caller's other fields and every other caller are unchanged. When the request completes, a history made of whole user/bot exchanges stays so |
| `Endpoints.CallPromptOmitsNewTurn` | main.py:97-107 | with read-before-append, the prompt that was answered is the one the history after the call would give with the new `{caller, bot}` entry's pair taken out: it has two messages per entry of the new history, and after the older entries' pairs it holds only the transcription as the final user message, where the history-after ordering would put the new (transcription, reply) pair |
| `Endpoints.SmsPromptShape` | main.py:127-136 | with append-before-read, the prompt is the system message and the stored pairs, then (message, `""`), then the message again as the final user message: 2n+4 messages for n stored entries |
| `Endpoints.SmsPromptExtendsReadFirstPrompt` | main.py:127-136 | the append-first prompt is two messages longer than the read-first prompt for the same history and text. It agrees with it on every message before the last, and on the last |
| `Endpoints.SmsExchangeKeepsAlternating` | main.py:127-142 | one sequential SMS exchange keeps the SMS history alternating `{user}`, `{bot}` |
| `Endpoints.SmsPromptHasEmptyHalves` | main.py:59-61 | over such an alternating SMS history, a `{user}` entry yields (text, `""`) and a `{bot}` entry yields (`""`, reply): every stored SMS entry puts one empty message into the prompt |

## Left out

- Speech-to-text (main.py:40-46), the chat completion with its model name and sampling parameters (main.py:66-75), and text-to-speech with its voice and audio format (main.py:78-89) are function parameters. The completion is modelled as deterministic, and vendor failures (exceptions that become HTTP 500 responses) are not modelled.
- Endpoints.HandleCall: returns the raw synthesized bytes, not their base64 text (main.py:109-110); base64 encoding is a fixed re-encoding of an opaque blob.
- Reading the uploaded audio (main.py:95), the MongoDB client, dotenv and the FastAPI app and route wiring (main.py:13-29, main.py:92, main.py:121).
- A document's `_id` and `caller_number` fields: the caller number is the store map's key, and only list-valued fields are modelled. Storage failures are not modelled.
- Concurrent requests for the same caller: each request is one sequential step. In the running service the append-read-append of `handle_sms` can interleave with another request, and then `SmsExchangeKeepsAlternating` need not hold for the stored history.
- Endpoints.HandleSms: does not model a failing completion call. The source stores `{user: message}` (main.py:127-131) before it asks for the completion (main.py:133-136); if that call raises, the request ends with HTTP 500 and the lone `{user}` entry stays stored with no `{bot}` after it, so the SMS history is no longer made of whole exchanges. `handle_call` stores nothing on any vendor failure, because its push comes last (main.py:103-107).
- The Streamlit tester (`app.py`), and the contact, spam-routing, transcription-only, LLM-only, TTS-only, message-listing and call-forwarding endpoints it calls. `main.py` does not define them, so they are not part of this model.
