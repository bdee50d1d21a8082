# Language tutor: session histories and the lesson turn protocol

A Dafny model of the two pieces of the language-learning chatbot that carry
their own logic:

- **The session-history registry** (`util.py`). `InMemoryHistory` is a message
  list that is extended in place and cleared by reassignment; the module-level
  `store` dictionary maps a session id to its history, and `get_session_history`
  looks an id up, creating an empty history the first time. `History.dfy` models
  both as classes (`InMemoryHistory`, `SessionStore`) whose abstract value is the
  map from session id to messages (`SessionStore.Contents`).
- **The lesson page's state machine** (`main.py`). The page holds a transcript
  (`messages`), the lesson settings (`config`, absent before the first start) and
  a `session_id`. `Lesson.dfy` models the start button, one chat turn and the
  opening message as methods of `TutorSession`. The chat turn's loop over the
  reply's tool calls is specified by `ToolCalls.ProcessToolCalls` and the lemmas
  beside it (`ToolCalls.dfy`). Storing a mistake (`store_mistake`) is an append
  of one five-field record to the mistakes table (`Mistakes.dfy`).

The language model is an input: a first reply is its text plus, when the reply
has the attribute, its list of tool calls (a name and string-keyed arguments);
the follow-up reply is its text; the opening reply is its text. A fresh session
id is an input too. Each chat-chain call the page makes is returned as an
`Invocation` (input text, settings, session id), so that which calls happen, and
in which order, is part of each method's contract.

Behaviour of the code worth noting:

- A turn makes a follow-up call exactly when the first reply's text is empty,
  whether or not it had tool calls.
- Repeated `log_mistake` calls are all stored; there is no per-turn
  deduplication (`ToolCalls.NoDeduplication`).
- No tool-result message is added to the transcript: a completed turn adds
  exactly the user message and one assistant message.
- A `log_mistake` call missing one of its five argument keys raises a lookup
  error in the loop, which ends the turn: the user message and the records stored
  before that call remain, no assistant message is added and no follow-up is made.
- An insert that fails on an open connection is swallowed and the remaining calls
  are still processed. A database that cannot be opened makes `store_mistake` raise
  as written (see Findings); the model's turn uses the corrected store.
- A chat turn taken before any lesson has been started fails on the chain's first
  call, because the settings are still empty: only the user message is added.

## Model

| member | source | states |
|---|---|---|
| `History.InMemoryHistory.constructor` | util.py:16-17 | Built with no list (or an empty one) the history is empty; built with a list it holds that list. |
| `History.InMemoryHistory.AddMessages` | util.py:19-20 | The old messages stay as a prefix and the new ones follow in order; the length grows by exactly their number. |
| `History.InMemoryHistory.Clear` | util.py:22-23 | Afterwards the history is empty. |
| `History.SessionStore.constructor` | util.py:43 | The registry starts with no sessions. |
| `History.Touched` | util.py:45-48 | After a get-or-create of an id the registry has an entry for it holding its earlier messages, or none if it was new; the key set grows by at most that id; every other entry is unchanged. |
| `History.TouchedIdempotent` | util.py:45-48 | Looking up the same id twice leaves the registry as looking it up once. |
| `History.SessionStore.GetSessionHistory` | util.py:43-48 | An unknown id gets a fresh empty history stored under it and returned; a known id returns its existing history and leaves the store as it was; no other session's entry is altered or removed; histories stay distinct objects. |
| `History.SessionStore.AppendToSession` | util.py:45-48 | Looking a session up and adding messages to its history grows that session by exactly those messages and leaves every other session's messages unchanged. |
| `Mistakes.MistakeTable.constructor` | util.py:29-36 | The table is created only if it does not exist, so it starts with the rows stored by earlier runs. |
| `Mistakes.MistakeTable.StoreMistake` | util.py:100-129 | Without a fault, exactly one record is appended whose five fields are the arguments in order (native, target, error, corrected, type); with a fault nothing is appended and nothing is raised. |
| `Mistakes.MistakeTable.StoreMistakeAsWritten` | util.py:116-129 | As written: the rows change as above, but the call raises exactly when opening the database fails. |
| `Mistakes.ConnectFaultEscapes` | util.py:116-129 | A concrete run: with an unopenable database the as-written call raises and adds no row. |
| `ToolCalls.ProcessToolCalls` | main.py:70-83 | The tool-call pass stores no more records than there are calls, and every stored record is the field-for-field image of a `log_mistake` call with all five keys. |
| `ToolCalls.ProcessMatchesRequested` | main.py:72-83 | With all argument keys present and every insert succeeding, the pass completes and stores exactly one record per `log_mistake` call, in request order, duplicates included. |
| `ToolCalls.OtherToolsStoreNothing` | main.py:74 | Calls with any other name store nothing and never end the pass. |
| `ToolCalls.FaultsStoreNothing` | main.py:77-83 | When every insert fails the pass adds no rows, whatever the calls request. |
| `ToolCalls.ProcessMatchesKept` | main.py:72-83 | When every `log_mistake` call has its five keys, the pass completes whatever the storage faults and stores exactly one record per such call whose insert succeeds, field for field and in request order; a failed insert stores nothing and the later calls are still processed. |
| `ToolCalls.WellFormedNeverAborts` | main.py:72-83 | Storage failures never end the pass; only a missing argument key does. |
| `ToolCalls.RequestedRepeats` | main.py:72-83 | Repeating the same requests asks for every record again: repeated mistakes are all stored, with no deduplication. |
| `ToolCalls.NoDeduplication` | main.py:72-83 | A further well-formed `log_mistake` call whose insert succeeds appends its record even if an identical one was stored before. |
| `ToolCalls.MissingKeyAborts` | main.py:75-82 | A `log_mistake` call lacking an argument key ends the pass, keeping the records stored before it. |
| `ToolCalls.AbortIsFinal` | main.py:72-83 | Once the pass has ended on a missing key, later calls store nothing. |
| `Lesson.TutorSession.constructor` | main.py:6-14 | A first visit starts with an empty transcript, no settings and a given session id. |
| `Lesson.TutorSession.StartLesson` | main.py:38-50 | Accepted if and only if both language names are non-empty; an accepted start sets the settings to exactly the four chosen values, empties the transcript and installs the fresh session id; a refused one changes nothing. |
| `Lesson.TutorSession.Turn` | main.py:58-100 | The user message comes first; tool calls are processed only when the reply has them, one record per `log_mistake` call in order; the follow-up call happens if and only if the first reply's text is empty; a completed turn adds exactly one assistant message (the first reply's text if non-empty, else the follow-up's), so the transcript grows by exactly two; before any lesson start the turn fails after the user message, storing nothing; settings and session id are unchanged. |
| `Lesson.OpeningPrompt` | main.py:106 | The opening request is "Begin ", the chosen scenario's name, then " scenario", and the name can be read back from it. |
| `Lesson.TutorSession.Bootstrap` | main.py:103-113 | With an empty transcript and a started lesson, one chain call asks to begin the chosen scenario and exactly one assistant message holding its reply is added; otherwise nothing changes and no call is made. |

## Left out

- The page rendering, widgets, spinners, reruns and the recent-mistakes panel (main.py:18-36, 52-55, 116-149): user interface.
- Building the conversation chain and the history wiring of the chat library (util.py:132-165): foreign library code. How that library appends to a session's history is not visible, so histories change only through their own methods here, and the chain calls in `Lesson.TutorSession.Turn` do not touch `History.SessionStore`.
- The system prompt text and the tool schema declaration (util.py:51-98): text interpolated and bound inside the library and the hosted model.
- The SQL (table creation at start-up, the INSERT, the recent-mistakes SELECT), the auto-increment id and the timestamp: I/O; the table is an abstract sequence of five-field records.
- Lesson.TutorSession.Turn: is built on the corrected `StoreMistake`, so a database that cannot be opened does not end the turn in the model; in the code as written the error escapes the tool-call loop and the turn ends with only the user message (see Findings).
- Failures of the model calls themselves (network, quota): a reply is always an input here.
- UUID generation: the fresh session id is a parameter; that it differs from earlier ids is not modelled.
- The logging output of the source.
- Aliasing of a list passed to the `InMemoryHistory` constructor: sequences are values here, so later changes to the caller's list are not reflected.
- Running the page script top to bottom on each interaction: each handler is a separate method, called in any order.
- main.py and util.py contain no feedback report and no error-type distribution, so neither is modelled.

## Findings

| source | as written | input that shows it | evidently intended | confidence | as-written member | corrected member |
|---|---|---|---|---|---|---|
| util.py:116-129 | `conn` is bound inside the `try`, and `finally` closes it unconditionally | `sqlite3.connect` raising (database file not openable): the `except` swallows the error, then `conn.close()` raises because `conn` was never bound | a storage failure is reported and swallowed, and the turn goes on | high, not executed | `Mistakes.MistakeTable.StoreMistakeAsWritten` | `Mistakes.MistakeTable.StoreMistake` |
