# uncover-llms: chat store and callback logic in Dafny

The desktop chat client keeps its conversations in a SQLite file and drives
them from a handful of Dash callbacks. This project models two parts of it and
proves properties of that model:

- **the chat store** (`sql_connects.py`). The class `Store.ChatDb` holds the
  three tables as sequences: `sessions`, `chat_history` (as `messages`) and
  `endpoints`. There is one method per store function, and every method
  states the new contents of every table.
- **the callback decision logic** (`main.py`), in module `Controller`:
  - the submit guard and turn index, and the rebuilding of the chat and
    history panels (`add_question`);
  - the answer prompt and the stored answer (`update_pending_responses`);
  - the session-rename pass (`summarize_sessions`);
  - the session dropdown (`create_new_session`);
  - endpoint validation and the full URL (`save_endpoint`).

Module `Text` models the few Python string operations these depend on:
`str.strip()` (with the exact `str.isspace()` set), `str.split(sep)`, the
substring test `t in s`, and `str(n)`.

Modelling choices:

- **Timestamps.** One insertion counter, `clock`, stands for the
  `CURRENT_TIMESTAMP` defaults and the `AUTOINCREMENT` ids. It increases with
  every row that is inserted. So `ORDER BY timestamp` is insertion order, and
  `ORDER BY created DESC` is reverse insertion order.
- **Invariant.** `ChatDb.Valid()` says that the session ids are unique (the
  primary key) and that each table's stamps increase strictly and lie before
  `clock`. Every writing method preserves it.
- **The model backend** (`get_ollama_response`) is a parameter, `gateway`. It
  is a function from (prompt, model, mode, api_url, access_token) to the
  string it returns, error text included. `Mode` is `Local` or `Api`.
- **Python's `None`** for a text or number input is represented by `""` or
  `0`. Both are falsy, as `None` is, so every guard decides the same way.
  `n_clicks_submit` is an `Option` because `add_question` compares it.
- **Dash outputs** are datatypes instead of component trees:
  - `ChatUpdate` is a Patch that appends one turn, or a whole new list;
  - `ChatEntry` is a pending turn, a saved question or a saved answer;
  - `HistoryEntry` is one history line;
  - `PendingOutcome` is the answered turn or `no_update`;
  - `DropdownOption` is one dropdown option;
  - `SaveOutcome` is what `save_endpoint` returns.

Behaviour kept exactly as the code has it, including where it is not what
a reader might first expect:

- **Context rows.** `get_conversation_context` selects `(sender, message)`
  but unpacks each row into `user_input, ai_response`, and its comment
  speaks of a question and a response (sql_connects.py:109-110). So every
  row renders as `"User: " + sender + "\nAI: " + message + "\n"`, whoever
  sent it (see `Store.FormatRow`).
- **Summariser lookup.** The summariser looks up a session's context by
  its NAME, not its id (main.py:588). A session that has been renamed no
  longer matches its messages (`Controller.RenamedSessionStaysRenamed`).
- **New name.** The new name is `summary.split(':')[1]`, stripped: the text
  between the first colon and the next one, not everything after the first
  colon (`Controller.NameBetweenColons`).
- **Rename condition.** A rename needs a non-blank context (`strip()`) and a
  summary that is non-empty and does not contain "Error".
- **Question text.** The pending-response callback reads the question from
  the rendered question element, which holds `"You: " + input`
  (main.py:458). So the answer prompt contains `"User: You: <input>"`
  (`Controller.SubmitThenAnswer`).
- **"Session N" ids can collide.** After "Session 1" of two sessions is
  deleted, "new" computes "Session 2" again. `INSERT OR IGNORE` then adds
  nothing and selects the existing session, which the dropdown then lists
  twice (`Controller.NextSessionIdCanCollide`, `Controller.DeleteThenNew`).

## Model

| member | source | states |
|---|---|---|
| Store.ChatDb.constructor | sql_connects.py:9-37 | `init_db` on a new file: three empty tables, invariant established |
| Store.Listing | sql_connects.py:43 | every session appears exactly once as (id, name), row `i` being the `i`-th newest created |
| Store.ListingNewestFirst | sql_connects.py:43 | in a valid table the listing runs strictly from the newest creation stamp to the oldest |
| Store.ChatDb.FetchAll | sql_connects.py:40-46 | the scan returns exactly the listing of the sessions table, newest first |
| Store.ChatDb.CreateSession | sql_connects.py:48-54 | INSERT OR IGNORE: an existing id leaves every table unchanged (a renamed name included); otherwise exactly one row (id, name = id) is appended; the id exists afterwards |
| Store.Purge | sql_connects.py:64 | a message survives the purge exactly when it was there and belongs to another session |
| Store.PurgeRows | sql_connects.py:64 | after the purge the deleted session has no rows and every other session keeps all its rows in order |
| Store.PurgeOrdered | sql_connects.py:64 | deleting messages keeps `chat_history` in timestamp order |
| Store.Drop | sql_connects.py:67 | a session row survives exactly when it was there and has another id |
| Store.DropValid | sql_connects.py:67 | deleting a session keeps the primary key and the creation order |
| Store.DropRemoves | sql_connects.py:67 | no row with the deleted id is left |
| Store.ChatDb.DeleteSession | sql_connects.py:57-74 | both DELETEs together: the session and all its messages are gone, every other session's rows are unchanged, endpoints untouched |
| Store.ChatDb.UpdateMessages | sql_connects.py:75-83 | exactly one message (session, sender, body) is appended at the end, whether or not the session exists; only that session's rows grow, by that row |
| Store.RowsAppend | sql_connects.py:79-80 | an appended message adds its row to its own session and to no other |
| Store.ChatDb.GetChatHistory | sql_connects.py:85-93 | the scan returns the (sender, message) rows of exactly that session, in insertion order |
| Store.Rows | sql_connects.py:89-91 | the `(sender, message)` rows of one session id, in table order, never more than the table holds; `RowsAt` and `RowsSound` below give what it keeps and what it drops |
| Store.RowsConcat | sql_connects.py:89 | the rows of a concatenated table are the rows of its parts, in order |
| Store.RowsAt | sql_connects.py:89 | every message of the session shows up in place, between the rows before and after it |
| Store.RowsSound | sql_connects.py:89 | every returned row comes from a message of that session |
| Store.RowsNone | sql_connects.py:89 | a session without messages has no rows |
| Store.FormatRow | sql_connects.py:109-111 | one row rendered as `"User: " + first column + "\nAI: " + second column + "\n"`; by `ContextNotBlank` it is never blank |
| Store.Context | sql_connects.py:108-112 | the rendered rows concatenated in order; `ContextEmpty` and `ContextBlank` give when it is empty or blank |
| Store.ChatDb.GetConversationContext | sql_connects.py:95-112 | the accumulated context equals the in-order concatenation of the rendered rows of that session |
| Store.ContextEmpty | sql_connects.py:108-112 | the context is `""` exactly when the session has no rows |
| Store.ContextBlank | sql_connects.py:108-111 | the context is blank for `strip()` exactly when the session has no rows |
| Store.ContextNotBlank | sql_connects.py:111 | a rendered row always contributes a non-space character |
| Store.Rename | sql_connects.py:118 | the `UPDATE … WHERE session_id` keeps the table's length; `RenameAt`, `RenameEach` and `RenameAbsent` below give which row changes and how |
| Store.RenameAt | sql_connects.py:118 | the row with that id gets the new name; every other row and column is unchanged |
| Store.RenameEach | sql_connects.py:118 | the same for every row at once |
| Store.RenameAbsent | sql_connects.py:118 | renaming a missing id changes nothing |
| Store.ChatDb.UpdateSessionName | sql_connects.py:115-120 | the sessions table becomes the renamed one (unchanged when the id is absent); other tables untouched |
| Store.ChatDb.UpdatePrivateEndpoint | sql_connects.py:122-130 | exactly one endpoint row is appended, older rows stay, and it is the newest row afterwards |
| Store.NewestFirst | sql_connects.py:137 | the endpoints listed newest first: row `i` is the `i`-th newest |
| Store.ChatDb.FetchPrivateEndpoint | sql_connects.py:132-140 | the scan returns the endpoints newest first; it is empty exactly when none was saved |
| Text.Strip | main.py:589 | `strip()` is empty exactly when the string is all whitespace, and a non-empty result has no whitespace at either end |
| Text.Contains | main.py:595 | Python's substring test `t in s`: `t` is a prefix of some suffix of `s` |
| Text.StripMiddle | main.py:598 | `strip()` is the part of the string between its leading and trailing whitespace |
| Text.Split | main.py:597 | `split(sep)` gives at least one field and no field contains `sep` |
| Text.Join | main.py:597 | `sep.join(parts)`, the partner of `Split`: see `JoinSplit` and `SplitJoin` |
| Text.JoinSplit | main.py:597 | joining the fields of `split(sep)` with `sep` gives the string back |
| Text.SplitJoin | main.py:597 | splitting a join of separator-free fields gives the fields back |
| Text.SplitHasSecondField | main.py:596-597 | `split(':')[1]` exists exactly when `':'` occurs in the string |
| Text.NatToString | main.py:622 | `str(n)` is a non-empty run of decimal digits without a leading zero |
| Text.NatToStringValue | main.py:622 | reading the digits of `str(n)` back gives `n` |
| Text.NatToStringInjective | main.py:622 | distinct numbers print differently |
| Text.IntToString | main.py:378 | `str(port)` is non-empty, holds only digits and `-`, and starts with `-` exactly when the number is negative |
| Text.IntToStringInjective | main.py:378 | distinct integers print differently |
| Controller.TurnIndex | main.py:449-450 | the turn index is the larger of the two click counters |
| Controller.IsNewTurn | main.py:445 | the submit guard: a non-empty input together with a positive click count or a submit count that is not `None` |
| Controller.EntryFor | main.py:503-526 | a `'user'` row becomes a saved question "You: " + message, any other row a saved answer holding the message |
| Controller.ChatEntries | main.py:502-526 | the rebuilt chat has one entry per stored row, in order: "You: " + message for a `'user'` row, the markdown message otherwise |
| Controller.HistoryEntries | main.py:502-515 | the history panel of a session's rows, never longer than the rows; `HistoryEntriesConcat` and `HistoryOnlyUserRows` give which rows it holds |
| Controller.HistoryEntriesConcat | main.py:502-515 | the rebuilt history splits like the rows: each `'user'` row contributes its message in place |
| Controller.HistoryOnlyUserRows | main.py:503 | rows not sent by `'user'` never reach the history panel |
| Controller.RebuildViews | main.py:499-528 | the loop builds exactly the chat and history lists of the session's stored rows and writes nothing |
| Controller.AddQuestion | main.py:443-530 | a new turn (non-empty input and a click or a submit) appends one pending turn at the larger counter, stores one `'user'` message and one history entry, and clears the input; otherwise nothing is stored and both panels are rebuilt |
| Controller.ModeOf | main.py:553-556 | the mode is `api` exactly when the switch is on |
| Controller.AnswerPrompt | main.py:558 | the prompt `context + "\nUser: " + question + "\nAI:"`; `AnswerPromptShape` gives where the context and the question sit |
| Controller.AnswerPromptShape | main.py:558 | the prompt starts with the session's whole context and holds the question after "\nUser: " |
| Controller.UpdatePendingResponses | main.py:551-564 | an empty question changes nothing; otherwise the gateway gets the context prompt in the switch's mode, exactly one `'Ai'` message with its answer is stored, and the outputs are `""` and "**AI:** " + answer |
| Controller.SummaryPrompt | main.py:592 | the fixed summarising instruction followed by the session's context |
| Controller.Usable | main.py:595 | a summary is accepted exactly when it is non-empty and does not contain "Error" |
| Controller.NameFromSummary | main.py:596-598 | after a colon summary the name holds no colon; a non-empty name has no whitespace at either end |
| Controller.NameBetweenColons | main.py:596-598 | the name is the stripped text between the first colon and the next one (or the end) |
| Controller.NewNameFor | main.py:588-598 | the rename decision for one listed name: `None` unless the context is not blank and the summary is usable; `NewNameForRule` states it in terms of the rows and the summary |
| Controller.NewNameForRule | main.py:588-598 | a session is renamed exactly when the rows filed under its name are non-empty and the summary is non-empty without "Error"; the name then comes from the summary |
| Controller.RenamedSessionStaysRenamed | main.py:588-589 | a session whose name is no message's session id is never renamed |
| Controller.Summarized | main.py:595-599 | one session after the pass keeps its id and creation stamp and takes the new name when there is one |
| Controller.SummarizeAll | main.py:585-600 | the whole pass applied row by row, keeping the table's length; `SummarizeAllAt` and `SummarizeAllKeys` give what each row becomes |
| Controller.SummarizeAllAt | main.py:585-600 | each row after the pass depends only on that row before it and the messages: other sessions are unaffected |
| Controller.SummarizeAllKeys | main.py:599 | the pass keeps every id and stamp, hence the primary key and the order |
| Controller.PassAt | main.py:585-600 | after the loop has handled the `i` newest sessions, those are summarised and the older rows untouched |
| Controller.PassSummarizes | main.py:585-600 | renaming by id one listed session at a time gives the whole pass |
| Controller.ListedStep | main.py:585-600 | the `i`-th listed row is the `i`-th newest session; handling it extends the table state and the report by that row alone |
| Controller.UpdatedSessions | main.py:600 | the `(id, new name)` report of the listed rows that get a new name, in listing order, never longer than the listing; `UpdatedSessionsSound` and `UpdatedSessionsComplete` give both directions |
| Controller.UpdatedSessionsSound | main.py:600 | every reported pair is a listed id with the new name its listed name was given |
| Controller.UpdatedSessionsComplete | main.py:600 | every listed session that gets a new name is reported |
| Controller.UpdatedSessionsNext | main.py:600 | one more listed row adds at most that row to the report |
| Controller.SummarizeOne | main.py:586-600 | one loop turn: context by name, then the summary rule, then a rename by id when usable; only `sessions` can change |
| Controller.SummarizeListed | main.py:582-600 | the loop over the listing leaves the table summarised and reports exactly the renamed sessions in listing order |
| Controller.SummarizeSessions | main.py:575-605 | nothing happens before the first interval; then every session is summarised, only names change, and the renamed (id, name) pairs are returned in listing order |
| Controller.NextSessionId | main.py:622 | `f"Session {len(rows) + 1}"` for a count of rows; `NextSessionIdInjective` and `NextSessionIdCanCollide` give when two ids agree |
| Controller.NextSessionIdInjective | main.py:622 | different session counts give different "Session N" ids |
| Controller.NextSessionIdCanCollide | main.py:621-623 | with "Session 2" as the only row the next id is "Session 2" again, already taken |
| Controller.SecondSessionId | main.py:622 | a single-example step of `DeleteThenNew`, not a general property: with one row listed the next id is "Session 2" |
| Controller.DropFirstOfTwo | sql_connects.py:67 | a single-example step of `DeleteThenNew`, not a general property: deleting the first of two sessions with different ids leaves exactly the second |
| Controller.OptionsOf | main.py:625 | one option per row, label = name and value = id, in order |
| Controller.CreateNewSession | main.py:618-638 | "new": INSERT OR IGNORE of "Session (count+1)", listing plus that row, which is selected, and the clock advances only when a row is added; "delete": session and messages deleted, listing shown, `""` selected; otherwise nothing is stored and the newest session, or a display-only "Session 1", is selected; neither of these two touches the clock |
| Controller.FieldsFilled | main.py:373 | the negation of `not url or not port or not protocol or not api_key`, with `""`/`0` for a missing value |
| Controller.FullUrl | main.py:378 | `f"{protocol}://{url}:{port}/model"`; `FullUrlFields` and `FullUrlInjective` give that the parts can be read back |
| Controller.FullUrlFields | main.py:378 | splitting the full URL at colons gives back the protocol, "//" + host, and port + "/model" |
| Controller.FullUrlInjective | main.py:378 | distinct colon-free protocol/host/port triples give distinct full URLs: equal URLs have equal protocol, host and port |
| Controller.SaveEndpoint | main.py:371-390 | a click with a missing field stores nothing; a click with all fields stores exactly one endpoint and shows it with its full URL; no click loads the newest saved endpoint and its full URL |
| Controller.SaveThenReload | main.py:371-390 | saving an endpoint and reloading the page shows exactly the saved values, whatever was saved before; the store gains exactly that endpoint row, the clock advances by one and sessions and messages are unchanged |
| Controller.SubmitThenAnswer | main.py:445-562 | a submitted question followed by its answer appends exactly two messages, the user's row and then the answer, at the next two clock values; the gateway sees the context that ends with the user's row; sessions and endpoints are unchanged |
| Controller.DeleteThenNew | main.py:618-638 | with sessions "Session 1" and "Session 2", deleting "Session 1" and then pressing "new" adds no session: only the second row remains, the clock is unchanged, "Session 2" is selected, and the dropdown lists "Session 2" twice; the messages of "Session 1" are purged and endpoints are unchanged |

## Left out

- The Dash layout is not modelled: modals, offcanvas, theme toggles, the
  beta-expiry check on the current date, the webview window and the server
  thread. These are user-interface plumbing and concurrency.
- `test_connection` and `update_models_installed` are not modelled. They
  are HTTP and Ollama input/output.
- `ollama_connects.py` is not part of this model. Every branch there calls
  `ollama`, `subprocess.run` or `requests.post`. `get_ollama_response` is the
  `gateway` parameter. Its "invalid mode" branch cannot be reached, because
  the callbacks pass only `'local'` or `'api'`.
- The SQLite connection, commit, exception and rollback mechanics are not
  modelled. Each store function is one statement that succeeds.
  `save_endpoint`'s "Error saving endpoint" branch is left out for the same
  reason.
- Real timestamps are not modelled. `CURRENT_TIMESTAMP` has one-second
  resolution, so ties leave the `ORDER BY` order open. The insertion
  counter gives the insertion order.
- `init_db` on an existing file is not modelled, only on a new one (empty
  tables). The `chat_history.session_name` column is never written, so it
  is not modelled either.
- Python's `None` is not modelled as a separate value. It is `""` or `0`.
  A port entered as a float is not modelled: ports are integers.
- Crash paths are stated as preconditions instead of modelled errors:
  - `n_clicks_submit > n_clicks` with `None` raises, so
    `Controller.AddQuestion` requires a submit count whenever there is a
    new turn;
  - `fetch_private_endpoint()[0]` on an empty table raises, so
    `Controller.SaveEndpoint` requires a saved endpoint when the button was
    never clicked.
- Controller.SummarizeSessions: returns the list of (id, name) pairs, not
  the debug-flag string `f"Updated sessions: {updated_sessions}"`, because
  Python's `repr` of tuples is not modelled.
- Controller.SaveEndpoint: when a field is missing, the callback returns
  one bare string (main.py:374) although it declares seven outputs
  (main.py:355-362). Dash rejects that return, so the callback fails and no
  output changes. `Incomplete(message)` stands for that failed callback,
  not for a message on screen. The store is unchanged either way. Dash's
  checking of callback outputs is not modelled.
- Controller.CreateNewSession: the triggering input is the `Trigger`
  value, not `ctx.triggered[0]['prop_id']`. The URL and the rename flag
  inputs are both `OtherTrigger`.
- The Dash `Patch` and components are not modelled themselves. Outputs are
  abstract entries that keep their text and their turn index.
