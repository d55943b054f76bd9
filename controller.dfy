/** The decision logic of the chat client's callbacks: submitting a
    question, answering a pending turn, renaming sessions from summaries,
    the session dropdown and saving an endpoint. Each callback reads and
    writes the store and keeps no state of its own. The model backend is the
    `gateway` parameter: a function from (prompt, model, mode, api_url,
    access_token) to the display string it returns, error text included. */
module Controller {
  import opened Text
  import opened Store

  datatype Option<T> = None | Some(value: T)

  /** The backend the gateway is asked to use. */
  datatype Mode = Local | Api

  type Gateway = (string, string, Mode, string, string) -> string

  /** What the chat container shows: a new turn (the "You: ..." question
      and an empty response placeholder, both tagged with the turn index),
      or a question or answer rebuilt from the store. */
  datatype ChatEntry =
    | PendingTurn(index: int, question: string)
    | SavedQuestion(text: string)
    | SavedAnswer(markdown: string)

  /** The chat-container output: a patch appending one turn, or a whole new list. */
  datatype ChatUpdate = AppendTurn(turn: ChatEntry) | ReplaceAll(entries: seq<ChatEntry>)

  /** One entry of the history panel. */
  datatype HistoryEntry = HistoryItem(text: string)

  /** The two outputs of the pending-response callback. */
  datatype PendingOutcome = NoUpdate | Resolved(response: string, loading: string)

  /** One dropdown option: `{'label': name, 'value': id}`. */
  datatype DropdownOption = DropdownOption(caption: string, value: string)

  /** Which input fired the session-dropdown callback. */
  datatype Trigger = NewSessionClicked | DeleteSessionClicked | OtherTrigger

  /** The outputs of the endpoint callback. */
  datatype SaveOutcome =
    | Incomplete(message: string)
    | Saved(message: string, url: string, port: int, protocol: string, apiKey: string, fullUrl: string, token: string)
    | Loaded(url: string, port: int, protocol: string, apiKey: string, fullUrl: string, token: string)

  const UserSender := "user"
  const AiSender := "Ai"

  // ---------------------------------------------------------------------
  // add_question

  /** `n_clicks > 0 and user_input or n_clicks_submit is not None and user_input`.
      A string is truthy when it is not empty, so blank input counts. */
  predicate IsNewTurn(nClicks: int, nSubmit: Option<int>, userInput: string) {
    (nClicks > 0 && userInput != "") || (nSubmit.Some? && userInput != "")
  }

  /** The index of a new turn: the larger of the two counters. */
  function TurnIndex(nClicks: int, nSubmit: int): (index: int)
    ensures index >= nClicks && index >= nSubmit
    ensures index == nClicks || index == nSubmit
  {
    if nSubmit > nClicks then nSubmit else nClicks
  }

  /** How one stored row is redisplayed. */
  function EntryFor(row: Row): ChatEntry {
    if row.0 == UserSender then SavedQuestion("You: " + row.1) else SavedAnswer(row.1)
  }

  /** The chat container rebuilt from a session's rows: one entry per row, in order. */
  function ChatEntries(rows: seq<Row>): (entries: seq<ChatEntry>)
    ensures |entries| == |rows|
    ensures forall k :: 0 <= k < |rows| ==> entries[k] == EntryFor(rows[k])
  {
    if rows == [] then []
    else ChatEntries(rows[..|rows| - 1]) + [EntryFor(rows[|rows| - 1])]
  }

  /** The history panel rebuilt from a session's rows: the messages of the
      rows whose sender is exactly `'user'`, in order. */
  function HistoryEntries(rows: seq<Row>): (entries: seq<HistoryEntry>)
    ensures |entries| <= |rows|
  {
    if rows == [] then []
    else
      var r := rows[|rows| - 1];
      HistoryEntries(rows[..|rows| - 1]) + (if r.0 == UserSender then [HistoryItem(r.1)] else [])
  }

  /** Every user row appears in the history panel in place, and nothing
      else does: the panel splits like the rows around each entry. */
  lemma {:induction false} HistoryEntriesConcat(a: seq<Row>, b: seq<Row>)
    ensures HistoryEntries(a + b) == HistoryEntries(a) + HistoryEntries(b)
  {
    if b == [] {
      assert a + b == a;
    } else {
      var b' := b[..|b| - 1];
      assert (a + b)[..|a + b| - 1] == a + b';
      HistoryEntriesConcat(a, b');
    }
  }

  /** A rebuilt history panel never shows an AI answer. */
  lemma {:induction false} HistoryOnlyUserRows(rows: seq<Row>)
    requires forall k :: 0 <= k < |rows| ==> rows[k].0 != UserSender
    ensures HistoryEntries(rows) == []
  {
    if rows != [] {
      HistoryOnlyUserRows(rows[..|rows| - 1]);
    }
  }

  /** The else-branch of `add_question`: rebuild both panels from the store. */
  method RebuildViews(db: ChatDb, sessionId: string) returns (chat: seq<ChatEntry>, history: seq<HistoryEntry>)
    ensures chat == ChatEntries(Rows(db.messages, sessionId))
    ensures history == HistoryEntries(Rows(db.messages, sessionId))
  {
    var rows := db.GetChatHistory(sessionId);
    chat, history := [], [];
    var i := 0;
    while i < |rows|
      invariant i <= |rows|
      invariant chat == ChatEntries(rows[..i])
      invariant history == HistoryEntries(rows[..i])
    {
      assert rows[..i + 1][..i] == rows[..i];
      var (sender, message) := rows[i];
      if sender == UserSender {
        chat := chat + [SavedQuestion("You: " + message)];
        history := history + [HistoryItem(message)];
      } else {
        chat := chat + [SavedAnswer(message)];
      }
      i := i + 1;
    }
    assert rows[..i] == rows;
  }

  /** `add_question`. A missing `history` state is the empty list. */
  method AddQuestion(db: ChatDb, nClicks: int, nSubmit: Option<int>, sessionId: string,
                     userInput: string, history: seq<HistoryEntry>)
    returns (chat: ChatUpdate, newHistory: seq<HistoryEntry>, inputValue: string)
    requires db.Valid()
    requires IsNewTurn(nClicks, nSubmit, userInput) ==> nSubmit.Some?
    modifies db
    ensures db.Valid()
    ensures inputValue == ""
    ensures db.sessions == old(db.sessions) && db.endpoints == old(db.endpoints)
    ensures IsNewTurn(nClicks, nSubmit, userInput) ==>
              && chat == AppendTurn(PendingTurn(TurnIndex(nClicks, nSubmit.value), "You: " + userInput))
              && newHistory == history + [HistoryItem(userInput)]
              && db.messages == old(db.messages) + [Message(sessionId, UserSender, userInput, old(db.clock))]
              && db.clock == old(db.clock) + 1
    ensures !IsNewTurn(nClicks, nSubmit, userInput) ==>
              && db.messages == old(db.messages) && db.clock == old(db.clock)
              && chat == ReplaceAll(ChatEntries(Rows(db.messages, sessionId)))
              && newHistory == HistoryEntries(Rows(db.messages, sessionId))
  {
    if IsNewTurn(nClicks, nSubmit, userInput) {
      var pending := PendingTurn(TurnIndex(nClicks, nSubmit.value), "You: " + userInput);
      db.UpdateMessages(sessionId, userInput, UserSender);
      chat := AppendTurn(pending);
      newHistory := history + [HistoryItem(userInput)];
      inputValue := "";
    } else {
      var entries;
      entries, newHistory := RebuildViews(db, sessionId);
      chat := ReplaceAll(entries);
      inputValue := "";
    }
  }

  // ---------------------------------------------------------------------
  // update_pending_responses

  /** `'api'` when the private-endpoint switch is on, else `'local'`. */
  function ModeOf(switchOn: bool): (mode: Mode)
    ensures mode == Api <==> switchOn
  {
    if switchOn then Api else Local
  }

  /** `f"{context}\nUser: {question}\nAI:"`. */
  function AnswerPrompt(context: string, question: string): string {
    context + "\nUser: " + question + "\nAI:"
  }

  /** The prompt starts with the whole stored context of the session and ends with the question. */
  lemma AnswerPromptShape(context: string, question: string)
    ensures context <= AnswerPrompt(context, question)
    ensures |AnswerPrompt(context, question)| == |context| + |question| + 11
    ensures AnswerPrompt(context, question)[|context| + 7..|context| + 7 + |question|] == question
  {
  }

  /** `update_pending_responses`. A missing question is the empty string. */
  method UpdatePendingResponses(db: ChatDb, question: string, model: string, sessionId: string,
                                switchOn: bool, apiUrl: string, accessToken: string, gateway: Gateway)
    returns (out: PendingOutcome)
    requires db.Valid()
    modifies db
    ensures db.Valid()
    ensures db.sessions == old(db.sessions) && db.endpoints == old(db.endpoints)
    ensures question == "" ==> out == NoUpdate && db.messages == old(db.messages) && db.clock == old(db.clock)
    ensures question != "" ==>
              var answer := gateway(AnswerPrompt(Context(Rows(old(db.messages), sessionId)), question),
                                    model, ModeOf(switchOn), apiUrl, accessToken);
              && db.messages == old(db.messages) + [Message(sessionId, AiSender, answer, old(db.clock))]
              && db.clock == old(db.clock) + 1
              && out == Resolved("", "**AI:** " + answer)
  {
    if question != "" {
      var context := db.GetConversationContext(sessionId);
      var answer := gateway(AnswerPrompt(context, question), model, ModeOf(switchOn), apiUrl, accessToken);
      db.UpdateMessages(sessionId, answer, AiSender);
      out := Resolved("", "**AI:** " + answer);
    } else {
      out := NoUpdate;
    }
  }

  // ---------------------------------------------------------------------
  // summarize_sessions

  const SummaryInstruction := "Summarize the following conversation in 10 words or less:\n"

  function SummaryPrompt(context: string): string {
    SummaryInstruction + context
  }

  /** A summary the callback accepts: non-empty, without the text "Error". */
  predicate Usable(summary: string) {
    summary != "" && !Contains(summary, "Error")
  }

  /** `summary.split(':')[1]` when a colon occurs, else the whole summary; then stripped. */
  function NameFromSummary(summary: string): (name: string)
    ensures ':' in summary ==> ':' !in name
    ensures name != "" ==> !IsSpace(name[0]) && !IsSpace(name[|name| - 1])
  {
    SplitHasSecondField(summary, ':');
    if ':' in summary then Strip(Split(summary, ':')[1]) else Strip(summary)
  }

  /** The name taken from a colon summary is the stripped text between the
      first colon and the next one (or the end). */
  lemma NameBetweenColons(head: string, field: string, tail: string)
    requires ':' !in head && ':' !in field
    requires tail == [] || tail[0] == ':'
    ensures NameFromSummary(head + ":" + field + tail) == Strip(field)
  {
    var s := head + ":" + field + tail;
    assert s == head + [':'] + (field + tail);
    SplitAfterField(head, ':', field + tail);
    if tail == [] {
      assert field + tail == field;
      SplitNoSeparator(field, ':');
    } else {
      assert field + tail == field + [':'] + tail[1..];
      SplitAfterField(field, ':', tail[1..]);
    }
    assert ':' in s by { assert s[|head|] == ':'; }
  }

  /** The name a session gets from one summarisation pass, if any. The
      context is looked up by the session's NAME. */
  function NewNameFor(ms: seq<Message>, name: string, model: string, mode: Mode,
                      apiUrl: string, accessToken: string, gateway: Gateway): Option<string>
  {
    var context := Context(Rows(ms, name));
    if Strip(context) != "" then
      var summary := gateway(SummaryPrompt(context), model, mode, apiUrl, accessToken);
      if Usable(summary) then Some(NameFromSummary(summary)) else None
    else None
  }

  /** A session is renamed exactly when the rows filed under its name are
      non-empty and the summary is usable; the name is then taken from the summary. */
  lemma NewNameForRule(ms: seq<Message>, name: string, model: string, mode: Mode,
                       apiUrl: string, accessToken: string, gateway: Gateway)
    ensures var summary := gateway(SummaryPrompt(Context(Rows(ms, name))), model, mode, apiUrl, accessToken);
            NewNameFor(ms, name, model, mode, apiUrl, accessToken, gateway)
              == if Rows(ms, name) != [] && Usable(summary) then Some(NameFromSummary(summary)) else None
  {
    ContextBlank(Rows(ms, name));
  }

  /** Once a session's name is not the id of any message, no summary renames it again. */
  lemma RenamedSessionStaysRenamed(ms: seq<Message>, name: string, model: string, mode: Mode,
                                   apiUrl: string, accessToken: string, gateway: Gateway)
    requires forall i :: 0 <= i < |ms| ==> ms[i].sessionId != name
    ensures NewNameFor(ms, name, model, mode, apiUrl, accessToken, gateway) == None
  {
    RowsNone(ms, name);
    ContextBlank(Rows(ms, name));
  }

  /** What one summarisation pass decides for each session name. */
  type Namer = string -> Option<string>

  /** The decision of `summarize_sessions` for every name, given the
      messages, the model settings and the gateway. */
  function NamerOf(ms: seq<Message>, model: string, mode: Mode, apiUrl: string, accessToken: string,
                   gateway: Gateway): (f: Namer)
    ensures forall name :: f(name) == NewNameFor(ms, name, model, mode, apiUrl, accessToken, gateway)
  {
    name => NewNameFor(ms, name, model, mode, apiUrl, accessToken, gateway)
  }

  /** A session row after one summarisation pass. */
  function Summarized(x: Session, f: Namer): (r: Session)
    ensures r.id == x.id && r.created == x.created
    ensures r.name == if f(x.name).Some? then f(x.name).value else x.name
  {
    match f(x.name)
    case Some(n) => x.(name := n)
    case None => x
  }

  /** The sessions table after one summarisation pass. */
  function SummarizeAll(ss: seq<Session>, f: Namer): (r: seq<Session>)
    ensures |r| == |ss|
  {
    if ss == [] then [] else [Summarized(ss[0], f)] + SummarizeAll(ss[1..], f)
  }

  /** The pass renames each session on its own: row `k` afterwards depends
      only on row `k` before and on the messages. */
  lemma {:induction false} SummarizeAllAt(ss: seq<Session>, f: Namer, k: nat)
    requires k < |ss|
    ensures SummarizeAll(ss, f)[k] == Summarized(ss[k], f)
  {
    if k > 0 {
      SummarizeAllAt(ss[1..], f, k - 1);
    }
  }

  /** The pass keeps every id and creation stamp, so it keeps the primary
      key and the order of the table. */
  lemma SummarizeAllKeys(ss: seq<Session>, f: Namer, clock: nat)
    requires UniqueIds(ss) && SessionsOrdered(ss, clock)
    ensures forall k :: 0 <= k < |ss| ==>
              SummarizeAll(ss, f)[k].id == ss[k].id && SummarizeAll(ss, f)[k].created == ss[k].created
    ensures UniqueIds(SummarizeAll(ss, f)) && SessionsOrdered(SummarizeAll(ss, f), clock)
  {
    forall k | 0 <= k < |ss|
      ensures SummarizeAll(ss, f)[k].id == ss[k].id && SummarizeAll(ss, f)[k].created == ss[k].created
    {
      SummarizeAllAt(ss, f, k);
    }
  }

  /** The table after the loop has handled its first `i` listed rows
      (the `i` newest sessions), each renamed by id as it comes. */
  ghost function Pass(ss: seq<Session>, i: nat, f: Namer): seq<Session>
    requires i <= |ss|
  {
    if i == 0 then ss
    else
      var cur := Pass(ss, i - 1, f);
      var x := ss[|ss| - i];
      match f(x.name)
      case Some(v) => Rename(cur, x.id, v)
      case None => cur
  }

  /** One more step renames the next listed session by id, if its name maps to a new one. */
  lemma PassNext(ss: seq<Session>, i: nat, f: Namer)
    requires i < |ss|
    ensures var x := ss[|ss| - 1 - i];
            Pass(ss, i + 1, f) == if f(x.name).Some? then Rename(Pass(ss, i, f), x.id, f(x.name).value) else Pass(ss, i, f)
  {
  }

  /** One turn of the loop over the listing: the `i`-th listed row is the
      `i`-th newest session, and handling it extends both the table state
      and the report by that row alone. */
  lemma ListedStep(ss: seq<Session>, rows: seq<Row>, i: nat, f: Namer)
    requires rows == Listing(ss) && i < |ss|
    ensures rows[i] == (ss[|ss| - 1 - i].id, ss[|ss| - 1 - i].name)
    ensures UpdatedSessions(rows[..i + 1], f) == UpdatedSessions(rows[..i], f) + Reported(rows[i].0, f(rows[i].1))
    ensures Pass(ss, i + 1, f)
            == if f(rows[i].1).Some? then Rename(Pass(ss, i, f), rows[i].0, f(rows[i].1).value) else Pass(ss, i, f)
  {
    UpdatedSessionsNext(rows, i, f);
    PassNext(ss, i, f);
  }

  /** After `i` steps the `i` newest rows are summarised and the older
      ones untouched: with unique ids a rename by id reaches one row only. */
  lemma {:induction false} PassAt(ss: seq<Session>, i: nat, f: Namer, k: nat)
    requires UniqueIds(ss) && i <= |ss| && k < |ss|
    ensures |Pass(ss, i, f)| == |ss|
    ensures Pass(ss, i, f)[k] == if k >= |ss| - i then Summarized(ss[k], f) else ss[k]
  {
    if i > 0 {
      PassAt(ss, i - 1, f, k);
      var cur := Pass(ss, i - 1, f);
      var j := |ss| - i;
      assert cur[k].id == ss[k].id;
      if f(ss[j].name).Some? {
        var r := Rename(cur, ss[j].id, f(ss[j].name).value);
        RenameAt(cur, ss[j].id, f(ss[j].name).value, k);
        if k != j {
          assert ss[k].id != ss[j].id;
          assert r[k] == cur[k];
        } else {
          assert cur[k] == ss[k];
        }
      }
    }
  }

  /** Renaming one session at a time, newest first, is the whole pass. */
  lemma PassSummarizes(ss: seq<Session>, f: Namer)
    requires UniqueIds(ss)
    ensures Pass(ss, |ss|, f) == SummarizeAll(ss, f)
  {
    var p := Pass(ss, |ss|, f);
    var q := SummarizeAll(ss, f);
    if ss != [] {
      PassAt(ss, |ss|, f, 0);
    }
    forall k | 0 <= k < |ss| ensures p[k] == q[k] {
      PassAt(ss, |ss|, f, k);
      SummarizeAllAt(ss, f, k);
    }
  }

  /** The `(session_id, new_name)` pairs the pass reports, in listing order. */
  function UpdatedSessions(rows: seq<Row>, f: Namer): (r: seq<Row>)
    ensures |r| <= |rows|
  {
    if rows == [] then []
    else
      var x := rows[|rows| - 1];
      UpdatedSessions(rows[..|rows| - 1], f) + Reported(x.0, f(x.1))
  }

  function Reported(id: string, newName: Option<string>): seq<Row> {
    if newName.Some? then [(id, newName.value)] else []
  }

  /** Every reported pair is a listed id with the new name its listed name mapped to. */
  lemma {:induction false} UpdatedSessionsSound(rows: seq<Row>, f: Namer, p: Row)
    requires p in UpdatedSessions(rows, f)
    ensures exists k :: 0 <= k < |rows| && rows[k].0 == p.0 && f(rows[k].1) == Some(p.1)
  {
    var x := rows[|rows| - 1];
    if p in UpdatedSessions(rows[..|rows| - 1], f) {
      UpdatedSessionsSound(rows[..|rows| - 1], f, p);
      var k :| 0 <= k < |rows| - 1 && rows[..|rows| - 1][k].0 == p.0 && f(rows[..|rows| - 1][k].1) == Some(p.1);
      assert rows[k] == rows[..|rows| - 1][k];
    } else {
      assert p in Reported(x.0, f(x.1));
      assert rows[|rows| - 1].0 == p.0 && f(rows[|rows| - 1].1) == Some(p.1);
    }
  }

  /** Every listed row the namer renames is reported. */
  lemma {:induction false} UpdatedSessionsComplete(rows: seq<Row>, f: Namer, k: nat)
    requires k < |rows| && f(rows[k].1).Some?
    ensures (rows[k].0, f(rows[k].1).value) in UpdatedSessions(rows, f)
  {
    if k < |rows| - 1 {
      UpdatedSessionsComplete(rows[..|rows| - 1], f, k);
    }
  }

  /** Listing one more row reports at most that row in addition. */
  lemma UpdatedSessionsNext(rows: seq<Row>, i: nat, f: Namer)
    requires i < |rows|
    ensures UpdatedSessions(rows[..i + 1], f) == UpdatedSessions(rows[..i], f) + Reported(rows[i].0, f(rows[i].1))
  {
    assert rows[..i + 1][..i] == rows[..i];
  }

  /** The body of the summarisation loop for one listed session: look up
      the context by the session's name, ask for a summary, and rename the
      session (by id) when the summary is usable. */
  method SummarizeOne(db: ChatDb, sessionId: string, sessionName: string, model: string, mode: Mode,
                      apiUrl: string, accessToken: string, gateway: Gateway)
    returns (newName: Option<string>)
    requires db.Valid()
    modifies db
    ensures db.Valid()
    ensures db.messages == old(db.messages) && db.endpoints == old(db.endpoints) && db.clock == old(db.clock)
    ensures newName == NewNameFor(old(db.messages), sessionName, model, mode, apiUrl, accessToken, gateway)
    ensures newName.None? ==> db.sessions == old(db.sessions)
    ensures newName.Some? ==> db.sessions == Rename(old(db.sessions), sessionId, newName.value)
  {
    newName := None;
    var context := db.GetConversationContext(sessionName);
    if Strip(context) != "" {
      var summary := gateway(SummaryPrompt(context), model, mode, apiUrl, accessToken);
      if Usable(summary) {
        var name := NameFromSummary(summary);
        db.UpdateSessionName(name, sessionId);
        newName := Some(name);
      }
    }
  }

  /** The loop of `summarize_sessions` over the listed rows: each listed
      session is summarised in turn and renamed by id. */
  method SummarizeListed(db: ChatDb, sessions: seq<Row>, model: string, mode: Mode,
                         apiUrl: string, accessToken: string, gateway: Gateway)
    returns (done: seq<Row>)
    requires db.Valid() && sessions == Listing(db.sessions)
    modifies db
    ensures db.Valid()
    ensures db.messages == old(db.messages) && db.endpoints == old(db.endpoints) && db.clock == old(db.clock)
    ensures var f := NamerOf(old(db.messages), model, mode, apiUrl, accessToken, gateway);
            db.sessions == SummarizeAll(old(db.sessions), f) && done == UpdatedSessions(sessions, f)
  {
    ghost var ss := db.sessions;
    ghost var ms := db.messages;
    ghost var f := NamerOf(ms, model, mode, apiUrl, accessToken, gateway);
    var n := |sessions|;
    done := [];
    var i := 0;
    while i < n
      invariant i <= n && n == |ss|
      invariant db.Valid() && UniqueIds(ss)
      invariant db.messages == ms && db.endpoints == old(db.endpoints) && db.clock == old(db.clock)
      invariant db.sessions == Pass(ss, i, f)
      invariant done == UpdatedSessions(sessions[..i], f)
    {
      var (sessionId, sessionName) := sessions[i];
      ListedStep(ss, sessions, i, f);
      var newName := SummarizeOne(db, sessionId, sessionName, model, mode, apiUrl, accessToken, gateway);
      assert newName == f(sessionName);
      if newName.Some? {
        done := done + [(sessionId, newName.value)];
      }
      i := i + 1;
    }
    assert sessions[..i] == sessions;
    PassSummarizes(ss, f);
  }

  /** `summarize_sessions`. `None` is `dash.no_update`; otherwise the list
      of renamed sessions the debug flag reports. */
  method SummarizeSessions(db: ChatDb, nIntervals: int, model: string, switchOn: bool,
                           apiUrl: string, accessToken: string, gateway: Gateway)
    returns (updated: Option<seq<Row>>)
    requires db.Valid()
    modifies db
    ensures db.Valid()
    ensures db.messages == old(db.messages) && db.endpoints == old(db.endpoints) && db.clock == old(db.clock)
    ensures nIntervals <= 0 ==> updated == None && db.sessions == old(db.sessions)
    ensures nIntervals > 0 ==>
              var f := NamerOf(old(db.messages), model, ModeOf(switchOn), apiUrl, accessToken, gateway);
              && db.sessions == SummarizeAll(old(db.sessions), f)
              && updated == Some(UpdatedSessions(Listing(old(db.sessions)), f))
  {
    if nIntervals <= 0 {
      return None;
    }
    var sessions := db.FetchAll();
    var done := SummarizeListed(db, sessions, model, ModeOf(switchOn), apiUrl, accessToken, gateway);
    updated := Some(done);
  }

  // ---------------------------------------------------------------------
  // create_new_session

  /** `f"Session {len(rows) + 1}"`. */
  function NextSessionId(count: nat): string {
    "Session " + NatToString(count + 1)
  }

  /** Different session counts give different ids. */
  lemma NextSessionIdInjective(m: nat, n: nat)
    requires NextSessionId(m) == NextSessionId(n)
    ensures m == n
  {
    assert NatToString(m + 1) == NextSessionId(m)[8..];
    NatToStringInjective(m + 1, n + 1);
  }

  /** Deleting the first of two sessions with different ids leaves the second. */
  lemma DropFirstOfTwo(ss: seq<Session>, id: string)
    requires |ss| == 2 && ss[0].id == id && ss[1].id != id
    ensures Drop(ss, id) == [ss[1]]
  {
    var first := ss[..1];
    assert first[..0] == [] && first[0].id == id;
    assert Drop(first, id) == [];
    assert ss[..|ss| - 1] == first;
  }

  /** With one session listed, the next id is "Session 2". */
  lemma SecondSessionId()
    ensures NextSessionId(1) == "Session 2"
  {
    assert NatToString(2) == "2";
  }

  /** After "Session 1" of two sessions is deleted, "new" computes the id of
      the remaining "Session 2", so INSERT OR IGNORE adds nothing. */
  lemma NextSessionIdCanCollide(x: Session)
    requires x.id == "Session 2"
    ensures HasSession([x], NextSessionId(|[x]|))
  {
    assert NatToString(2) == "2";
    assert [x][0].id == NextSessionId(1);
  }

  /** `[{'label': r[1], 'value': r[0]} for r in rows]`. */
  function OptionsOf(rows: seq<Row>): (options: seq<DropdownOption>)
    ensures |options| == |rows|
    ensures forall k :: 0 <= k < |rows| ==> options[k] == DropdownOption(rows[k].1, rows[k].0)
  {
    if rows == [] then [] else OptionsOf(rows[..|rows| - 1]) + [DropdownOption(rows[|rows| - 1].1, rows[|rows| - 1].0)]
  }

  /** `create_new_session`: the dropdown's options and selected value. */
  method CreateNewSession(db: ChatDb, trigger: Trigger, currentSession: string)
    returns (options: seq<DropdownOption>, value: string)
    requires db.Valid()
    modifies db
    ensures db.Valid()
    ensures db.endpoints == old(db.endpoints)
    ensures trigger == NewSessionClicked ==>
              var sid := NextSessionId(|old(db.sessions)|);
              && value == sid
              && options == OptionsOf(Listing(old(db.sessions)) + [(sid, sid)])
              && db.messages == old(db.messages)
              && (HasSession(old(db.sessions), sid) ==> db.sessions == old(db.sessions) && db.clock == old(db.clock))
              && (!HasSession(old(db.sessions), sid) ==>
                    db.sessions == old(db.sessions) + [Session(sid, sid, old(db.clock))] && db.clock == old(db.clock) + 1)
    ensures trigger == DeleteSessionClicked ==>
              && db.sessions == Drop(old(db.sessions), currentSession)
              && db.messages == Purge(old(db.messages), currentSession)
              && db.clock == old(db.clock)
              && options == OptionsOf(Listing(db.sessions))
              && value == ""
    ensures trigger == OtherTrigger ==>
              && db.sessions == old(db.sessions) && db.messages == old(db.messages)
              && db.clock == old(db.clock)
              && (old(db.sessions) == [] ==> options == [DropdownOption("Session 1", "Session 1")] && value == "Session 1")
              && (old(db.sessions) != [] ==>
                    options == OptionsOf(Listing(old(db.sessions))) && value == old(db.sessions)[|old(db.sessions)| - 1].id)
  {
    match trigger
    case NewSessionClicked =>
      var rows := db.FetchAll();
      var sid := NextSessionId(|rows|);
      db.CreateSession(sid);
      rows := rows + [(sid, sid)];
      options := OptionsOf(rows);
      value := sid;
    case DeleteSessionClicked =>
      db.DeleteSession(currentSession);
      var rows := db.FetchAll();
      options := OptionsOf(rows);
      value := "";
    case OtherTrigger =>
      var rows := db.FetchAll();
      if |rows| < 1 {
        var sid := "Session 1";
        rows := rows + [(sid, sid)];
      }
      options := OptionsOf(rows);
      value := rows[0].0;
  }

  // ---------------------------------------------------------------------
  // save_endpoint

  const FillAllFields := "Please fill in all fields before saving."
  const EndpointSaved := "Endpoint saved successfully!"

  /** `not url or not port or not protocol or not api_key` is false. */
  predicate FieldsFilled(url: string, port: int, protocol: string, apiKey: string) {
    url != "" && port != 0 && protocol != "" && apiKey != ""
  }

  /** `f"{protocol}://{url}:{port}/model"`. */
  function FullUrl(protocol: string, url: string, port: int): string {
    protocol + "://" + url + ":" + IntToString(port) + "/model"
  }

  /** With no colon in protocol or host, the full URL's colon-separated
      fields are the protocol, `//` and the host, and the port with `/model`;
      so the saved parts can be read back from it. */
  lemma {:induction false} FullUrlFields(protocol: string, url: string, port: int)
    requires ':' !in protocol && ':' !in url
    ensures Split(FullUrl(protocol, url, port), ':') == [protocol, "//" + url, IntToString(port) + "/model"]
  {
    var host := "//" + url;
    var tail := IntToString(port) + "/model";
    assert ':' !in host;
    PortFieldColonFree(port);
    JoinThree(protocol, host, tail, ':');
    assert FullUrl(protocol, url, port) == protocol + [':'] + host + [':'] + tail;
    SplitJoin([protocol, host, tail], ':');
  }

  /** The printed port followed by `/model` holds no colon. */
  lemma PortFieldColonFree(port: int)
    ensures ':' !in IntToString(port) + "/model"
  {
    var p := IntToString(port) + "/model";
    forall k | 0 <= k < |p| ensures p[k] != ':' {
      if k < |IntToString(port)| {
        assert p[k] == IntToString(port)[k];
      }
    }
  }

  /** Distinct colon-free endpoints give distinct full URLs. */
  lemma FullUrlInjective(p1: string, u1: string, n1: int, p2: string, u2: string, n2: int)
    requires ':' !in p1 && ':' !in u1 && ':' !in p2 && ':' !in u2
    requires FullUrl(p1, u1, n1) == FullUrl(p2, u2, n2)
    ensures p1 == p2 && u1 == u2 && n1 == n2
  {
    FullUrlFields(p1, u1, n1);
    FullUrlFields(p2, u2, n2);
    var a := IntToString(n1) + "/model";
    var b := IntToString(n2) + "/model";
    assert a == b;
    assert ("//" + u1)[2..] == u1 && ("//" + u2)[2..] == u2;
    assert a[..|a| - 6] == IntToString(n1) && b[..|b| - 6] == IntToString(n2);
    IntToStringInjective(n1, n2);
  }

  /** `save_endpoint`. A missing field is ""/0, falsy like Python's None.
      When the button was never clicked the newest saved row is loaded;
      the source indexes row 0 without a check, so a saved endpoint must exist. */
  method SaveEndpoint(db: ChatDb, nClicks: int, url: string, port: int, protocol: string, apiKey: string)
    returns (out: SaveOutcome)
    requires db.Valid()
    requires nClicks == 0 ==> db.endpoints != []
    modifies db
    ensures db.Valid()
    ensures db.sessions == old(db.sessions) && db.messages == old(db.messages)
    ensures nClicks != 0 && !FieldsFilled(url, port, protocol, apiKey) ==>
              out == Incomplete(FillAllFields) && db.endpoints == old(db.endpoints) && db.clock == old(db.clock)
    ensures nClicks != 0 && FieldsFilled(url, port, protocol, apiKey) ==>
              && db.endpoints == old(db.endpoints) + [Endpoint(url, port, protocol, apiKey, old(db.clock))]
              && db.clock == old(db.clock) + 1
              && out == Saved(EndpointSaved, url, port, protocol, apiKey, FullUrl(protocol, url, port), apiKey)
    ensures nClicks == 0 ==>
              var e := old(db.endpoints)[|old(db.endpoints)| - 1];
              && db.endpoints == old(db.endpoints) && db.clock == old(db.clock)
              && out == Loaded(e.url, e.port, e.protocol, e.apiKey, FullUrl(e.protocol, e.url, e.port), e.apiKey)
  {
    if nClicks != 0 {
      if !FieldsFilled(url, port, protocol, apiKey) {
        return Incomplete(FillAllFields);
      }
      db.UpdatePrivateEndpoint(url, port, protocol, apiKey);
      out := Saved(EndpointSaved, url, port, protocol, apiKey, FullUrl(protocol, url, port), apiKey);
    } else {
      var rows := db.FetchPrivateEndpoint();
      var e := rows[0];
      out := Loaded(e.url, e.port, e.protocol, e.apiKey, FullUrl(e.protocol, e.url, e.port), e.apiKey);
    }
  }

  // ---------------------------------------------------------------------
  // Event sequences

  /** Saving an endpoint and loading the page again shows exactly the
      saved values, whatever was saved before. */
  method SaveThenReload(db: ChatDb, url: string, port: int, protocol: string, apiKey: string)
    returns (loaded: SaveOutcome)
    requires db.Valid()
    requires FieldsFilled(url, port, protocol, apiKey)
    modifies db
    ensures db.Valid()
    ensures loaded == Loaded(url, port, protocol, apiKey, FullUrl(protocol, url, port), apiKey)
    ensures db.endpoints == old(db.endpoints) + [Endpoint(url, port, protocol, apiKey, old(db.clock))]
    ensures db.sessions == old(db.sessions) && db.messages == old(db.messages) && db.clock == old(db.clock) + 1
  {
    var saved := SaveEndpoint(db, 1, url, port, protocol, apiKey);
    loaded := SaveEndpoint(db, 0, "", 0, "", "");
  }

  /** One chat turn: the submit stores the user's message and shows a
      pending turn whose question is "You: " + input; answering it prompts
      the gateway with the context, which now ends with the user's row, and
      stores the answer right after it. */
  method SubmitThenAnswer(db: ChatDb, nClicks: int, nSubmit: int, sessionId: string, userInput: string,
                          model: string, switchOn: bool, apiUrl: string, accessToken: string, gateway: Gateway)
    returns (out: PendingOutcome)
    requires db.Valid()
    requires userInput != ""
    modifies db
    ensures db.Valid()
    ensures var rows := Rows(old(db.messages), sessionId) + [(UserSender, userInput)];
            var answer := gateway(AnswerPrompt(Context(rows), "You: " + userInput), model, ModeOf(switchOn),
                                  apiUrl, accessToken);
            && out == Resolved("", "**AI:** " + answer)
            && Rows(db.messages, sessionId) == rows + [(AiSender, answer)]
            && db.messages == old(db.messages) + [Message(sessionId, UserSender, userInput, old(db.clock)),
                                                  Message(sessionId, AiSender, answer, old(db.clock) + 1)]
    ensures db.sessions == old(db.sessions) && db.endpoints == old(db.endpoints)
    ensures db.clock == old(db.clock) + 2
  {
    var chat, history, input := AddQuestion(db, nClicks, Some(nSubmit), sessionId, userInput, []);
    var question := chat.turn.question;
    out := UpdatePendingResponses(db, question, model, sessionId, switchOn, apiUrl, accessToken, gateway);
  }

  /** Two sessions, "Session 1" deleted, then "new": the id computed from
      the one remaining row is "Session 2" again, so no session is added and
      the dropdown lists "Session 2" twice, the second time as the new one. */
  method DeleteThenNew(db: ChatDb, currentSession: string)
    returns (options: seq<DropdownOption>, value: string)
    requires db.Valid()
    requires |db.sessions| == 2 && db.sessions[0].id == "Session 1" && db.sessions[1].id == "Session 2"
    requires currentSession == "Session 1"
    modifies db
    ensures db.Valid()
    ensures db.sessions == [old(db.sessions)[1]] && db.clock == old(db.clock)
    ensures db.messages == Purge(old(db.messages), currentSession) && db.endpoints == old(db.endpoints)
    ensures value == old(db.sessions)[1].id
    ensures |options| == 2 && options[0].value == value && options[1].value == value
    ensures options[0].caption == old(db.sessions)[1].name && options[1].caption == value
  {
    var second := db.sessions[1];
    DropFirstOfTwo(db.sessions, currentSession);
    var dropped, shown := CreateNewSession(db, DeleteSessionClicked, currentSession);
    SecondSessionId();
    assert db.sessions[0].id == NextSessionId(1);
    options, value := CreateNewSession(db, NewSessionClicked, "");
    var listed := Listing([second]) + [(second.id, second.id)];
    assert listed[0] == (second.id, second.name) && listed[1] == (second.id, second.id);
  }
}
