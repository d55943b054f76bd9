/** The chat store: the SQLite database with the tables `sessions`,
    `chat_history` and `endpoints`, held in memory. Every write is one SQL
    statement (INSERT, INSERT OR IGNORE, DELETE ... WHERE, UPDATE ... WHERE);
    every read is one SELECT, modelled as a scan of the table.

    Timestamps: one insertion counter, `clock`, stands for the
    CURRENT_TIMESTAMP defaults (and the AUTOINCREMENT row ids). It grows with
    every insertion, so rows are kept in timestamp order and
    `ORDER BY timestamp` is insertion order. */
module Store {
  import opened Text

  /** A row of `sessions`; `id` is the primary key. */
  datatype Session = Session(id: string, name: string, created: nat)

  /** A row of `chat_history`. */
  datatype Message = Message(sessionId: string, sender: string, body: string, stamp: nat)

  /** A row of `endpoints`. */
  datatype Endpoint = Endpoint(url: string, port: int, protocol: string, apiKey: string, stamp: nat)

  /** A two-column result row: `(session_id, session_name)` from
      `fetch_all`, `(sender, message)` from `get_chat_history`. */
  type Row = (string, string)

  predicate HasSession(ss: seq<Session>, id: string) {
    exists i :: 0 <= i < |ss| && ss[i].id == id
  }

  ghost predicate UniqueIds(ss: seq<Session>) {
    forall i, j :: 0 <= i < j < |ss| ==> ss[i].id != ss[j].id
  }

  /** Creation stamps strictly increase along the table and lie before `clock`. */
  ghost predicate SessionsOrdered(ss: seq<Session>, clock: nat) {
    && (forall i, j :: 0 <= i < j < |ss| ==> ss[i].created < ss[j].created)
    && (forall i :: 0 <= i < |ss| ==> ss[i].created < clock)
  }

  ghost predicate MessagesOrdered(ms: seq<Message>, clock: nat) {
    && (forall i, j :: 0 <= i < j < |ms| ==> ms[i].stamp < ms[j].stamp)
    && (forall i :: 0 <= i < |ms| ==> ms[i].stamp < clock)
  }

  ghost predicate EndpointsOrdered(es: seq<Endpoint>, clock: nat) {
    && (forall i, j :: 0 <= i < j < |es| ==> es[i].stamp < es[j].stamp)
    && (forall i :: 0 <= i < |es| ==> es[i].stamp < clock)
  }

  // ---------------------------------------------------------------------
  // fetch_all: SELECT session_id, session_name FROM sessions ORDER BY created DESC

  /** The sessions as `(id, name)`, each exactly once, newest created first. */
  function Listing(ss: seq<Session>): (rows: seq<Row>)
    ensures |rows| == |ss|
    ensures forall i :: 0 <= i < |ss| ==> rows[i] == (ss[|ss| - 1 - i].id, ss[|ss| - 1 - i].name)
  {
    if ss == [] then []
    else [(ss[|ss| - 1].id, ss[|ss| - 1].name)] + Listing(ss[..|ss| - 1])
  }

  /** In a well-formed table the listing runs strictly from the newest
      creation stamp to the oldest. */
  lemma ListingNewestFirst(ss: seq<Session>, clock: nat, i: nat, j: nat)
    requires SessionsOrdered(ss, clock)
    requires i < j < |ss|
    ensures Listing(ss)[i].0 == ss[|ss| - 1 - i].id && Listing(ss)[j].0 == ss[|ss| - 1 - j].id
    ensures ss[|ss| - 1 - i].created > ss[|ss| - 1 - j].created
  {
  }

  // ---------------------------------------------------------------------
  // get_chat_history: SELECT sender, message FROM chat_history WHERE session_id=? ORDER BY timestamp

  /** The `(sender, message)` pairs of the messages of session `s`, in insertion order. */
  function Rows(ms: seq<Message>, s: string): (rows: seq<Row>)
    ensures |rows| <= |ms|
  {
    if ms == [] then []
    else
      var m := ms[|ms| - 1];
      Rows(ms[..|ms| - 1], s) + (if m.sessionId == s then [(m.sender, m.body)] else [])
  }

  /** The rows of a concatenation are the rows of its parts, in order:
      the query is independent of how the table was split. */
  lemma {:induction false} RowsConcat(a: seq<Message>, b: seq<Message>, s: string)
    ensures Rows(a + b, s) == Rows(a, s) + Rows(b, s)
  {
    if b == [] {
      assert a + b == a;
    } else {
      var b' := b[..|b| - 1];
      assert (a + b)[..|a + b| - 1] == a + b';
      RowsConcat(a, b', s);
    }
  }

  /** Every message of `s` shows up in place: the rows of the messages
      before it, then its own row, then the rows of the messages after it. */
  lemma RowsAt(ms: seq<Message>, s: string, i: nat)
    requires i < |ms| && ms[i].sessionId == s
    ensures Rows(ms, s) == Rows(ms[..i], s) + [(ms[i].sender, ms[i].body)] + Rows(ms[i + 1..], s)
  {
    assert ms == ms[..i] + ([ms[i]] + ms[i + 1..]);
    RowsConcat(ms[..i], [ms[i]] + ms[i + 1..], s);
    RowsConcat([ms[i]], ms[i + 1..], s);
    assert Rows([ms[i]], s) == [(ms[i].sender, ms[i].body)] by {
      assert [ms[i]][..0] == [];
    }
  }

  /** Only messages of `s` contribute rows. */
  lemma {:induction false} RowsSound(ms: seq<Message>, s: string, k: nat)
    requires k < |Rows(ms, s)|
    ensures exists i :: 0 <= i < |ms| && ms[i].sessionId == s && (ms[i].sender, ms[i].body) == Rows(ms, s)[k]
  {
    var p := ms[..|ms| - 1];
    if k < |Rows(p, s)| {
      RowsSound(p, s, k);
      var i :| 0 <= i < |p| && p[i].sessionId == s && (p[i].sender, p[i].body) == Rows(p, s)[k];
      assert ms[i] == p[i];
    } else {
      assert ms[|ms| - 1].sessionId == s;
    }
  }

  /** A session without messages has no rows. */
  lemma {:induction false} RowsNone(ms: seq<Message>, s: string)
    requires forall i :: 0 <= i < |ms| ==> ms[i].sessionId != s
    ensures Rows(ms, s) == []
  {
    if ms != [] {
      RowsNone(ms[..|ms| - 1], s);
    }
  }

  /** Appending one message adds its row to its own session and to no other. */
  lemma RowsAppend(ms: seq<Message>, m: Message, s: string)
    ensures Rows(ms + [m], s) == Rows(ms, s) + (if m.sessionId == s then [(m.sender, m.body)] else [])
  {
    assert (ms + [m])[..|ms|] == ms;
  }

  // ---------------------------------------------------------------------
  // get_conversation_context

  /** One result row as the context loop renders it. The loop unpacks
      `(sender, message)` into variables named for a question and an answer,
      so the sender goes on the "User:" line and the message on the "AI:" line. */
  function FormatRow(r: Row): string {
    "User: " + r.0 + "\nAI: " + r.1 + "\n"
  }

  /** The rendered rows, concatenated in order. */
  function Context(rows: seq<Row>): string {
    if rows == [] then ""
    else Context(rows[..|rows| - 1]) + FormatRow(rows[|rows| - 1])
  }

  /** The context is empty exactly when there are no rows. */
  lemma ContextEmpty(rows: seq<Row>)
    ensures Context(rows) == "" <==> rows == []
  {
  }

  /** The context is blank for `str.strip()` exactly when there are no
      rows: every rendered row starts with the non-blank "User: ". */
  lemma ContextBlank(rows: seq<Row>)
    ensures Strip(Context(rows)) != "" <==> rows != []
  {
    if rows != [] {
      ContextNotBlank(rows);
    }
  }

  /** Some rendered row contributes the `U` of its "User: ". */
  lemma ContextNotBlank(rows: seq<Row>)
    requires rows != []
    ensures !AllSpace(Context(rows))
  {
    var p := Context(rows[..|rows| - 1]);
    var r := rows[|rows| - 1];
    var line := FormatRow(r);
    assert line[0] == 'U';
    assert Context(rows) == p + line;
    assert (p + line)[|p|] == 'U';
    assert !IsSpace('U');
  }

  // ---------------------------------------------------------------------
  // delete_session

  /** `DELETE FROM chat_history WHERE session_id = s`. */
  function Purge(ms: seq<Message>, s: string): (r: seq<Message>)
    ensures forall m :: m in r <==> m in ms && m.sessionId != s
  {
    if ms == [] then []
    else
      var m := ms[|ms| - 1];
      Purge(ms[..|ms| - 1], s) + (if m.sessionId != s then [m] else [])
  }

  /** After the purge `s` has no rows and every other session keeps all of its rows in order. */
  lemma {:induction false} PurgeRows(ms: seq<Message>, s: string, t: string)
    ensures Rows(Purge(ms, s), t) == if t == s then [] else Rows(ms, t)
  {
    if ms != [] {
      var p := ms[..|ms| - 1];
      var m := ms[|ms| - 1];
      PurgeRows(p, s, t);
      RowsConcat(Purge(p, s), if m.sessionId != s then [m] else [], t);
      assert [m][..0] == [];
    }
  }

  /** A message stamped after every row (and before `clock`) may be appended. */
  lemma MessagesSnoc(q: seq<Message>, m: Message, clock: nat)
    requires MessagesOrdered(q, clock) && m.stamp < clock
    requires forall x :: x in q ==> x.stamp < m.stamp
    ensures MessagesOrdered(q + [m], clock)
  {
    var r := q + [m];
    forall i, j | 0 <= i < j < |r| ensures r[i].stamp < r[j].stamp {
      if j == |q| {
        assert r[i] == q[i] && q[i] in q;
      } else {
        assert r[i] == q[i] && r[j] == q[j];
      }
    }
  }

  /** Deleting rows keeps the table in timestamp order. */
  lemma {:induction false} PurgeOrdered(ms: seq<Message>, s: string, clock: nat)
    requires MessagesOrdered(ms, clock)
    ensures MessagesOrdered(Purge(ms, s), clock)
  {
    if ms != [] {
      var p := ms[..|ms| - 1];
      var m := ms[|ms| - 1];
      assert MessagesOrdered(p, clock);
      PurgeOrdered(p, s, clock);
      var q := Purge(p, s);
      if m.sessionId != s {
        forall x | x in q ensures x.stamp < m.stamp {
          var i :| 0 <= i < |p| && p[i] == x;
          assert ms[i] == x;
        }
        MessagesSnoc(q, m, clock);
      } else {
        assert Purge(ms, s) == q + [] == q;
      }
    }
  }

  /** `DELETE FROM sessions WHERE session_id = id`. */
  function Drop(ss: seq<Session>, id: string): (r: seq<Session>)
    ensures forall x :: x in r <==> x in ss && x.id != id
  {
    if ss == [] then []
    else
      var x := ss[|ss| - 1];
      Drop(ss[..|ss| - 1], id) + (if x.id != id then [x] else [])
  }

  /** A session created after every row, with a fresh id, may be appended. */
  lemma SessionsSnoc(q: seq<Session>, x: Session, clock: nat)
    requires SessionsOrdered(q, clock) && UniqueIds(q) && x.created < clock
    requires forall y :: y in q ==> y.created < x.created && y.id != x.id
    ensures SessionsOrdered(q + [x], clock) && UniqueIds(q + [x])
  {
    var r := q + [x];
    forall i, j | 0 <= i < j < |r| ensures r[i].created < r[j].created && r[i].id != r[j].id {
      if j == |q| {
        assert r[i] == q[i] && q[i] in q;
      } else {
        assert r[i] == q[i] && r[j] == q[j];
      }
    }
  }

  /** Deleting a session keeps the primary key and the order, and leaves no row with that id. */
  lemma {:induction false} DropValid(ss: seq<Session>, id: string, clock: nat)
    requires SessionsOrdered(ss, clock) && UniqueIds(ss)
    ensures SessionsOrdered(Drop(ss, id), clock) && UniqueIds(Drop(ss, id))
  {
    if ss != [] {
      var p := ss[..|ss| - 1];
      var x := ss[|ss| - 1];
      assert SessionsOrdered(p, clock) && UniqueIds(p);
      DropValid(p, id, clock);
      var q := Drop(p, id);
      if x.id != id {
        forall y | y in q ensures y.created < x.created && y.id != x.id {
          var i :| 0 <= i < |p| && p[i] == y;
          assert ss[i] == y;
        }
        SessionsSnoc(q, x, clock);
      } else {
        assert Drop(ss, id) == q + [] == q;
      }
    }
  }

  /** No row with the deleted id is left. */
  lemma DropRemoves(ss: seq<Session>, id: string)
    ensures !HasSession(Drop(ss, id), id)
  {
    var r := Drop(ss, id);
    assert forall i :: 0 <= i < |r| ==> r[i] in r;
  }

  // ---------------------------------------------------------------------
  // update_session_name: UPDATE sessions SET session_name=? WHERE session_id=?

  /** The sessions table after `UPDATE sessions SET session_name = name WHERE session_id = id`. */
  function Rename(ss: seq<Session>, id: string, name: string): (r: seq<Session>)
    ensures |r| == |ss|
  {
    if ss == [] then []
    else
      var x := ss[|ss| - 1];
      Rename(ss[..|ss| - 1], id, name) + [if x.id == id then x.(name := name) else x]
  }

  /** The row with that id gets the new name; every other row, and every
      other column, stays as it was. */
  lemma {:induction false} RenameAt(ss: seq<Session>, id: string, name: string, k: nat)
    requires k < |ss|
    ensures Rename(ss, id, name)[k] == if ss[k].id == id then ss[k].(name := name) else ss[k]
  {
    if k < |ss| - 1 {
      RenameAt(ss[..|ss| - 1], id, name, k);
    }
  }

  lemma RenameEach(ss: seq<Session>, id: string, name: string)
    ensures forall k :: 0 <= k < |ss| ==>
              Rename(ss, id, name)[k] == if ss[k].id == id then ss[k].(name := name) else ss[k]
  {
    forall k | 0 <= k < |ss|
      ensures Rename(ss, id, name)[k] == if ss[k].id == id then ss[k].(name := name) else ss[k]
    {
      RenameAt(ss, id, name, k);
    }
  }

  /** Renaming a missing id changes nothing. */
  lemma RenameAbsent(ss: seq<Session>, id: string, name: string)
    requires !HasSession(ss, id)
    ensures Rename(ss, id, name) == ss
  {
    RenameEach(ss, id, name);
    var r := Rename(ss, id, name);
    assert forall k :: 0 <= k < |ss| ==> r[k] == ss[k];
  }

  // ---------------------------------------------------------------------
  // fetch_private_endpoint: SELECT * FROM endpoints ORDER BY timestamp DESC

  /** The saved endpoints, newest first. */
  function NewestFirst(es: seq<Endpoint>): (r: seq<Endpoint>)
    ensures |r| == |es|
    ensures forall i :: 0 <= i < |es| ==> r[i] == es[|es| - 1 - i]
  {
    if es == [] then [] else [es[|es| - 1]] + NewestFirst(es[..|es| - 1])
  }

  // ---------------------------------------------------------------------

  /** The database file. */
  class ChatDb {
    var sessions: seq<Session>
    var messages: seq<Message>
    var endpoints: seq<Endpoint>
    /** The insertion counter standing for CURRENT_TIMESTAMP. */
    var clock: nat

    /** The primary key of `sessions` holds, and every table is kept in
        timestamp order with stamps before `clock`. */
    ghost predicate Valid()
      reads this
    {
      && SessionsOrdered(sessions, clock) && UniqueIds(sessions)
      && MessagesOrdered(messages, clock)
      && EndpointsOrdered(endpoints, clock)
    }

    /** `init_db` on a new database file: three empty tables. */
    constructor ()
      ensures Valid()
      ensures sessions == [] && messages == [] && endpoints == []
    {
      sessions, messages, endpoints, clock := [], [], [], 0;
    }

    /** `fetch_all`. */
    method FetchAll() returns (rows: seq<Row>)
      ensures rows == Listing(sessions)
    {
      rows := [];
      var n := |sessions|;
      var i := 0;
      while i < n
        invariant i <= n
        invariant rows == Listing(sessions)[..i]
      {
        rows := rows + [(sessions[n - 1 - i].id, sessions[n - 1 - i].name)];
        i := i + 1;
      }
    }

    /** `create_session`: INSERT OR IGNORE with the name set to the id. */
    method CreateSession(id: string)
      requires Valid()
      modifies this
      ensures Valid()
      ensures HasSession(old(sessions), id) ==> sessions == old(sessions) && clock == old(clock)
      ensures !HasSession(old(sessions), id) ==>
                sessions == old(sessions) + [Session(id, id, old(clock))] && clock == old(clock) + 1
      ensures messages == old(messages) && endpoints == old(endpoints)
      ensures HasSession(sessions, id)
    {
      if !HasSession(sessions, id) {
        sessions := sessions + [Session(id, id, clock)];
        assert sessions[|sessions| - 1].id == id;
        clock := clock + 1;
      }
    }

    /** `delete_session`: both DELETE statements, committed together. */
    method DeleteSession(id: string)
      requires Valid()
      modifies this
      ensures Valid()
      ensures sessions == Drop(old(sessions), id) && messages == Purge(old(messages), id)
      ensures endpoints == old(endpoints) && clock == old(clock)
      ensures !HasSession(sessions, id) && Rows(messages, id) == []
      ensures forall t :: t != id ==> Rows(messages, t) == Rows(old(messages), t)
    {
      DropValid(sessions, id, clock);
      DropRemoves(sessions, id);
      PurgeOrdered(messages, id, clock);
      forall t ensures Rows(Purge(messages, id), t) == if t == id then [] else Rows(messages, t) {
        PurgeRows(messages, id, t);
      }
      messages := Purge(messages, id);
      sessions := Drop(sessions, id);
    }

    /** `update_messages(session_id, user_input, user_type)`: one INSERT
        into `chat_history`; the session need not exist. */
    method UpdateMessages(sessionId: string, body: string, sender: string)
      requires Valid()
      modifies this
      ensures Valid()
      ensures messages == old(messages) + [Message(sessionId, sender, body, old(clock))]
      ensures clock == old(clock) + 1
      ensures sessions == old(sessions) && endpoints == old(endpoints)
      ensures Rows(messages, sessionId) == Rows(old(messages), sessionId) + [(sender, body)]
      ensures forall t :: t != sessionId ==> Rows(messages, t) == Rows(old(messages), t)
    {
      forall t ensures Rows(messages + [Message(sessionId, sender, body, clock)], t)
                       == Rows(messages, t) + (if sessionId == t then [(sender, body)] else []) {
        RowsAppend(messages, Message(sessionId, sender, body, clock), t);
      }
      messages := messages + [Message(sessionId, sender, body, clock)];
      clock := clock + 1;
    }

    /** `get_chat_history`. */
    method GetChatHistory(sessionId: string) returns (rows: seq<Row>)
      ensures rows == Rows(messages, sessionId)
    {
      rows := [];
      var i := 0;
      while i < |messages|
        invariant i <= |messages|
        invariant rows == Rows(messages[..i], sessionId)
      {
        var m := messages[i];
        assert messages[..i + 1][..i] == messages[..i];
        if m.sessionId == sessionId {
          rows := rows + [(m.sender, m.body)];
        }
        i := i + 1;
      }
      assert messages[..i] == messages;
    }

    /** `get_conversation_context`: the same SELECT, then `context +=` per row. */
    method GetConversationContext(sessionId: string) returns (context: string)
      ensures context == Context(Rows(messages, sessionId))
    {
      var rows := GetChatHistory(sessionId);
      context := "";
      var i := 0;
      while i < |rows|
        invariant i <= |rows|
        invariant context == Context(rows[..i])
      {
        assert rows[..i + 1][..i] == rows[..i];
        context := context + FormatRow(rows[i]);
        i := i + 1;
      }
      assert rows[..i] == rows;
    }

    /** `update_session_name(new_name, session_id)`. */
    method UpdateSessionName(newName: string, id: string)
      requires Valid()
      modifies this
      ensures Valid()
      ensures sessions == Rename(old(sessions), id, newName)
      ensures !HasSession(old(sessions), id) ==> sessions == old(sessions)
      ensures messages == old(messages) && endpoints == old(endpoints) && clock == old(clock)
    {
      if !HasSession(sessions, id) {
        RenameAbsent(sessions, id, newName);
      }
      RenameEach(sessions, id, newName);
      sessions := Rename(sessions, id, newName);
    }

    /** `update_private_endpoint`: one INSERT into `endpoints`; older rows stay. */
    method UpdatePrivateEndpoint(url: string, port: int, protocol: string, apiKey: string)
      requires Valid()
      modifies this
      ensures Valid()
      ensures endpoints == old(endpoints) + [Endpoint(url, port, protocol, apiKey, old(clock))]
      ensures clock == old(clock) + 1
      ensures sessions == old(sessions) && messages == old(messages)
      ensures NewestFirst(endpoints)[0] == Endpoint(url, port, protocol, apiKey, old(clock))
    {
      endpoints := endpoints + [Endpoint(url, port, protocol, apiKey, clock)];
      clock := clock + 1;
    }

    /** `fetch_private_endpoint`. */
    method FetchPrivateEndpoint() returns (rows: seq<Endpoint>)
      ensures rows == NewestFirst(endpoints)
      ensures rows == [] <==> endpoints == []
    {
      rows := [];
      var n := |endpoints|;
      var i := 0;
      while i < n
        invariant i <= n
        invariant rows == NewestFirst(endpoints)[..i]
      {
        rows := rows + [endpoints[n - 1 - i]];
        i := i + 1;
      }
    }
  }
}
