/**
  Saving and loading chat sessions: replace-all saves written in batches of rows, each batch one
  statement over a flat parameter list.

  Ids come from counters here instead of a random generator.  `accepts` stands for everything else
  the database may refuse a row for.
 */
module ChatStore {
  import opened Wrappers
  import Collections

  const MESSAGE_BATCH_SIZE := 100
  const PARAMS_PER_ROW := 9
  const SUMMARY_MAX := 4000
  const TITLE_MAX := 200
  /** The largest distance from the epoch a date can have, in milliseconds. */
  const DATE_MAX := 8_640_000_000_000_000

  // ---------------------------------------------------------------- messages

  /** A tool call: its summary when that is a string, and everything else as one text. */
  datatype ToolCall = ToolCall(rest: string, summary: Option<string>)

  datatype Attachment = Attachment(id: Option<string>, name: Option<string>, sha256: Option<string>, kind: string, rest: string)

  datatype Message = Message(
    id: int,
    role: string,
    kind: string,
    content: Option<string>,
    tool: Option<ToolCall>,
    attachments: Option<seq<Attachment>>,
    createdAt: real)

  predicate ValidAttachment(a: Attachment)
  {
    a.id.Some? && a.name.Some? && a.sha256.Some? && a.kind in {"image", "pdf", "spreadsheet", "audio", "other"}
  }

  predicate ValidMessage(m: Message)
  {
    && m.role in {"user", "assistant"}
    && m.kind in {"text", "tool", "error"}
    && (m.attachments.Some? ==> forall i :: 0 <= i < |m.attachments.value| ==> ValidAttachment(m.attachments.value[i]))
  }

  predicate ValidMessages(messages: seq<Message>)
  {
    messages != [] && forall i :: 0 <= i < |messages| ==> ValidMessage(messages[i])
  }

  const MARKER := "\n…(تم اقتصاص الملخص عند الحفظ)"

  function Truncate(t: ToolCall): ToolCall
  {
    if t.summary.None? || |t.summary.value| <= SUMMARY_MAX then t
    else t.(summary := Some(t.summary.value[..SUMMARY_MAX] + MARKER))
  }

  /** A cut summary is cut again, at the same place, with the same result. */
  lemma TruncateTwice(t: ToolCall)
    ensures Truncate(Truncate(t)) == Truncate(t)
    ensures t.summary.Some? ==> Truncate(t).summary.Some? && |Truncate(t).summary.value| <= SUMMARY_MAX + |MARKER|
  {
    if t.summary.Some? && |t.summary.value| > SUMMARY_MAX {
      assert (t.summary.value[..SUMMARY_MAX] + MARKER)[..SUMMARY_MAX] == t.summary.value[..SUMMARY_MAX];
    }
  }

  /** Whole milliseconds, toward zero. */
  function Clip(t: real): int
  {
    if t >= 0.0 then t.Floor else -((-t).Floor)
  }

  predicate InRange(t: real)
  {
    -(DATE_MAX as real) <= t <= DATE_MAX as real
  }

  // ---------------------------------------------------------------- rows

  /** A row of `ai_chat_messages` but for its id; `attachments` is absent when the stored value is no list. */
  datatype Row = Row(
    company: int,
    session: int,
    role: string,
    kind: string,
    content: Option<string>,
    tool: Option<ToolCall>,
    attachments: Option<seq<Attachment>>,
    sortOrder: int,
    createdAt: int)

  /** One parameter of a statement. */
  datatype Cell =
    | Null
    | Key(key: int)
    | Text(text: string)
    | Tool(tool: ToolCall)
    | Files(files: seq<Attachment>)
    | Number(number: int)
    | Instant(instant: int)

  function MessageRowParams(company: int, sid: int, m: Message, sortOrder: int): (cells: seq<Cell>)
    ensures |cells| == PARAMS_PER_ROW
  {
    [
      Key(company),
      Key(sid),
      Text(m.role),
      Text(m.kind),
      if m.content.Some? && m.content.value != "" then Text(m.content.value) else Null,
      if m.tool.Some? then Tool(Truncate(m.tool.value)) else Null,
      Files(if m.attachments.Some? then m.attachments.value else []),
      Number(sortOrder),
      Instant(Clip(m.createdAt))
    ]
  }

  predicate WellTyped(c: seq<Cell>)
  {
    && |c| == PARAMS_PER_ROW
    && c[0].Key? && c[1].Key? && c[2].Text? && c[3].Text?
    && (c[4].Null? || c[4].Text?)
    && (c[5].Null? || c[5].Tool?)
    && c[6].Files? && c[7].Number? && c[8].Instant?
  }

  /** The row that one parenthesised VALUES group inserts. */
  function FromCells(c: seq<Cell>): Row
    requires WellTyped(c)
  {
    Row(c[0].key, c[1].key, c[2].text, c[3].text,
        if c[4].Null? then None else Some(c[4].text),
        if c[5].Null? then None else Some(c[5].tool),
        Some(c[6].files), c[7].number, c[8].instant)
  }

  function RowOf(company: int, sid: int, m: Message, sortOrder: int): Row
  {
    FromCells(MessageRowParams(company, sid, m, sortOrder))
  }

  function ParseAttachments(raw: Option<seq<Attachment>>): Option<seq<Attachment>>
  {
    if raw.Some? && raw.value != [] && forall i :: 0 <= i < |raw.value| ==> ValidAttachment(raw.value[i]) then raw else None
  }

  function Loaded(id: int, r: Row): Message
  {
    Message(
      id, r.role, r.kind,
      if r.content.Some? then r.content else Some(""),
      r.tool,
      ParseAttachments(r.attachments),
      r.createdAt as real)
  }

  /** What a save makes of a message: text never absent, an empty attachment list absent, long summaries cut, whole milliseconds. */
  function Normal(m: Message): Message
  {
    m.(content := if m.content.Some? then m.content else Some(""),
       tool := if m.tool.Some? then Some(Truncate(m.tool.value)) else None,
       attachments := if m.attachments == Some([]) then None else m.attachments,
       createdAt := Clip(m.createdAt) as real)
  }

  lemma RowRoundTrip(company: int, sid: int, m: Message, sortOrder: int, id: int)
    requires ValidMessage(m)
    ensures Loaded(id, RowOf(company, sid, m, sortOrder)) == Normal(m).(id := id)
  {
  }

  /** A loaded message stores the row it was loaded from. */
  lemma RowTwice(company: int, sid: int, m: Message, sortOrder: int, id: int)
    requires ValidMessage(m)
    ensures RowOf(company, sid, Normal(m).(id := id), sortOrder) == RowOf(company, sid, m, sortOrder)
    ensures ValidMessage(Normal(m).(id := id))
    ensures InRange(m.createdAt) ==> InRange(Normal(m).createdAt)
  {
    if m.tool.Some? {
      TruncateTwice(m.tool.value);
    }
  }

  // ---------------------------------------------------------------- the two tables

  datatype Session = Session(company: int, user: int, title: Option<string>, messageCount: nat)

  datatype Caller = Caller(company: int, user: int)

  datatype Store = Store(sessions: map<int, Session>, messages: map<int, Row>, nextSession: int, nextMessage: int)

  /** Ids below the counters only, and every message in an existing session. */
  ghost predicate Valid(st: Store)
  {
    && (forall s :: s in st.sessions ==> s < st.nextSession)
    && (forall k :: k in st.messages ==> k < st.nextMessage && st.messages[k].session in st.sessions)
  }

  /** The session id is one of the caller's own sessions. */
  predicate Owns(sessions: map<int, Session>, who: Caller, sessionId: Option<int>)
  {
    sessionId.Some? && sessionId.value in sessions &&
    sessions[sessionId.value].company == who.company && sessions[sessionId.value].user == who.user
  }

  predicate InSession(r: Row, company: int, sid: int)
  {
    r.session == sid && r.company == company
  }

  function SaveTarget(st: Store, who: Caller, sessionId: Option<int>): int
  {
    if Owns(st.sessions, who, sessionId) then sessionId.value else st.nextSession
  }

  function Header(st: Store, who: Caller, sessionId: Option<int>, title: Option<string>, count: nat): Session
  {
    if Owns(st.sessions, who, sessionId) then st.sessions[sessionId.value].(messageCount := count)
    else Session(who.company, who.user, title, count)
  }

  function Without(rows: map<int, Row>, company: int, sid: int): map<int, Row>
  {
    map k | k in rows && !InSession(rows[k], company, sid) :: rows[k]
  }

  /** How one session's messages are written. */
  function Writer(company: int, sid: int): (Message, int) -> Row
  {
    (m: Message, sortOrder: int) => RowOf(company, sid, m, sortOrder)
  }

  /** The rows of `messages`, with `start` as the first sort order. */
  function RowsFor(write: (Message, int) -> Row, messages: seq<Message>, start: int): (rows: seq<Row>)
    ensures |rows| == |messages|
    ensures forall i :: 0 <= i < |rows| ==> rows[i] == write(messages[i], start + i)
  {
    seq(|messages|, i requires 0 <= i < |messages| => write(messages[i], start + i))
  }

  /** The table after inserting `added` under consecutive ids. */
  function Append(rows: map<int, Row>, added: seq<Row>, first: int): map<int, Row>
  {
    if added == [] then rows
    else Append(rows, added[..|added| - 1], first)[first + |added| - 1 := added[|added| - 1]]
  }

  /** The store after a save that went through. */
  function Saved(st: Store, who: Caller, sessionId: Option<int>, title: Option<string>, messages: seq<Message>): Store
  {
    var own := Owns(st.sessions, who, sessionId);
    var sid := SaveTarget(st, who, sessionId);
    var kept := if own then Without(st.messages, who.company, sid) else st.messages;
    Store(
      st.sessions[sid := Header(st, who, sessionId, title, |messages|)],
      Append(kept, RowsFor(Writer(who.company, sid), messages, 0), st.nextMessage),
      if own then st.nextSession else st.nextSession + 1,
      st.nextMessage + |messages|)
  }

  predicate DatesInRange(messages: seq<Message>)
  {
    forall i :: 0 <= i < |messages| ==> InRange(messages[i].createdAt)
  }

  predicate TakesAll(accepts: Row -> bool, rows: seq<Row>)
  {
    forall i :: 0 <= i < |rows| ==> accepts(rows[i])
  }

  /** Every message converts to a row, and the database takes it. */
  ghost predicate Storable(accepts: Row -> bool, write: (Message, int) -> Row, messages: seq<Message>, start: int)
  {
    DatesInRange(messages) && TakesAll(accepts, RowsFor(write, messages, start))
  }

  // ---------------------------------------------------------------- one batch, one statement

  /** The parameters of a batch, row after row. */
  function Flat(company: int, sid: int, batch: seq<Message>, start: int): (flat: seq<Cell>)
    ensures |flat| == PARAMS_PER_ROW * |batch|
  {
    if batch == [] then []
    else
      var n := |batch| - 1;
      Flat(company, sid, batch[..n], start) + MessageRowParams(company, sid, batch[n], start + n)
  }

  lemma {:induction false} FlatAt(company: int, sid: int, batch: seq<Message>, start: int, i: nat)
    requires i < |batch|
    ensures Flat(company, sid, batch, start)[PARAMS_PER_ROW * i..PARAMS_PER_ROW * (i + 1)] ==
            MessageRowParams(company, sid, batch[i], start + i)
    decreases |batch|
  {
    var n := |batch| - 1;
    var front := Flat(company, sid, batch[..n], start);
    if i < n {
      FlatAt(company, sid, batch[..n], start, i);
      assert Flat(company, sid, batch, start)[PARAMS_PER_ROW * i..PARAMS_PER_ROW * (i + 1)] ==
             front[PARAMS_PER_ROW * i..PARAMS_PER_ROW * (i + 1)];
    }
  }

  /** The values a VALUES group names, by its 1-based placeholders. */
  function Bind(group: seq<int>, params: seq<Cell>): (cells: seq<Cell>)
    requires forall c :: 0 <= c < |group| ==> 1 <= group[c] <= |params|
    ensures |cells| == |group|
    ensures forall c :: 0 <= c < |group| ==> cells[c] == params[group[c] - 1]
  {
    seq(|group|, c requires 0 <= c < |group| => params[group[c] - 1])
  }

  ghost predicate IsGroup(group: seq<int>, i: int)
  {
    |group| == PARAMS_PER_ROW && forall c :: 0 <= c < PARAMS_PER_ROW ==> group[c] == PARAMS_PER_ROW * i + c + 1
  }

  /** Group `i` names the nine parameters that belong to row `i`. */
  ghost predicate IsLayout(groups: seq<seq<int>>)
  {
    forall i :: 0 <= i < |groups| ==> IsGroup(groups[i], i)
  }

  lemma BindIsRow(company: int, sid: int, batch: seq<Message>, start: int, group: seq<int>, i: nat)
    requires i < |batch| && IsGroup(group, i)
    ensures forall c :: 0 <= c < |group| ==> 1 <= group[c] <= PARAMS_PER_ROW * |batch|
    ensures Bind(group, Flat(company, sid, batch, start)) == MessageRowParams(company, sid, batch[i], start + i)
  {
    var flat := Flat(company, sid, batch, start);
    var cells := MessageRowParams(company, sid, batch[i], start + i);
    FlatAt(company, sid, batch, start, i);
    var slice := flat[PARAMS_PER_ROW * i..PARAMS_PER_ROW * (i + 1)];
    forall c | 0 <= c < PARAMS_PER_ROW ensures flat[group[c] - 1] == cells[c] {
      assert slice[c] == flat[PARAMS_PER_ROW * i + c];
    }
    assert Bind(group, flat) == cells;
  }

  method BuildMessageBatchInsert(batchCount: nat) returns (groups: seq<seq<int>>)
    ensures |groups| == batchCount
    ensures IsLayout(groups)
  {
    groups := [];
    for i := 0 to batchCount
      invariant |groups| == i
      invariant IsLayout(groups)
    {
      var base := i * PARAMS_PER_ROW;
      groups := groups + [[base + 1, base + 2, base + 3, base + 4, base + 5, base + 6, base + 7, base + 8, base + 9]];
    }
  }

  /** `batch.forEach(...)`: the flat parameters, or nothing when a date cannot be written out. */
  method FlatParams(company: int, sid: int, batch: seq<Message>, start: int) returns (flat: Option<seq<Cell>>)
    ensures flat.Some? <==> DatesInRange(batch)
    ensures flat.Some? ==> flat.value == Flat(company, sid, batch, start)
  {
    var params := [];
    for i := 0 to |batch|
      invariant params == Flat(company, sid, batch[..i], start)
      invariant forall k :: 0 <= k < i ==> InRange(batch[k].createdAt)
    {
      if !InRange(batch[i].createdAt) {
        return None;
      }
      assert batch[..i + 1][..i] == batch[..i];
      params := params + MessageRowParams(company, sid, batch[i], start + i);
    }
    assert batch[..|batch|] == batch;
    flat := Some(params);
  }

  predicate GroupRuns(group: seq<int>, params: seq<Cell>)
  {
    (forall c :: 0 <= c < |group| ==> 1 <= group[c] <= |params|) && WellTyped(Bind(group, params))
  }

  /** Every group names existing parameters of the right types. */
  predicate Runs(groups: seq<seq<int>>, params: seq<Cell>)
  {
    forall i :: 0 <= i < |groups| ==> GroupRuns(groups[i], params)
  }

  /** The rows a multi-row INSERT produces, whatever its groups and parameters. */
  function Produced(groups: seq<seq<int>>, params: seq<Cell>): (rows: seq<Row>)
    requires Runs(groups, params)
    ensures |rows| == |groups|
  {
    seq(|groups|, i requires 0 <= i < |groups| => FromCells(Bind(groups[i], params)))
  }

  lemma GroupIsRow(company: int, sid: int, batch: seq<Message>, start: int, group: seq<int>, i: nat)
    requires i < |batch| && IsGroup(group, i)
    ensures GroupRuns(group, Flat(company, sid, batch, start))
    ensures FromCells(Bind(group, Flat(company, sid, batch, start))) == Writer(company, sid)(batch[i], start + i)
  {
    BindIsRow(company, sid, batch, start, group, i);
  }

  lemma LayoutRuns(company: int, sid: int, batch: seq<Message>, start: int, groups: seq<seq<int>>)
    requires |groups| == |batch| && IsLayout(groups)
    ensures Runs(groups, Flat(company, sid, batch, start))
  {
    forall i | 0 <= i < |groups| ensures GroupRuns(groups[i], Flat(company, sid, batch, start)) {
      GroupIsRow(company, sid, batch, start, groups[i], i);
    }
  }

  /** The statement built for a batch, given that batch's flat parameters, inserts exactly the batch's rows. */
  lemma StatementInsertsBatch(company: int, sid: int, batch: seq<Message>, start: int, groups: seq<seq<int>>)
    requires |groups| == |batch| && IsLayout(groups)
    ensures Runs(groups, Flat(company, sid, batch, start))
    ensures Produced(groups, Flat(company, sid, batch, start)) == RowsFor(Writer(company, sid), batch, start)
  {
    LayoutRuns(company, sid, batch, start, groups);
    var produced := Produced(groups, Flat(company, sid, batch, start));
    var rows := RowsFor(Writer(company, sid), batch, start);
    forall i | 0 <= i < |groups| ensures produced[i] == rows[i] {
      GroupIsRow(company, sid, batch, start, groups[i], i);
    }
    Collections.SameSeq(produced, rows);
  }

  method InsertRows(rows: map<int, Row>, next: int, accepts: Row -> bool, added: seq<Row>)
    returns (inserted: Option<map<int, Row>>)
    ensures inserted.Some? <==> TakesAll(accepts, added)
    ensures inserted.Some? ==> inserted.value == Append(rows, added, next)
  {
    var grown := rows;
    for i := 0 to |added|
      invariant grown == Append(rows, added[..i], next)
      invariant forall k :: 0 <= k < i ==> accepts(added[k])
    {
      if !accepts(added[i]) {
        return None;
      }
      assert added[..i + 1][..i] == added[..i];
      grown := grown[next + i := added[i]];
    }
    assert added[..|added|] == added;
    inserted := Some(grown);
  }

  /** One multi-row INSERT: every row or, when one is refused, none. */
  method InsertBatch(rows: map<int, Row>, next: int, accepts: Row -> bool, groups: seq<seq<int>>, params: seq<Cell>)
    returns (inserted: Option<map<int, Row>>)
    requires Runs(groups, params)
    ensures inserted.Some? <==> TakesAll(accepts, Produced(groups, params))
    ensures inserted.Some? ==> inserted.value == Append(rows, Produced(groups, params), next)
  {
    inserted := InsertRows(rows, next, accepts, Produced(groups, params));
  }

  /** Inserting in two batches is inserting at once. */
  lemma {:induction false} AppendJoins(rows: map<int, Row>, a: seq<Row>, b: seq<Row>, first: int)
    ensures Append(rows, a + b, first) == Append(Append(rows, a, first), b, first + |a|)
    decreases |b|
  {
    if b == [] {
      assert a + b == a;
    } else {
      AppendJoins(rows, a, b[..|b| - 1], first);
      assert (a + b)[..|a + b| - 1] == a + b[..|b| - 1];
    }
  }

  lemma RowsJoin(write: (Message, int) -> Row, list: seq<Message>, start: nat, end: nat)
    requires start <= end <= |list|
    ensures RowsFor(write, list[..end], 0) == RowsFor(write, list[..start], 0) + RowsFor(write, list[start..end], start)
  {
  }

  lemma {:induction false} Appended(rows: map<int, Row>, added: seq<Row>, first: int)
    ensures forall k :: k in Append(rows, added, first) <==> k in rows || first <= k < first + |added|
    ensures forall k :: k in rows && !(first <= k < first + |added|) ==> Append(rows, added, first)[k] == rows[k]
    ensures forall k :: first <= k < first + |added| ==> Append(rows, added, first)[k] == added[k - first]
    decreases |added|
  {
    if added != [] {
      Appended(rows, added[..|added| - 1], first);
    }
  }

  // ---------------------------------------------------------------- the handler

  function SafeTitle(title: Option<string>): Option<string>
  {
    if title.None? || |title.value| <= TITLE_MAX then title else Some(title.value[..TITLE_MAX])
  }

  /** One turn of the loop: build the statement, flatten the parameters, send it. */
  method WriteBatch(rows: map<int, Row>, next: int, accepts: Row -> bool, company: int, sid: int, batch: seq<Message>, start: int)
    returns (written: Option<map<int, Row>>)
    ensures written.Some? <==> Storable(accepts, Writer(company, sid), batch, start)
    ensures written.Some? ==> written.value == Append(rows, RowsFor(Writer(company, sid), batch, start), next)
  {
    var groups := BuildMessageBatchInsert(|batch|);
    var flat := FlatParams(company, sid, batch, start);
    if flat.None? {
      return None;
    }
    StatementInsertsBatch(company, sid, batch, start, groups);
    written := InsertBatch(rows, next, accepts, groups, flat.value);
  }

  /** The batches so far have inserted the first `start` messages. */
  ghost predicate WrittenUpTo(rows: map<int, Row>, next: int, accepts: Row -> bool, write: (Message, int) -> Row, list: seq<Message>,
                              start: int, grown: map<int, Row>)
  {
    && 0 <= start <= |list|
    && grown == Append(rows, RowsFor(write, list[..start], 0), next)
    && Storable(accepts, write, list[..start], 0)
  }

  lemma WrittenNone(rows: map<int, Row>, next: int, accepts: Row -> bool, write: (Message, int) -> Row, list: seq<Message>)
    ensures WrittenUpTo(rows, next, accepts, write, list, 0, rows)
  {
  }

  lemma WrittenAll(rows: map<int, Row>, next: int, accepts: Row -> bool, write: (Message, int) -> Row, list: seq<Message>, grown: map<int, Row>)
    requires WrittenUpTo(rows, next, accepts, write, list, |list|, grown)
    ensures Storable(accepts, write, list, 0) && grown == Append(rows, RowsFor(write, list, 0), next)
  {
    assert list[..|list|] == list;
  }

  lemma StorablePrefix(accepts: Row -> bool, write: (Message, int) -> Row, list: seq<Message>, end: nat)
    requires end <= |list|
    ensures Storable(accepts, write, list, 0) ==> Storable(accepts, write, list[..end], 0)
  {
    if Storable(accepts, write, list, 0) {
      var all := RowsFor(write, list, 0);
      forall i | 0 <= i < end ensures accepts(RowsFor(write, list[..end], 0)[i]) { assert accepts(all[i]); }
    }
  }

  lemma DatesJoin(a: seq<Message>, b: seq<Message>)
    ensures DatesInRange(a + b) <==> DatesInRange(a) && DatesInRange(b)
  {
    if DatesInRange(a + b) {
      forall i | 0 <= i < |a| ensures InRange(a[i].createdAt) { assert (a + b)[i] == a[i]; }
      forall i | 0 <= i < |b| ensures InRange(b[i].createdAt) { assert (a + b)[|a| + i] == b[i]; }
    }
  }

  lemma TakesJoins(accepts: Row -> bool, a: seq<Row>, b: seq<Row>)
    ensures TakesAll(accepts, a + b) <==> TakesAll(accepts, a) && TakesAll(accepts, b)
  {
    if TakesAll(accepts, a + b) {
      forall i | 0 <= i < |a| ensures accepts(a[i]) { assert (a + b)[i] == a[i]; }
      forall i | 0 <= i < |b| ensures accepts(b[i]) { assert (a + b)[|a| + i] == b[i]; }
    }
  }

  lemma StorableJoins(accepts: Row -> bool, write: (Message, int) -> Row, list: seq<Message>, start: nat, end: nat)
    requires start <= end <= |list| && Storable(accepts, write, list[..start], 0)
    ensures Storable(accepts, write, list[start..end], start) <==> Storable(accepts, write, list[..end], 0)
  {
    RowsJoin(write, list, start, end);
    TakesJoins(accepts, RowsFor(write, list[..start], 0), RowsFor(write, list[start..end], start));
    DatesJoin(list[..start], list[start..end]);
    assert list[..start] + list[start..end] == list[..end];
  }

  lemma BatchJoins(rows: map<int, Row>, next: int, write: (Message, int) -> Row, list: seq<Message>, start: nat, end: nat)
    requires start <= end <= |list|
    ensures Append(Append(rows, RowsFor(write, list[..start], 0), next), RowsFor(write, list[start..end], start), next + start) ==
            Append(rows, RowsFor(write, list[..end], 0), next)
  {
    RowsJoin(write, list, start, end);
    AppendJoins(rows, RowsFor(write, list[..start], 0), RowsFor(write, list[start..end], start), next);
  }

  lemma WrittenNext(rows: map<int, Row>, next: int, accepts: Row -> bool, write: (Message, int) -> Row, list: seq<Message>,
                    start: int, end: int, grown: map<int, Row>)
    requires WrittenUpTo(rows, next, accepts, write, list, start, grown) && start <= end <= |list|
    ensures !Storable(accepts, write, list[start..end], start) ==> !Storable(accepts, write, list, 0)
    ensures Storable(accepts, write, list[start..end], start) ==>
              WrittenUpTo(rows, next, accepts, write, list, end, Append(grown, RowsFor(write, list[start..end], start), next + start))
  {
    StorablePrefix(accepts, write, list, end);
    StorableJoins(accepts, write, list, start, end);
    BatchJoins(rows, next, write, list, start, end);
  }

  /** The batching loop. */
  method InsertMessages(rows: map<int, Row>, next: int, accepts: Row -> bool, company: int, sid: int, list: seq<Message>)
    returns (written: Option<map<int, Row>>)
    ensures written.Some? <==> Storable(accepts, Writer(company, sid), list, 0)
    ensures written.Some? ==> written.value == Append(rows, RowsFor(Writer(company, sid), list, 0), next)
  {
    ghost var write := Writer(company, sid);
    var grown := rows;
    var start := 0;
    WrittenNone(rows, next, accepts, write, list);
    while start < |list|
      invariant WrittenUpTo(rows, next, accepts, write, list, start, grown)
    {
      var end := if start + MESSAGE_BATCH_SIZE <= |list| then start + MESSAGE_BATCH_SIZE else |list|;
      var batch := WriteBatch(grown, next + start, accepts, company, sid, list[start..end], start);
      WrittenNext(rows, next, accepts, write, list, start, end, grown);
      if batch.None? {
        return None;
      }
      grown := batch.value;
      start := end;
    }
    WrittenAll(rows, next, accepts, write, list, grown);
    written := Some(grown);
  }

  class ChatTables {
    var sessions: map<int, Session>
    var messages: map<int, Row>
    var nextSession: int
    var nextMessage: int

    constructor ()
      ensures View() == Store(map[], map[], 0, 0)
    {
      sessions, messages, nextSession, nextMessage := map[], map[], 0, 0;
    }

    ghost function View(): Store
      reads this
    {
      Store(sessions, messages, nextSession, nextMessage)
    }

    /** `persistSession`: one transaction, so a failed save leaves no trace. */
    method PersistSession(accepts: Row -> bool, who: Caller, sessionId: Option<int>, title: Option<string>, list: seq<Message>)
      returns (reply: Result<int>)
      modifies this
      ensures reply.Ok? <==> Storable(accepts, Writer(who.company, SaveTarget(old(View()), who, sessionId)), list, 0)
      ensures reply.Ok? ==> reply.value == SaveTarget(old(View()), who, sessionId)
      ensures View() == if reply.Ok? then Saved(old(View()), who, sessionId, title, list) else old(View())
    {
      var own := Owns(sessions, who, sessionId);
      var sid := if own then sessionId.value else nextSession;
      var header := if own then sessions[sid].(messageCount := |list|) else Session(who.company, who.user, title, |list|);
      var kept := if own then Without(messages, who.company, sid) else messages;
      var written := InsertMessages(kept, nextMessage, accepts, who.company, sid, list);
      match written {
        case None => return Err("save failed");
        case Some(rows) =>
          sessions := sessions[sid := header];
          messages := rows;
          nextSession := if own then nextSession else nextSession + 1;
          nextMessage := nextMessage + |list|;
          reply := Ok(sid);
      }
    }

    /** `ai:save-session`. */
    method SaveSession(accepts: Row -> bool, who: Caller, sessionId: Option<int>, title: Option<string>, list: seq<Message>)
      returns (reply: Result<int>)
      modifies this
      ensures reply.Ok? <==>
                ValidMessages(list) && Storable(accepts, Writer(who.company, SaveTarget(old(View()), who, sessionId)), list, 0)
      ensures reply.Ok? ==> reply.value == SaveTarget(old(View()), who, sessionId)
      ensures View() == if reply.Ok? then Saved(old(View()), who, sessionId, SafeTitle(title), list) else old(View())
    {
      if !ValidMessages(list) {
        return Err("messages must be a valid chat array");
      }
      reply := PersistSession(accepts, who, sessionId, SafeTitle(title), list);
    }
  }

  // ---------------------------------------------------------------- loading

  /** The ids of the rows a load selects. */
  function Selected(st: Store, who: Caller, sid: int): set<int>
  {
    set k | k in st.messages && InSession(st.messages[k], who.company, sid) && sid in st.sessions && st.sessions[sid].user == who.user
  }

  /** `order` lists the selected rows, each once, by sort order; ties may come either way. */
  ghost predicate IsAnswer(st: Store, who: Caller, sid: int, order: seq<int>)
  {
    && (forall i :: 0 <= i < |order| ==> order[i] in Selected(st, who, sid))
    && (forall k :: k in Selected(st, who, sid) ==> k in order)
    && (forall i, j :: 0 <= i < j < |order| ==> order[i] != order[j])
    && (forall i, j :: 0 <= i < j < |order| ==>
          order[i] in st.messages && order[j] in st.messages && st.messages[order[i]].sortOrder <= st.messages[order[j]].sortOrder)
  }

  /** Which rows a save leaves, and what is in them. */
  ghost predicate RewritesSession(before: map<int, Row>, after: map<int, Row>, company: int, sid: int, added: seq<Row>, first: int)
  {
    && (forall k :: k in after <==> (k in before && !InSession(before[k], company, sid)) || first <= k < first + |added|)
    && (forall k :: k in after && !(first <= k < first + |added|) ==> after[k] == before[k])
    && (forall k :: first <= k < first + |added| ==> after[k] == added[k - first])
  }

  lemma {:induction false} AppendRewrites(before: map<int, Row>, kept: map<int, Row>, company: int, sid: int, added: seq<Row>, first: int)
    requires forall k :: k in kept <==> k in before && !InSession(before[k], company, sid)
    requires forall k :: k in kept ==> kept[k] == before[k]
    ensures RewritesSession(before, Append(kept, added, first), company, sid, added, first)
  {
    Appended(kept, added, first);
  }

  lemma SaveRewritesSession(st: Store, who: Caller, sessionId: Option<int>, title: Option<string>, list: seq<Message>)
    requires Valid(st)
    ensures var sid := SaveTarget(st, who, sessionId);
            RewritesSession(st.messages, Saved(st, who, sessionId, title, list).messages, who.company, sid,
                            RowsFor(Writer(who.company, sid), list, 0), st.nextMessage)
  {
    var sid := SaveTarget(st, who, sessionId);
    var kept := if Owns(st.sessions, who, sessionId) then Without(st.messages, who.company, sid) else st.messages;
    AppendRewrites(st.messages, kept, who.company, sid, RowsFor(Writer(who.company, sid), list, 0), st.nextMessage);
  }

  lemma SaveKeepsValid(st: Store, who: Caller, sessionId: Option<int>, title: Option<string>, list: seq<Message>)
    requires Valid(st)
    ensures Valid(Saved(st, who, sessionId, title, list))
  {
    SaveRewritesSession(st, who, sessionId, title, list);
    var after := Saved(st, who, sessionId, title, list);
    var added := RowsFor(Writer(who.company, SaveTarget(st, who, sessionId)), list, 0);
    forall k | k in after.messages
      ensures k < after.nextMessage && after.messages[k].session in after.sessions
    {
      if st.nextMessage <= k < st.nextMessage + |added| {
        assert after.messages[k] == added[k - st.nextMessage];
      }
    }
  }

  lemma SelectedAfterSave(st: Store, who: Caller, sessionId: Option<int>, title: Option<string>, list: seq<Message>)
    requires Valid(st)
    ensures forall k :: k in Selected(Saved(st, who, sessionId, title, list), who, SaveTarget(st, who, sessionId)) <==>
                        st.nextMessage <= k < st.nextMessage + |list|
  {
    SaveRewritesSession(st, who, sessionId, title, list);
    var after := Saved(st, who, sessionId, title, list);
    var added := RowsFor(Writer(who.company, SaveTarget(st, who, sessionId)), list, 0);
    forall k | st.nextMessage <= k < st.nextMessage + |list|
      ensures k in Selected(after, who, SaveTarget(st, who, sessionId))
    {
      assert after.messages[k] == added[k - st.nextMessage];
    }
  }

  /** Increasing ids that cover a range of ids list that range. */
  lemma {:induction false} CoveringOrder(order: seq<int>, first: int, n: nat, i: nat)
    requires i <= n
    requires forall j, k :: 0 <= j < k < |order| ==> order[j] < order[k]
    requires forall j :: 0 <= j < |order| ==> first <= order[j] < first + n
    requires forall k :: first <= k < first + n ==> k in order
    ensures i <= |order| && forall j :: 0 <= j < i ==> order[j] == first + j
    decreases i
  {
    if i > 0 {
      CoveringOrder(order, first, n, i - 1);
      assert first + i - 1 in order;
      var p :| 0 <= p < |order| && order[p] == first + i - 1;
      assert order[i - 1] <= order[p];
      assert i > 1 ==> order[i - 2] < order[i - 1];
    }
  }

  lemma {:induction false} IncreasingAbove(order: seq<int>, first: int, i: nat)
    requires i < |order| && first <= order[0]
    requires forall j, k :: 0 <= j < k < |order| ==> order[j] < order[k]
    ensures first + i <= order[i]
  {
    if i > 0 {
      IncreasingAbove(order, first, i - 1);
      assert order[i - 1] < order[i];
    }
  }

  lemma IncreasingFits(order: seq<int>, first: int, n: nat)
    requires forall j, k :: 0 <= j < k < |order| ==> order[j] < order[k]
    requires forall j :: 0 <= j < |order| ==> first <= order[j] < first + n
    ensures |order| <= n
  {
    if order != [] {
      IncreasingAbove(order, first, |order| - 1);
    }
  }

  ghost predicate IsRange(order: seq<int>, first: int, n: nat)
  {
    |order| == n && forall i :: 0 <= i < n ==> order[i] == first + i
  }

  lemma SortOrders(st: Store, who: Caller, sessionId: Option<int>, title: Option<string>, list: seq<Message>)
    requires Valid(st)
    ensures forall k :: st.nextMessage <= k < st.nextMessage + |list| ==>
              k in Saved(st, who, sessionId, title, list).messages &&
              Saved(st, who, sessionId, title, list).messages[k].sortOrder == k - st.nextMessage
  {
    SaveRewritesSession(st, who, sessionId, title, list);
    var after := Saved(st, who, sessionId, title, list);
    var rows := RowsFor(Writer(who.company, SaveTarget(st, who, sessionId)), list, 0);
    forall k | st.nextMessage <= k < st.nextMessage + |list|
      ensures k in after.messages && after.messages[k].sortOrder == k - st.nextMessage
    {
      assert after.messages[k] == rows[k - st.nextMessage];
    }
  }

  lemma AnswerIsRange(st: Store, who: Caller, sid: int, order: seq<int>, first: int, n: nat)
    requires forall k :: k in Selected(st, who, sid) <==> first <= k < first + n
    requires forall k :: first <= k < first + n ==> k in st.messages && st.messages[k].sortOrder == k - first
    requires IsAnswer(st, who, sid, order)
    ensures IsRange(order, first, n)
  {
    forall j, k | 0 <= j < k < |order| ensures order[j] < order[k] {
      assert order[j] in Selected(st, who, sid) && order[k] in Selected(st, who, sid);
    }
    CoveringOrder(order, first, n, n);
    IncreasingFits(order, first, n);
  }

  lemma RangeIsAnswer(st: Store, who: Caller, sid: int, order: seq<int>, first: int, n: nat)
    requires forall k :: k in Selected(st, who, sid) <==> first <= k < first + n
    requires forall k :: first <= k < first + n ==> k in st.messages && st.messages[k].sortOrder == k - first
    requires IsRange(order, first, n)
    ensures IsAnswer(st, who, sid, order)
  {
    forall k | k in Selected(st, who, sid) ensures k in order {
      assert order[k - first] == k;
    }
  }

  /** A load right after a save has exactly one answer: the inserted rows, first to last. */
  lemma AnswerAfterSave(st: Store, who: Caller, sessionId: Option<int>, title: Option<string>, list: seq<Message>, order: seq<int>)
    requires Valid(st)
    ensures IsAnswer(Saved(st, who, sessionId, title, list), who, SaveTarget(st, who, sessionId), order) <==>
            IsRange(order, st.nextMessage, |list|)
  {
    SelectedAfterSave(st, who, sessionId, title, list);
    SortOrders(st, who, sessionId, title, list);
    var after := Saved(st, who, sessionId, title, list);
    if IsAnswer(after, who, SaveTarget(st, who, sessionId), order) {
      AnswerIsRange(after, who, SaveTarget(st, who, sessionId), order, st.nextMessage, |list|);
    }
    if IsRange(order, st.nextMessage, |list|) {
      RangeIsAnswer(after, who, SaveTarget(st, who, sessionId), order, st.nextMessage, |list|);
    }
  }

  // ---------------------------------------------------------------- main results

  /** What a load returns, given the order of the selected rows. */
  ghost function Transcript(st: Store, order: seq<int>): (list: seq<Message>)
    requires forall i :: 0 <= i < |order| ==> order[i] in st.messages
    ensures |list| == |order|
    ensures forall i :: 0 <= i < |order| ==> list[i] == Loaded(order[i], st.messages[order[i]])
  {
    seq(|order|, i requires 0 <= i < |order| => Loaded(order[i], st.messages[order[i]]))
  }

  /** The rows from `first` on hold these messages, in order. */
  ghost predicate HoldsRows(rows: map<int, Row>, first: int, company: int, sid: int, list: seq<Message>)
  {
    forall i :: 0 <= i < |list| ==> first + i in rows && rows[first + i] == RowOf(company, sid, list[i], i)
  }

  lemma RowsAfterSave(st: Store, who: Caller, sessionId: Option<int>, title: Option<string>, list: seq<Message>)
    requires Valid(st)
    ensures HoldsRows(Saved(st, who, sessionId, title, list).messages, st.nextMessage, who.company, SaveTarget(st, who, sessionId), list)
  {
    SaveRewritesSession(st, who, sessionId, title, list);
    var after := Saved(st, who, sessionId, title, list);
    var rows := RowsFor(Writer(who.company, SaveTarget(st, who, sessionId)), list, 0);
    forall i | 0 <= i < |list|
      ensures st.nextMessage + i in after.messages
      ensures after.messages[st.nextMessage + i] == RowOf(who.company, SaveTarget(st, who, sessionId), list[i], i)
    {
      assert after.messages[st.nextMessage + i] == rows[i];
    }
  }

  /** Message by message, `loaded` is the normal form of `list`, under the row ids `order`. */
  ghost predicate NormalForms(loaded: seq<Message>, list: seq<Message>, order: seq<int>)
  {
    |loaded| == |list| == |order| && forall i :: 0 <= i < |list| ==> loaded[i] == Normal(list[i]).(id := order[i])
  }

  lemma RowsLoad(after: Store, first: int, company: int, sid: int, list: seq<Message>, order: seq<int>)
    requires HoldsRows(after.messages, first, company, sid, list) && IsRange(order, first, |list|) && ValidMessages(list)
    ensures forall i :: 0 <= i < |order| ==> order[i] in after.messages
    ensures NormalForms(Transcript(after, order), list, order)
  {
    forall i | 0 <= i < |list|
      ensures order[i] in after.messages && Loaded(order[i], after.messages[order[i]]) == Normal(list[i]).(id := order[i])
    {
      RowRoundTrip(company, sid, list[i], i, order[i]);
    }
  }

  /** Loading what was saved gives back every message, in order, in its normal form and under its row's id. */
  lemma LoadAfterSave(st: Store, who: Caller, sessionId: Option<int>, title: Option<string>, list: seq<Message>, order: seq<int>)
    requires Valid(st) && ValidMessages(list)
    requires IsAnswer(Saved(st, who, sessionId, title, list), who, SaveTarget(st, who, sessionId), order)
    ensures NormalForms(Transcript(Saved(st, who, sessionId, title, list), order), list, order)
  {
    AnswerAfterSave(st, who, sessionId, title, list, order);
    RowsAfterSave(st, who, sessionId, title, list);
    RowsLoad(Saved(st, who, sessionId, title, list), st.nextMessage, who.company, SaveTarget(st, who, sessionId), list, order);
  }

  /** The header a save writes is the header it finds when it saves into the session it just saved. */
  lemma HeaderAgain(
    st: Store, who: Caller, sessionId: Option<int>, title: Option<string>, newTitle: Option<string>, list: seq<Message>,
    loaded: seq<Message>)
    requires |loaded| == |list|
    ensures var after, sid := Saved(st, who, sessionId, title, list), SaveTarget(st, who, sessionId);
            && SaveTarget(after, who, Some(sid)) == sid
            && Saved(after, who, Some(sid), newTitle, loaded).sessions == after.sessions
  {
  }

  /** The rows `older` and `newer` name are the same, one by one. */
  ghost predicate SameRows(before: map<int, Row>, older: seq<int>, after: map<int, Row>, newer: seq<int>)
  {
    && |older| == |newer|
    && forall i :: 0 <= i < |older| ==> newer[i] in after && older[i] in before && after[newer[i]] == before[older[i]]
  }

  /** One session's messages and their normal forms are stored as the same rows. */
  lemma RowsAgain(
    before: map<int, Row>, older: seq<int>, after: map<int, Row>, newer: seq<int>, first: int, second: int, company: int, sid: int,
    list: seq<Message>, loaded: seq<Message>)
    requires ValidMessages(list) && NormalForms(loaded, list, older)
    requires HoldsRows(before, first, company, sid, list) && IsRange(older, first, |list|)
    requires HoldsRows(after, second, company, sid, loaded) && IsRange(newer, second, |list|)
    ensures SameRows(before, older, after, newer)
  {
    forall i | 0 <= i < |older|
      ensures newer[i] in after && older[i] in before && after[newer[i]] == before[older[i]]
    {
      assert older[i] == first + i && newer[i] == second + i;
      RowTwice(company, sid, list[i], i, older[i]);
    }
  }

  lemma OrdersAgain(
    st: Store, who: Caller, sessionId: Option<int>, title: Option<string>, newTitle: Option<string>, list: seq<Message>,
    loaded: seq<Message>, after: Store, order: seq<int>, newOrder: seq<int>)
    requires Valid(st) && Valid(after) && |loaded| == |list|
    requires after == Saved(st, who, sessionId, title, list)
    requires IsAnswer(after, who, SaveTarget(st, who, sessionId), order)
    requires var sid := SaveTarget(st, who, sessionId);
             SaveTarget(after, who, Some(sid)) == sid && IsAnswer(Saved(after, who, Some(sid), newTitle, loaded), who, sid, newOrder)
    ensures IsRange(order, st.nextMessage, |list|) && IsRange(newOrder, after.nextMessage, |list|)
  {
    AnswerAfterSave(st, who, sessionId, title, list, order);
    AnswerAfterSave(after, who, Some(SaveTarget(st, who, sessionId)), newTitle, loaded, newOrder);
  }

  /** Saving a loaded session again stores the same rows, in the same order, under the same header. */
  lemma SaveLoadedAgain(
    st: Store, who: Caller, sessionId: Option<int>, title: Option<string>, list: seq<Message>, newTitle: Option<string>,
    sid: int, after: Store, order: seq<int>, again: Store, newOrder: seq<int>)
    requires Valid(st) && ValidMessages(list)
    requires after == Saved(st, who, sessionId, title, list) && sid == SaveTarget(st, who, sessionId)
    requires IsAnswer(after, who, sid, order)
    requires again == Saved(after, who, Some(sid), newTitle, Transcript(after, order))
    requires IsAnswer(again, who, sid, newOrder)
    ensures again.sessions == after.sessions
    ensures SameRows(after.messages, order, again.messages, newOrder)
  {
    var loaded := Transcript(after, order);
    LoadAfterSave(st, who, sessionId, title, list, order);
    HeaderAgain(st, who, sessionId, title, newTitle, list, loaded);
    SaveKeepsValid(st, who, sessionId, title, list);
    OrdersAgain(st, who, sessionId, title, newTitle, list, loaded, after, order, newOrder);
    RowsAfterSave(st, who, sessionId, title, list);
    RowsAfterSave(after, who, Some(sid), newTitle, loaded);
    RowsAgain(after.messages, order, again.messages, newOrder, st.nextMessage, after.nextMessage, who.company, sid, list, loaded);
  }

  /** A save that went through once goes through again on what is then loaded. */
  lemma LoadedIsStorable(
    accepts: Row -> bool, st: Store, who: Caller, sessionId: Option<int>, title: Option<string>, list: seq<Message>, order: seq<int>)
    requires Valid(st) && ValidMessages(list)
    requires Storable(accepts, Writer(who.company, SaveTarget(st, who, sessionId)), list, 0)
    requires IsAnswer(Saved(st, who, sessionId, title, list), who, SaveTarget(st, who, sessionId), order)
    ensures ValidMessages(Transcript(Saved(st, who, sessionId, title, list), order))
    ensures Storable(accepts, Writer(who.company, SaveTarget(st, who, sessionId)), Transcript(Saved(st, who, sessionId, title, list), order), 0)
  {
    var sid := SaveTarget(st, who, sessionId);
    var loaded := Transcript(Saved(st, who, sessionId, title, list), order);
    LoadAfterSave(st, who, sessionId, title, list, order);
    forall i | 0 <= i < |loaded|
      ensures ValidMessage(loaded[i]) && InRange(loaded[i].createdAt)
      ensures accepts(RowOf(who.company, sid, loaded[i], i))
    {
      RowTwice(who.company, sid, list[i], i, order[i]);
      assert accepts(RowsFor(Writer(who.company, sid), list, 0)[i]);
    }
  }

  /** Every other session keeps its header and loads as before. */
  lemma SaveKeepsOthers(
    st: Store, who: Caller, sessionId: Option<int>, title: Option<string>, list: seq<Message>, reader: Caller, other: int)
    requires Valid(st) && other != SaveTarget(st, who, sessionId)
    ensures var after := Saved(st, who, sessionId, title, list);
            && (forall k :: k in Selected(after, reader, other) <==> k in Selected(st, reader, other))
            && (forall k :: k in Selected(st, reader, other) ==> after.messages[k] == st.messages[k])
            && (other in after.sessions <==> other in st.sessions)
            && (other in st.sessions ==> after.sessions[other] == st.sessions[other])
  {
    SaveRewritesSession(st, who, sessionId, title, list);
    var after, sid := Saved(st, who, sessionId, title, list), SaveTarget(st, who, sessionId);
    var rows := RowsFor(Writer(who.company, sid), list, 0);
    forall k | st.nextMessage <= k < st.nextMessage + |list|
      ensures k in after.messages && after.messages[k].session == sid
    {
      assert after.messages[k] == rows[k - st.nextMessage];
    }
  }

  /** A save writes a title only for a session it creates: a stale or foreign id makes one, owned by the caller. */
  lemma SaveKeepsTitles(st: Store, who: Caller, sessionId: Option<int>, title: Option<string>, list: seq<Message>, sid: int)
    requires Valid(st)
    ensures var after := Saved(st, who, sessionId, title, list);
            && (sid in st.sessions ==>
                  sid in after.sessions && after.sessions[sid].title == st.sessions[sid].title &&
                  after.sessions[sid].user == st.sessions[sid].user && after.sessions[sid].company == st.sessions[sid].company)
            && (sid in after.sessions && sid !in st.sessions ==>
                  sid == SaveTarget(st, who, sessionId) && after.sessions[sid] == Session(who.company, who.user, title, |list|))
    ensures (sessionId.Some? && SaveTarget(st, who, sessionId) == sessionId.value && sessionId.value in st.sessions) <==>
            Owns(st.sessions, who, sessionId)
  {
  }
}
