/** What a chat user gets back: saving and then loading, told message by message, and who can save and load what. */
module ChatMeaning {
  import opened Wrappers
  import opened ChatStore
  import Collections

  // ---------------------------------------------------------------- save, then load

  /** `sid` is where the save goes, `after` the store then, and `order` what a load of it selects. */
  ghost predicate LoadsAfter(
    st: Store, who: Caller, sessionId: Option<int>, title: Option<string>, list: seq<Message>, sid: int, after: Store, order: seq<int>)
  {
    && Valid(st) && ValidMessages(list)
    && sid == SaveTarget(st, who, sessionId) && after == Saved(st, who, sessionId, title, list)
    && IsAnswer(after, who, sid, order)
  }

  lemma Loads(
    st: Store, who: Caller, sessionId: Option<int>, title: Option<string>, list: seq<Message>, sid: int, after: Store, order: seq<int>)
    requires LoadsAfter(st, who, sessionId, title, list, sid, after, order)
    ensures |order| == |list| && NormalForms(Transcript(after, order), list, order)
  {
    LoadAfterSave(st, who, sessionId, title, list, order);
  }

  /** The date is a whole number of milliseconds. */
  predicate WholeDate(m: Message)
  {
    m.createdAt == m.createdAt.Floor as real
  }

  /** A date that only loses a fraction of a millisecond, toward the epoch. */
  predicate Truncates(t: real, whole: real)
  {
    && whole == whole.Floor as real
    && (if t >= 0.0 then whole <= t < whole + 1.0 else whole - 1.0 < t <= whole)
  }

  lemma ClipTruncates(t: real)
    ensures Truncates(t, Clip(t) as real)
    ensures t == t.Floor as real ==> Clip(t) as real == t
  {
    if t < 0.0 && t == t.Floor as real {
      assert -t == (-t.Floor) as real;
      assert (-t).Floor == -t.Floor;
    }
  }

  /** A message with text, attachments absent or some, a whole date and a summary of up to 4000 characters loads back as it was, under its row's id. */
  lemma LoadsUnchanged(
    st: Store, who: Caller, sessionId: Option<int>, title: Option<string>, list: seq<Message>, sid: int, after: Store, order: seq<int>,
    i: nat)
    requires LoadsAfter(st, who, sessionId, title, list, sid, after, order) && i < |list|
    requires list[i].content.Some? && list[i].attachments != Some([]) && WholeDate(list[i])
    requires list[i].tool.Some? && list[i].tool.value.summary.Some? ==> |list[i].tool.value.summary.value| <= 4000
    ensures |order| == |list| && Transcript(after, order)[i] == list[i].(id := order[i])
  {
    Loads(st, who, sessionId, title, list, sid, after, order);
    ClipTruncates(list[i].createdAt);
  }

  /** A longer summary comes back as its first 4000 characters and the marker; the rest of the tool call and of the message as they were. */
  lemma LongSummaryIsCut(
    st: Store, who: Caller, sessionId: Option<int>, title: Option<string>, list: seq<Message>, sid: int, after: Store, order: seq<int>,
    i: nat, summary: string)
    requires LoadsAfter(st, who, sessionId, title, list, sid, after, order) && i < |list|
    requires list[i].content.Some? && list[i].attachments != Some([]) && WholeDate(list[i])
    requires list[i].tool.Some? && list[i].tool.value.summary == Some(summary) && |summary| > 4000
    ensures |order| == |list|
    ensures Transcript(after, order)[i] ==
            list[i].(id := order[i],
                     tool := Some(ToolCall(list[i].tool.value.rest, Some(summary[..4000] + "\n…(تم اقتصاص الملخص عند الحفظ)"))))
  {
    Loads(st, who, sessionId, title, list, sid, after, order);
    ClipTruncates(list[i].createdAt);
  }

  /** What every message keeps, and all that a save may take from one. */
  lemma LoadedFields(
    st: Store, who: Caller, sessionId: Option<int>, title: Option<string>, list: seq<Message>, sid: int, after: Store, order: seq<int>,
    i: nat)
    requires LoadsAfter(st, who, sessionId, title, list, sid, after, order) && i < |list|
    ensures |order| == |list|
    ensures var was, now := list[i], Transcript(after, order)[i];
            && now.role == was.role && now.kind == was.kind
            && now.content == Some(if was.content.Some? then was.content.value else "")
            && (now.tool.Some? <==> was.tool.Some?)
            && (was.tool.Some? ==>
                  && now.tool.value.rest == was.tool.value.rest
                  && (now.tool.value.summary.Some? <==> was.tool.value.summary.Some?))
            && (now.attachments.Some? <==> was.attachments.Some? && was.attachments.value != [])
            && (now.attachments.Some? ==> now.attachments == was.attachments)
            && Truncates(was.createdAt, now.createdAt)
  {
    Loads(st, who, sessionId, title, list, sid, after, order);
    ClipTruncates(list[i].createdAt);
  }

  /** The lists that can be saved: not empty, and each message of a known role and kind, its attachments named, hashed and of a known kind. */
  lemma SavableIff(list: seq<Message>)
    ensures ValidMessages(list) <==>
            list != [] && forall i :: 0 <= i < |list| ==>
              && (list[i].role == "user" || list[i].role == "assistant")
              && (list[i].kind == "text" || list[i].kind == "tool" || list[i].kind == "error")
              && (list[i].attachments.Some? ==> forall k :: 0 <= k < |list[i].attachments.value| ==>
                    var a := list[i].attachments.value[k];
                    && a.id.Some? && a.name.Some? && a.sha256.Some?
                    && (a.kind == "image" || a.kind == "pdf" || a.kind == "spreadsheet" || a.kind == "audio" || a.kind == "other"))
  {
  }

  /** Dates reach 100 million days from the epoch either way; one message beyond stops the whole save. */
  lemma FarDateStops(accepts: Row -> bool, company: int, sid: int, list: seq<Message>, i: nat)
    requires i < |list| && (list[i].createdAt > 8_640_000_000_000_000.0 || list[i].createdAt < -8_640_000_000_000_000.0)
    ensures !Storable(accepts, Writer(company, sid), list, 0)
  {
    assert !InRange(list[i].createdAt);
  }

  /** Within them, a save is stopped only by a row the database does not take. */
  lemma NearDatesPass(accepts: Row -> bool, company: int, sid: int, list: seq<Message>)
    requires forall i :: 0 <= i < |list| ==> -8_640_000_000_000_000.0 <= list[i].createdAt <= 8_640_000_000_000_000.0
    ensures Storable(accepts, Writer(company, sid), list, 0) <==>
            forall i :: 0 <= i < |list| ==> accepts(RowOf(company, sid, list[i], i))
  {
    var rows := RowsFor(Writer(company, sid), list, 0);
    forall i | 0 <= i < |list| ensures rows[i] == RowOf(company, sid, list[i], i) {}
  }

  // ---------------------------------------------------------------- whose session it is

  /** A session of the caller's own is rewritten in place: no new session, its count that of the messages. */
  lemma OwnSessionIsRewritten(st: Store, who: Caller, sid: int, title: Option<string>, list: seq<Message>)
    requires Valid(st) && sid in st.sessions && st.sessions[sid].company == who.company && st.sessions[sid].user == who.user
    ensures SaveTarget(st, who, Some(sid)) == sid
    ensures var after := Saved(st, who, Some(sid), title, list);
            && after.sessions == st.sessions[sid := st.sessions[sid].(messageCount := |list|)]
            && (forall k :: k in after.messages && after.messages[k].session == sid && after.messages[k].company == who.company ==>
                  st.nextMessage <= k < st.nextMessage + |list|)
  {
    SaveRewritesSession(st, who, Some(sid), title, list);
  }

  /** A missing, stale or foreign session id leaves every session there is alone, messages included, and makes a new one for the caller. */
  lemma ForeignSessionIsSafe(st: Store, who: Caller, sessionId: Option<int>, title: Option<string>, list: seq<Message>)
    requires Valid(st)
    requires sessionId.Some? && sessionId.value in st.sessions ==>
               st.sessions[sessionId.value].company != who.company || st.sessions[sessionId.value].user != who.user
    ensures st.nextSession !in st.sessions && SaveTarget(st, who, sessionId) == st.nextSession
    ensures var after := Saved(st, who, sessionId, title, list);
            && after.sessions == st.sessions[st.nextSession := Session(who.company, who.user, title, |list|)]
            && forall k :: k in st.messages ==> k in after.messages && after.messages[k] == st.messages[k]
  {
    SaveRewritesSession(st, who, sessionId, title, list);
  }

  /** Nobody loads another user's session, or one of another company. */
  lemma ForeignLoadIsEmpty(st: Store, who: Caller, sid: int, order: seq<int>)
    requires Valid(st) && IsAnswer(st, who, sid, order)
    requires sid in st.sessions ==>
               st.sessions[sid].user != who.user || forall k :: k in st.messages && st.messages[k].session == sid ==> st.messages[k].company != who.company
    ensures order == []
  {
    var first: int := if order == [] then 0 else order[0];
    assert order != [] ==> first in Selected(st, who, sid);
    forall k: int ensures k !in Selected(st, who, sid) {}
  }

  /** A title of up to 200 characters is stored as it is, a longer one as its first 200. */
  lemma TitleIsCut(title: string)
    ensures |title| <= 200 ==> SafeTitle(Some(title)) == Some(title)
    ensures |title| > 200 ==> SafeTitle(Some(title)) == Some(title[..200])
  {
  }
}
