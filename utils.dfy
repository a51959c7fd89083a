/**
 * The chat helpers: `write_message`, which records a message in the
 * session's transcript and draws it, and `get_session_id`, which names the
 * browser session or falls back to a fixed placeholder.
 */
module Utils {
  import opened Wrappers

  datatype Role = User | Assistant

  /** One transcript entry, the `{"role": ..., "content": ...}` dictionary. */
  datatype Message = Message(role: Role, content: string)

  /** The arguments of one `write_message(role, content, save)` call. */
  datatype WriteCall = WriteCall(role: Role, content: string, save: bool)

  /** The transcript after one write: the message is appended only when saved. */
  function Append(log: seq<Message>, call: WriteCall): (r: seq<Message>)
    ensures call.save ==> |r| == |log| + 1 && r[|log|] == Message(call.role, call.content)
    ensures !call.save ==> r == log
    ensures r[..|log|] == log
  {
    if call.save then log + [Message(call.role, call.content)] else log
  }

  /** The transcript after a series of writes, in call order. */
  function AfterWrites(log: seq<Message>, calls: seq<WriteCall>): (after: seq<Message>)
    ensures |log| <= |after| <= |log| + |calls|
    ensures after[..|log|] == log
    decreases |calls|
  {
    if calls == [] then log
    else Append(AfterWrites(log, calls[..|calls| - 1]), calls[|calls| - 1])
  }

  /** The messages of the saved calls only, in call order. */
  function SavedMessages(calls: seq<WriteCall>): (saved: seq<Message>)
    ensures |saved| <= |calls|
    decreases |calls|
  {
    if calls == [] then []
    else
      var last := calls[|calls| - 1];
      SavedMessages(calls[..|calls| - 1]) + (if last.save then [Message(last.role, last.content)] else [])
  }

  /** Writes only ever add the saved messages at the end: earlier entries are never changed or reordered. */
  lemma {:induction false} AfterWritesAppendsSaved(log: seq<Message>, calls: seq<WriteCall>)
    ensures AfterWrites(log, calls) == log + SavedMessages(calls)
    decreases |calls|
  {
    if calls != [] {
      AfterWritesAppendsSaved(log, calls[..|calls| - 1]);
    }
  }

  /** N saved writes grow the transcript by exactly N entries, in call order. */
  lemma {:induction false} SavedWritesGrowByCount(log: seq<Message>, calls: seq<WriteCall>)
    requires forall k :: 0 <= k < |calls| ==> calls[k].save
    ensures |AfterWrites(log, calls)| == |log| + |calls|
    ensures AfterWrites(log, calls)[..|log|] == log
    ensures forall k :: 0 <= k < |calls| ==>
              AfterWrites(log, calls)[|log| + k] == Message(calls[k].role, calls[k].content)
    decreases |calls|
  {
    if calls != [] {
      SavedWritesGrowByCount(log, calls[..|calls| - 1]);
    }
  }

  /** Unsaved writes (history replay) leave the transcript as it was. */
  lemma {:induction false} UnsavedWritesKeepLog(log: seq<Message>, calls: seq<WriteCall>)
    requires forall k :: 0 <= k < |calls| ==> !calls[k].save
    ensures AfterWrites(log, calls) == log
    decreases |calls|
  {
    if calls != [] {
      UnsavedWritesKeepLog(log, calls[..|calls| - 1]);
    }
  }

  /**
   * Streamlit's per-browser-session state as far as the chat uses it.
   * `hasMessages` says whether the key "messages" exists; `messages` is the
   * saved transcript; `shown` is the sequence of chat bubbles drawn by
   * `st.chat_message(role)` / `st.markdown(content)`, kept only as a log.
   */
  class SessionState {
    var hasMessages: bool
    var messages: seq<Message>
    var shown: seq<Message>

    /** A fresh browser session: no "messages" key, nothing drawn yet. */
    constructor ()
      ensures !hasMessages && messages == [] && shown == []
    {
      hasMessages := false;
      messages := [];
      shown := [];
    }

    /**
     * `write_message(role, content, save)`: appends `{role, content}` to the
     * transcript when `save` is set, and always draws the message.
     * Saving needs the "messages" key to exist.
     */
    method WriteMessage(role: Role, content: string, save: bool)
      requires save ==> hasMessages
      modifies this
      ensures hasMessages == old(hasMessages)
      ensures messages == Append(old(messages), WriteCall(role, content, save))
      ensures shown == old(shown) + [Message(role, content)]
    {
      if save {
        messages := messages + [Message(role, content)];
      }
      shown := shown + [Message(role, content)];
    }
  }

  /** The script-run context Streamlit hands out, reduced to its session id. */
  datatype ScriptRunContext = ScriptRunContext(sessionId: string)

  /** The outcome of looking the context up: it raised, or returned a context or `None`. */
  datatype ContextLookup = Raised | Returned(ctx: Option<ScriptRunContext>)

  const FallbackSessionId: string := "unknown-session"

  /** `get_session_id()`: the context's session id if there is a context, else the placeholder. */
  function GetSessionId(lookup: ContextLookup): (id: string)
    ensures lookup.Returned? && lookup.ctx.Some? ==> id == lookup.ctx.value.sessionId
    ensures lookup.Raised? || lookup.ctx.None? ==> id == FallbackSessionId
  {
    match lookup
    case Returned(Some(ctx)) => ctx.sessionId
    case _ => FallbackSessionId
  }
}
