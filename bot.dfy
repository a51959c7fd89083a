/**
 * The chat page script: seeding the transcript with a greeting, replaying
 * it, and the submit handler that writes the agent's answer followed by a
 * Markdown "References" block built from the retrieved documents.
 */
module Bot {
  import opened Wrappers
  import opened Decimal
  import opened Utils

  /** A document's metadata dictionary, with string keys and string values. */
  type Metadata = map<string, string>

  /** One retrieved document: a dictionary that may carry a "metadata" entry. */
  datatype Doc = Doc(metadata: Option<Metadata>)

  /** The agent's structured reply: an optional "answer" and an optional "context" list. */
  datatype Response = Response(answer: Option<string>, context: Option<seq<Doc>>)

  /** The outcome of `generate_response(message)`: the agent call raised, or it returned a reply. */
  datatype AgentCall = Failed | Answered(response: Response)

  const Greeting: string := "Hi, I'm Dr. Tsai Chatbot! How can I help you?"
  const DefaultAnswer: string := "I'm not sure."
  const ReferencesHeader: string := "**References:**\n"
  const PlaceholderPrefix: string := "Source "

  /** `response.get("answer", "I'm not sure.")` */
  function AnswerText(resp: Response): (answer: string)
    ensures resp.answer.Some? ==> answer == resp.answer.value
    ensures resp.answer.None? ==> answer == DefaultAnswer
  {
    resp.answer.GetOr(DefaultAnswer)
  }

  /** `response.get("context", [])` */
  function ContextDocs(resp: Response): (docs: seq<Doc>)
    ensures resp.context.Some? ==> docs == resp.context.value
    ensures resp.context.None? ==> docs == []
  {
    resp.context.GetOr([])
  }

  /** `doc.get("metadata", {})` */
  function MetadataOf(doc: Doc): (meta: Metadata)
    ensures doc.metadata.Some? ==> meta == doc.metadata.value
    ensures doc.metadata.None? ==> meta == map[]
  {
    doc.metadata.GetOr(map[])
  }

  /** The 1-based placeholder `f"Source {i+1}"` for the document at 0-based index i. */
  function Placeholder(i: nat): (name: string)
    ensures |name| > |PlaceholderPrefix| && name[..|PlaceholderPrefix|] == PlaceholderPrefix
  {
    PlaceholderPrefix + DecimalString(i + 1)
  }

  /** A placeholder is "Source " followed by the decimal digits of the 1-based position. */
  lemma PlaceholderOneBased(i: nat)
    ensures PlaceholderPrefix <= Placeholder(i)
    ensures AllDigits(Placeholder(i)[|PlaceholderPrefix|..])
    ensures ParseDecimal(Placeholder(i)[|PlaceholderPrefix|..]) == i + 1
    ensures Placeholder(i)[|PlaceholderPrefix|] != '0'
  {
    ParseDecimalString(i + 1);
    assert Placeholder(i)[|PlaceholderPrefix|..] == DecimalString(i + 1);
  }

  /** Placeholders of different positions never coincide. */
  lemma PlaceholderInjective(i: nat, j: nat)
    ensures Placeholder(i) == Placeholder(j) <==> i == j
  {
    PlaceholderOneBased(i);
    PlaceholderOneBased(j);
    if Placeholder(i) == Placeholder(j) {
      assert ParseDecimal(Placeholder(i)[|PlaceholderPrefix|..]) == ParseDecimal(Placeholder(j)[|PlaceholderPrefix|..]);
    }
  }

  /** `meta.get("name", f"Source {i+1}")` */
  function DisplayName(i: nat, meta: Metadata): (name: string)
    ensures "name" in meta ==> name == meta["name"]
    ensures "name" !in meta ==> name == Placeholder(i)
  {
    if "name" in meta then meta["name"] else Placeholder(i)
  }

  /**
   * `meta.get("source") or meta.get("source_url")`: "source" when present and
   * non-empty, otherwise whatever "source_url" holds (None when it is absent).
   */
  function SourceUrl(meta: Metadata): (url: Option<string>)
    ensures "source" in meta && meta["source"] != "" ==> url == Some(meta["source"])
    ensures ("source" !in meta || meta["source"] == "") && "source_url" in meta ==> url == Some(meta["source_url"])
    ensures url.None? <==> ("source" !in meta || meta["source"] == "") && "source_url" !in meta
  {
    if "source" in meta && meta["source"] != "" then Some(meta["source"])
    else if "source_url" in meta then Some(meta["source_url"])
    else None
  }

  /** `url and url.startswith("http")` */
  predicate IsLinkUrl(url: Option<string>)
    ensures IsLinkUrl(url) <==> url.Some? && "http" <= url.value
  {
    url.Some? && url.value != "" && |url.value| >= 4 && url.value[..4] == "http"
  }

  /** The Markdown bullet for the document at 0-based index i. */
  function Line(i: nat, doc: Doc): (line: string)
  {
    var meta := MetadataOf(doc);
    var name := DisplayName(i, meta);
    var url := SourceUrl(meta);
    if IsLinkUrl(url) then "- [" + name + "](" + url.value + ")\n" else "- " + name + "\n"
  }

  /**
   * Every bullet opens with "- " and ends the line; it is the link form
   * `- [name](url)` exactly when the URL is usable and `- name` otherwise.
   */
  lemma LineShape(i: nat, doc: Doc)
    ensures var line := Line(i, doc);
            |line| >= 3 && line[..2] == "- " && line[|line| - 1] == '\n'
    ensures var meta := MetadataOf(doc);
            var url := SourceUrl(meta);
            IsLinkUrl(url) <==> url.Some? && Line(i, doc) == "- [" + DisplayName(i, meta) + "](" + url.value + ")\n"
    ensures !IsLinkUrl(SourceUrl(MetadataOf(doc))) ==> Line(i, doc) == "- " + DisplayName(i, MetadataOf(doc)) + "\n"
  {
  }

  /**
   * When the name does not itself open with '[', a line is a Markdown link
   * exactly when the document's URL is usable.
   */
  lemma LineIsLinkIff(i: nat, doc: Doc)
    requires var name := DisplayName(i, MetadataOf(doc)); name == "" || name[0] != '['
    ensures Line(i, doc)[2] == '[' <==> IsLinkUrl(SourceUrl(MetadataOf(doc)))
  {
  }

  /** One bullet per document, in input order. */
  function RefLines(docs: seq<Doc>): (lines: seq<string>)
    ensures |lines| == |docs|
    ensures forall k {:trigger lines[k]} :: 0 <= k < |docs| ==> lines[k] == Line(k, docs[k])
    decreases |docs|
  {
    if docs == [] then []
    else
      var front := docs[..|docs| - 1];
      assert forall k :: 0 <= k < |front| ==> front[k] == docs[k];
      RefLines(front) + [Line(|front|, docs[|front|])]
  }

  /** The `+=` accumulation of the parts, in order. */
  function Concat(parts: seq<string>): string
    decreases |parts|
  {
    if parts == [] then "" else Concat(parts[..|parts| - 1]) + parts[|parts| - 1]
  }

  /** The whole references message: the header, then every bullet in order. */
  function ReferencesText(docs: seq<Doc>): (text: string)
    ensures ReferencesHeader <= text
  {
    ReferencesHeader + Concat(RefLines(docs))
  }

  /** Adding one more document appends exactly its bullet. */
  lemma ReferencesTextSnoc(docs: seq<Doc>, doc: Doc)
    ensures ReferencesText(docs + [doc]) == ReferencesText(docs) + Line(|docs|, doc)
  {
    var lines := RefLines(docs + [doc]);
    assert lines[..|docs|] == RefLines(docs);
    assert lines == lines[..|docs|] + [lines[|docs|]];
  }

  /** The references for the first k documents are a prefix of those for all of them. */
  lemma {:induction false} ReferencesTextPrefix(docs: seq<Doc>, k: nat)
    requires k <= |docs|
    ensures ReferencesText(docs[..k]) <= ReferencesText(docs)
    decreases |docs| - k
  {
    if k < |docs| {
      ReferencesTextPrefix(docs, k + 1);
      assert docs[..k + 1] == docs[..k] + [docs[k]];
      ReferencesTextSnoc(docs[..k], docs[k]);
      var shorter, longer := ReferencesText(docs[..k]), ReferencesText(docs[..k + 1]);
      assert longer == shorter + Line(k, docs[k]);
      assert shorter <= longer;
    } else {
      assert docs[..k] == docs;
    }
  }

  /** The bullet of document i comes right after the bullets of documents 0 .. i-1. */
  lemma LineInPlace(docs: seq<Doc>, i: nat)
    requires i < |docs|
    ensures ReferencesText(docs[..i]) + Line(i, docs[i]) <= ReferencesText(docs)
  {
    assert docs[..i + 1] == docs[..i] + [docs[i]];
    ReferencesTextSnoc(docs[..i], docs[i]);
    ReferencesTextPrefix(docs, i + 1);
  }

  /** The `for i, doc in enumerate(context_docs)` loop that grows `references`. */
  method BuildReferences(docs: seq<Doc>) returns (references: string)
    ensures references == ReferencesText(docs)
  {
    references := ReferencesHeader;
    var i := 0;
    while i < |docs|
      invariant 0 <= i <= |docs|
      invariant references == ReferencesText(docs[..i])
    {
      var meta := MetadataOf(docs[i]);
      var name := DisplayName(i, meta);
      var url := SourceUrl(meta);
      ghost var done := references;
      if IsLinkUrl(url) {
        references := references + ("- [" + name + "](" + url.value + ")\n");
      } else {
        references := references + ("- " + name + "\n");
      }
      assert references == done + Line(i, docs[i]);
      assert docs[..i + 1] == docs[..i] + [docs[i]];
      ReferencesTextSnoc(docs[..i], docs[i]);
      assert references == ReferencesText(docs[..i + 1]);
      i := i + 1;
    }
    assert docs[..i] == docs;
  }

  /** The messages one submit adds to the transcript, in order. */
  function SubmitMessages(resp: Response): (added: seq<Message>)
    ensures 1 <= |added| <= 2
    ensures added[0] == Message(Assistant, AnswerText(resp))
    ensures |added| == 2 <==> ContextDocs(resp) != []
    ensures |added| == 2 ==> added[1] == Message(Assistant, ReferencesText(ContextDocs(resp)))
  {
    var docs := ContextDocs(resp);
    [Message(Assistant, AnswerText(resp))]
      + (if docs != [] then [Message(Assistant, ReferencesText(docs))] else [])
  }

  /** The seeding at the top of the script: a greeting when there is no transcript yet. */
  method SeedMessages(state: SessionState)
    modifies state
    ensures state.hasMessages
    ensures old(state.hasMessages) ==> state.messages == old(state.messages)
    ensures !old(state.hasMessages) ==> state.messages == [Message(Assistant, Greeting)]
    ensures state.shown == old(state.shown)
  {
    if !state.hasMessages {
      state.hasMessages := true;
      state.messages := [Message(Assistant, Greeting)];
    }
  }

  /** The `write_message(role, content, save=False)` calls that replay `history`, in order. */
  function ReplayCalls(history: seq<Message>): (calls: seq<WriteCall>)
    ensures |calls| == |history|
    ensures forall k :: 0 <= k < |calls| ==> calls[k] == WriteCall(history[k].role, history[k].content, false)
  {
    seq(|history|, k requires 0 <= k < |history| => WriteCall(history[k].role, history[k].content, false))
  }

  /** Redraws every saved message with `save=False`. */
  method ReplayHistory(state: SessionState)
    requires state.hasMessages
    modifies state
    ensures state.hasMessages
    ensures state.messages == old(state.messages)
    ensures state.messages == AfterWrites(old(state.messages), ReplayCalls(old(state.messages)))
    ensures state.shown == old(state.shown) + state.messages
  {
    var history := state.messages;
    var i := 0;
    while i < |history|
      invariant 0 <= i <= |history|
      invariant state.hasMessages && state.messages == history
      invariant state.shown == old(state.shown) + history[..i]
    {
      state.WriteMessage(history[i].role, history[i].content, false);
      assert history[..i + 1] == history[..i] + [history[i]];
      i := i + 1;
    }
    assert history[..i] == history;
    UnsavedWritesKeepLog(history, ReplayCalls(history));
  }

  /** The messages a submit adds: none when the agent call raised, else the submit's messages. */
  function SubmitOutcome(call: AgentCall): (added: seq<Message>)
    ensures call.Failed? <==> added == []
    ensures call.Answered? ==> added == SubmitMessages(call.response)
  {
    match call
    case Failed => []
    case Answered(resp) => SubmitMessages(resp)
  }

  /**
   * `handle_submit`, given the outcome of its agent call: when the call raised,
   * the error ends the turn and nothing is written; otherwise it writes the
   * answer, then the references when there are documents.
   */
  method HandleSubmit(state: SessionState, call: AgentCall)
    requires state.hasMessages
    modifies state
    ensures state.hasMessages
    ensures state.messages == old(state.messages) + SubmitOutcome(call)
    ensures state.shown == old(state.shown) + SubmitOutcome(call)
  {
    if call.Failed? {
      return;
    }
    var resp := call.response;
    var answer := AnswerText(resp);
    var docs := ContextDocs(resp);
    state.WriteMessage(Assistant, answer, true);
    if docs != [] {
      var references := BuildReferences(docs);
      state.WriteMessage(Assistant, references, true);
    }
  }

  /**
   * One run of the page script: seed, replay, and, when the chat input holds
   * a non-empty question, record it and handle the agent's reply to it. The
   * run draws exactly the transcript it leaves. When the agent call raises,
   * the saved transcript ends with the unanswered question.
   */
  method RunScript(state: SessionState, question: Option<string>, agent: string -> AgentCall)
    modifies state
    ensures state.hasMessages
    ensures var seeded := if old(state.hasMessages) then old(state.messages) else [Message(Assistant, Greeting)];
            state.messages ==
              if question.Some? && question.value != "" then
                seeded + [Message(User, question.value)] + SubmitOutcome(agent(question.value))
              else seeded
    ensures question.Some? && question.value != "" && agent(question.value).Failed? ==>
              state.messages[|state.messages| - 1] == Message(User, question.value)
    ensures state.shown == old(state.shown) + state.messages
  {
    SeedMessages(state);
    ghost var seeded := state.messages;
    ReplayHistory(state);
    assert state.messages == seeded && state.shown == old(state.shown) + seeded;
    if question.Some? && question.value != "" {
      state.WriteMessage(User, question.value, true);
      ghost var asked := seeded + [Message(User, question.value)];
      assert state.messages == asked && state.shown == old(state.shown) + asked;
      HandleSubmit(state, agent(question.value));
    }
  }
}
