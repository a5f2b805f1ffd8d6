/** The conversation chain node. `init` composes the system message of the
    chat prompt from the documents' text and keeps the result in a
    module-level variable, so that successive `init` calls accumulate
    context; `run` turns the stored conversation into chat messages for the
    memory and calls the chain. */
module ConversationChainNode {
  import opened Js
  import opened Execution
  import opened Documents

  /** The initial value of the module-level system message. */
  const DefaultSystemMessage: string :=
    "The following is a friendly conversation between a human and an AI. The AI is talkative and provides lots of specific details from its context. If the AI does not know the answer to a question, it truthfully says it does not know."

  /** What separates the system message from appended document text. */
  const ContextHeader: string := "\nThe AI has the following context:\n"

  /** One element of the `document` list input: a document, or the list of
      documents another node returned. `flatten` removes one level. */
  datatype DocumentInput = Single(doc: Document) | Batch(docs: seq<Document>)

  /** The three messages of the chat prompt: the system template, the key
      of the history placeholder, and the human template. */
  datatype ChatPrompt = ChatPrompt(systemTemplate: string, historyKey: string, humanTemplate: string)

  /** A message of the memory's chat history. */
  datatype ChatMessage = AIMessage(content: string) | HumanMessage(content: string)

  // ---------------------------------------------------------------------------
  // init: the system message
  // ---------------------------------------------------------------------------

  /** `flatten(docs)`: the documents in input order, lists spliced in place. */
  function Flatten(inputs: seq<DocumentInput>): (docs: seq<Document>)
    ensures |docs| >= |inputs| - CountBatches(inputs)
    ensures forall i :: 0 <= i < |inputs| && inputs[i].Single? ==> inputs[i].doc in docs
    ensures forall i, d :: 0 <= i < |inputs| && inputs[i].Batch? && d in inputs[i].docs ==> d in docs
  {
    if inputs == [] then []
    else
      Flatten(inputs[..|inputs| - 1]) + Spliced(inputs[|inputs| - 1])
  }

  /** The documents one input contributes: itself, or the list's members. */
  function Spliced(input: DocumentInput): (docs: seq<Document>)
    ensures input.Single? ==> docs == [input.doc]
    ensures input.Batch? ==> docs == input.docs
  {
    if input.Single? then [input.doc] else input.docs
  }

  /** How many of the inputs are lists. */
  function CountBatches(inputs: seq<DocumentInput>): nat
  {
    if inputs == [] then 0
    else CountBatches(inputs[..|inputs| - 1]) + (if inputs[|inputs| - 1].Batch? then 1 else 0)
  }

  /** The text of the documents: their `pageContent`, in order, with no separator. */
  function ContextText(docs: seq<Document>): (text: string)
    ensures docs == [] ==> text == ""
    ensures |docs| == 1 ==> text == docs[0].pageContent
  {
    if docs == [] then "" else ContextText(docs[..|docs| - 1]) + docs[|docs| - 1].pageContent
  }

  /** The two loops of `init`: flatten the input, then concatenate the texts. */
  method DocumentText(inputs: seq<DocumentInput>) returns (finalText: string)
    ensures finalText == ContextText(Flatten(inputs))
  {
    var finalDocs: seq<Document> := [];
    for i := 0 to |inputs|
      invariant finalDocs == Flatten(inputs[..i])
    {
      assert inputs[..i + 1][..i] == inputs[..i];
      match inputs[i]
      case Single(d) => finalDocs := finalDocs + [d];
      case Batch(ds) => finalDocs := finalDocs + ds;
    }
    assert inputs[..|inputs|] == inputs;
    finalText := "";
    for i := 0 to |finalDocs|
      invariant finalText == ContextText(finalDocs[..i])
    {
      assert finalDocs[..i + 1][..i] == finalDocs[..i];
      finalText := finalText + finalDocs[i].pageContent;
    }
    assert finalDocs[..|finalDocs|] == finalDocs;
  }

  /** The system message after one `init` with document text `text`. */
  function Appended(systemMessage: string, text: string): (r: string)
    ensures systemMessage <= r
    ensures r == systemMessage <==> text == ""
  {
    if text != "" then systemMessage + ContextHeader + text else systemMessage
  }

  /** The system message after a series of `init` calls, one text each. */
  function Accumulated(systemMessage: string, texts: seq<string>): (r: string)
    ensures systemMessage <= r
    ensures (forall i :: 0 <= i < |texts| ==> texts[i] == "") ==> r == systemMessage
  {
    if texts == [] then systemMessage
    else Appended(Accumulated(systemMessage, texts[..|texts| - 1]), texts[|texts| - 1])
  }

  /** The system template: the node's own prompt, when given, on the line
      before the system message. */
  function SystemTemplate(prompt: string, systemMessage: string): (t: string)
    ensures |t| >= |systemMessage| && t[|t| - |systemMessage|..] == systemMessage
    ensures prompt == "" ==> t == systemMessage
    ensures prompt != "" ==> |t| == |prompt| + 1 + |systemMessage| && t[..|prompt| + 1] == prompt + "\n"
  {
    if prompt != "" then prompt + "\n" + systemMessage else systemMessage
  }

  /** `memory.memoryKey ?? 'chat_history'` */
  function HistoryKey(memoryKey: Option<string>): (key: string)
    ensures memoryKey.None? ==> key == "chat_history"
    ensures memoryKey.Some? ==> key == memoryKey.value
  {
    match memoryKey
    case Some(k) => k
    case None => "chat_history"
  }

  /** The module that holds the node: its one variable is the system message. */
  class ConversationModule {
    var systemMessage: string

    constructor()
      ensures systemMessage == DefaultSystemMessage
    {
      systemMessage := DefaultSystemMessage;
    }

    /** `init`: append the document text to the system message, then build
        the chat prompt from it. */
    method Init(prompt: string, document: seq<DocumentInput>, memoryKey: Option<string>) returns (p: ChatPrompt)
      modifies this
      ensures systemMessage == Appended(old(systemMessage), ContextText(Flatten(document)))
      ensures p == ChatPrompt(SystemTemplate(prompt, systemMessage), HistoryKey(memoryKey), "{input}")
    {
      var finalText := DocumentText(document);
      if finalText != "" {
        systemMessage := systemMessage + ContextHeader + finalText;
      }
      var system := if prompt != "" then prompt + "\n" + systemMessage else systemMessage;
      p := ChatPrompt(system, HistoryKey(memoryKey), "{input}");
    }
  }

  /** `flatten` distributes over concatenation of the input list. */
  lemma {:induction false} FlattenAppend(a: seq<DocumentInput>, b: seq<DocumentInput>)
    ensures Flatten(a + b) == Flatten(a) + Flatten(b)
    decreases |b|
  {
    if b == [] {
      assert a + b == a;
    } else {
      var front, last := b[..|b| - 1], b[|b| - 1];
      assert (a + b)[..|a + b| - 1] == a + front;
      assert (a + b)[|a + b| - 1] == last;
      assert Flatten(a + b) == Flatten(a + front) + Spliced(last);
      FlattenAppend(a, front);
      assert Flatten(b) == Flatten(front) + Spliced(last);
    }
  }

  /** The document text of a concatenation is the concatenation of the texts. */
  lemma {:induction false} ContextTextAppend(a: seq<Document>, b: seq<Document>)
    ensures ContextText(a + b) == ContextText(a) + ContextText(b)
    decreases |b|
  {
    if b == [] {
      assert a + b == a;
    } else {
      assert (a + b)[..|a + b| - 1] == a + b[..|b| - 1];
      ContextTextAppend(a, b[..|b| - 1]);
    }
  }

  /** Documents whose text is empty add nothing, so `init` with only such
      documents, or with none, leaves the system message as it was. */
  lemma {:induction false} EmptyDocumentsAddNothing(docs: seq<Document>)
    requires forall i :: 0 <= i < |docs| ==> docs[i].pageContent == ""
    ensures ContextText(docs) == ""
  {
    if docs != [] {
      EmptyDocumentsAddNothing(docs[..|docs| - 1]);
    }
  }

  /** Accumulation never forgets: every earlier system message is a prefix
      of every later one. */
  lemma {:induction false} AccumulatedExtends(systemMessage: string, texts: seq<string>)
    ensures systemMessage <= Accumulated(systemMessage, texts)
  {
    if texts != [] {
      AccumulatedExtends(systemMessage, texts[..|texts| - 1]);
    }
  }

  /** A series of `init` calls can be split anywhere: the later calls start
      from what the earlier ones left. */
  lemma {:induction false} AccumulatedAppend(systemMessage: string, a: seq<string>, b: seq<string>)
    ensures Accumulated(systemMessage, a + b) == Accumulated(Accumulated(systemMessage, a), b)
    decreases |b|
  {
    if b == [] {
      assert a + b == a;
    } else {
      assert (a + b)[..|a + b| - 1] == a + b[..|b| - 1];
      AccumulatedAppend(systemMessage, a, b[..|b| - 1]);
    }
  }

  /** Two `init` calls with document text each leave both texts behind, each
      under its own header: the context of a previous flow is not replaced. */
  lemma TwoInitsAccumulate(t1: string, t2: string)
    requires t1 != "" && t2 != ""
    ensures Accumulated(DefaultSystemMessage, [t1, t2])
         == DefaultSystemMessage + ContextHeader + t1 + ContextHeader + t2
  {
    assert [t1, t2][..1] == [t1];
    assert [t1][..0] == [];
    assert Accumulated(DefaultSystemMessage, []) == DefaultSystemMessage;
    var once := Accumulated(DefaultSystemMessage, [t1]);
    assert once == DefaultSystemMessage + ContextHeader + t1;
    assert Accumulated(DefaultSystemMessage, [t1, t2]) == once + ContextHeader + t2;
  }

  // ---------------------------------------------------------------------------
  // run: the chat history
  // ---------------------------------------------------------------------------

  /** The message an entry becomes, if its type is one of the two known. */
  function MessageOf(entry: HistoryMessage): (m: Option<ChatMessage>)
    ensures m.Some? <==> entry.kind == "apiMessage" || entry.kind == "userMessage"
    ensures m.Some? ==> m.value.content == entry.message
    ensures m.Some? ==> (m.value.AIMessage? <==> entry.kind == "apiMessage")
  {
    if entry.kind == "apiMessage" then Some(AIMessage(entry.message))
    else if entry.kind == "userMessage" then Some(HumanMessage(entry.message))
    else None
  }

  /** The chat history built from the stored conversation. */
  function Converted(histories: seq<HistoryMessage>): (r: seq<ChatMessage>)
    ensures |r| <= |histories|
  {
    if histories == [] then []
    else
      var m := MessageOf(histories[|histories| - 1]);
      Converted(histories[..|histories| - 1]) + (if m.Some? then [m.value] else [])
  }

  /** The loop of `run` that builds the chat history. */
  method ConvertHistory(histories: seq<HistoryMessage>) returns (chatHistory: seq<ChatMessage>)
    ensures chatHistory == Converted(histories)
  {
    chatHistory := [];
    for i := 0 to |histories|
      invariant chatHistory == Converted(histories[..i])
    {
      assert histories[..i + 1][..i] == histories[..i];
      var message := histories[i];
      if message.kind == "apiMessage" {
        chatHistory := chatHistory + [AIMessage(message.message)];
      } else if message.kind == "userMessage" {
        chatHistory := chatHistory + [HumanMessage(message.message)];
      }
    }
    assert histories[..|histories|] == histories;
  }

  /** Conversion works entry by entry: the conversions of two parts of a
      conversation are concatenated in order. */
  lemma {:induction false} ConvertedAppend(a: seq<HistoryMessage>, b: seq<HistoryMessage>)
    ensures Converted(a + b) == Converted(a) + Converted(b)
    decreases |b|
  {
    if b == [] {
      assert a + b == a;
    } else {
      assert (a + b)[..|a + b| - 1] == a + b[..|b| - 1];
      ConvertedAppend(a, b[..|b| - 1]);
    }
  }

  /** A conversation of known entries keeps its length and its order: the
      i-th message is the i-th entry's, with the AI and human roles kept. */
  lemma {:induction false} ConvertedKnown(histories: seq<HistoryMessage>)
    requires forall i :: 0 <= i < |histories| ==> MessageOf(histories[i]).Some?
    ensures |Converted(histories)| == |histories|
    ensures forall i :: 0 <= i < |histories| ==> Some(Converted(histories)[i]) == MessageOf(histories[i])
  {
    if histories != [] {
      ConvertedKnown(histories[..|histories| - 1]);
    }
  }

  /** Entries of any other type are dropped. */
  lemma {:induction false} ConvertedUnknown(histories: seq<HistoryMessage>)
    requires forall i :: 0 <= i < |histories| ==> histories[i].kind != "apiMessage" && histories[i].kind != "userMessage"
    ensures Converted(histories) == []
  {
    if histories != [] {
      ConvertedUnknown(histories[..|histories| - 1]);
    }
  }

  /** The library's buffer memory: the node replaces its chat history. */
  class BufferMemory {
    var chatHistory: seq<ChatMessage>

    constructor(history: seq<ChatMessage>)
      ensures chatHistory == history
    {
      chatHistory := history;
    }
  }

  /** The chain instance `init` returned; `run` may point it at the memory. */
  class ConversationChainInstance {
    var memory: BufferMemory

    constructor(m: BufferMemory)
      ensures memory == m
    {
      memory := m;
    }
  }

  /** `res?.response` */
  function ResponseOf(res: Option<Value>): Value
  {
    match res
    case Some(response) => response
    case None => Undefined
  }

  /** `run`. `call` stands for the library's `chain.call`, given the input,
      the memory's history at the time of the call and the handlers; it
      returns the response field of the result, or `None` for a nullish result. */
  method Run(chain: ConversationChainInstance, memory: BufferMemory, input: string, options: ExecOptions,
             call: (string, seq<ChatMessage>, seq<Handler>) -> Option<Value>)
    returns (r: Value)
    modifies chain, memory
    ensures options.chatHistory.Some? ==>
              memory.chatHistory == Converted(options.chatHistory.value) && chain.memory == memory
    ensures options.chatHistory.None? ==>
              memory.chatHistory == old(memory.chatHistory) && chain.memory == old(chain.memory)
    ensures r == ResponseOf(call(input, chain.memory.chatHistory, Callbacks(options)))
  {
    if options.chatHistory.Some? {
      var chatHistory := ConvertHistory(options.chatHistory.value);
      memory.chatHistory := chatHistory;
      chain.memory := memory;
    }
    var handlers := Callbacks(options);
    r := ResponseOf(call(input, chain.memory.chatHistory, handlers));
  }
}
