# Chat-flow node logic, modelled in Dafny

This project models the decision logic of a set of chat-flow nodes and one
view of a visual LLM-application builder. Each node wraps a chain, a prompt,
a tool, a document loader, a model or a text splitter from an LLM framework.
The model covers:

- **LLM chain** (`LLMChainNode`). `runPrediction` resolves the prompt
  template's variables against the fixed prompt values and the user's
  question. It then makes exactly one request of the chain (`run` with the
  question, or `call` with a value map), or throws before making any. `init`
  picks between returning the chain and returning a prediction.
- **Conversation chain** (`ConversationChainNode`). `init` appends document
  text to the module-level system message, so the text accumulates across
  calls. `run` converts a stored conversation into AI and human messages for
  the memory.
- **Chat prompt template** (`ChatPromptTemplateNode`). Every whitespace
  character is removed from the prompt-values text before it is parsed.
- **Custom tool** (`CustomToolNode`). It converts a tool's schema list into
  a field map, lists the stored tools, and reports a missing tool as an error.
- **Document loaders** (`Documents` and one module per loader). They detect
  a file list, extract the base64 payload of each data URI, trim the column
  name or pointer, concatenate the documents in file order and overlay the
  metadata.
- **Option builders** (`OpenAINode`, `ChatOpenAINode`,
  `MarkdownTextSplitterNode`). Each integer field is set only from a truthy
  input, through `parseInt(_, 10)`.
- **Chatbot sharing view** (`ShareChatbotView`). It covers the initial form
  state with its `??` fallbacks, the `formatObj` serialiser, the colour, text
  and switch handlers, and the share URL.

Shared modules hold the JavaScript semantics the nodes rely on:

- `Js`: truthiness, `??`, `Error` objects and rethrowing.
- `JsStrings`: the `\s` class, `trim`, `split` on one character, `join`.
- `JsNumbers`: `parseInt` and `String(n)`.
- `Execution`: the options of a run and the callback handlers built from them.

Calls into the LLM framework, `JSON.parse`, the database and the file system
are parameters of function type. The model states what is handed to them and
what is done with their results.

Three behaviours of the code are worth naming, and the model keeps each:

- `LLMChain.ts:108` runs the chain with the question whenever the template
  has exactly one variable, whatever the prompt values hold
  (`LLMChainNode.OneVariableRunsWithInput`).
- The conversation chain keeps its system message in a module-level
  variable (`ConversationChain.ts:12`). Every `init` that finds document
  text extends it (`ConversationChain.ts:82`), so the text accumulates
  across calls (`ConversationChainNode.ConversationModule`,
  `ConversationChainNode.TwoInitsAccumulate`).
- With a single unbound variable whose name is empty, the code throws
  "Please provide Prompt Values" (`LLMChain.ts:141`).

## Model

| member | source | states |
|---|---|---|
| Js.Rethrow | packages/components/nodes/tools/CustomTool/CustomTool.ts:82-84 | `throw new Error(e)` gives a plain `Error` whose message is the caught error's `name: message` |
| Js.Truthy | packages/components/nodes/chains/LLMChain/LLMChain.ts:122 | `undefined` and `null` are falsy, and an object is always truthy |
| Js.Coalesce | packages/components/nodes/llms/OpenAI/OpenAI.ts:140 | `v ?? d` is `d` exactly when `v` is `undefined` or `null`, and `v` otherwise |
| Js.ErrorToString | packages/components/nodes/tools/CustomTool/CustomTool.ts:82-84 | the text of an error is `name: message`, or the one of the two that is not empty |
| JsStrings.StripWhitespaceRemovesAll | packages/components/nodes/prompts/ChatPromptTemplate/ChatPromptTemplate.ts:63 | after `replace(/\s/g, '')` no whitespace character is left |
| JsStrings.StripWhitespace | packages/components/nodes/prompts/ChatPromptTemplate/ChatPromptTemplate.ts:63 | `replace(/\s/g, '')` never makes the text longer |
| JsStrings.StripWhitespaceKeepsClean | packages/components/nodes/prompts/ChatPromptTemplate/ChatPromptTemplate.ts:63 | a text without whitespace is unchanged by the replacement |
| JsStrings.StripWhitespaceAppend | packages/components/nodes/prompts/ChatPromptTemplate/ChatPromptTemplate.ts:63 | the replacement works piecewise, so the surviving characters keep their order |
| JsStrings.StripWhitespaceChar | packages/components/nodes/prompts/ChatPromptTemplate/ChatPromptTemplate.ts:63 | a single character survives exactly when it is not whitespace |
| JsStrings.StripWhitespaceIdempotent | packages/components/nodes/prompts/ChatPromptTemplate/ChatPromptTemplate.ts:63 | stripping twice is stripping once |
| JsStrings.TrimStart | packages/components/nodes/documentloaders/Csv/Csv.ts:76 | the result is a suffix, everything removed is whitespace, and the result does not start with whitespace |
| JsStrings.TrimEnd | packages/components/nodes/documentloaders/Csv/Csv.ts:76 | the result is a prefix, everything removed is whitespace, and the result does not end with whitespace |
| JsStrings.Trim | packages/components/nodes/documentloaders/Csv/Csv.ts:76 | `trim()` is blank exactly when the text is all whitespace; otherwise it starts and ends with other characters |
| JsStrings.TrimPadded | packages/components/nodes/documentloaders/Csv/Csv.ts:76 | `trim()` removes exactly the whitespace padding around a core |
| JsStrings.TrimIdempotent | packages/components/nodes/documentloaders/Csv/Csv.ts:76 | trimming twice is trimming once |
| JsStrings.Split | packages/components/nodes/documentloaders/Csv/Csv.ts:72 | `split(',')` gives at least one part, and no part contains the separator |
| JsStrings.Join | packages/components/nodes/chains/LLMChain/LLMChain.ts:155 | joining no parts gives '', one part gives that part, and more parts start with the first part and the separator |
| JsStrings.JoinSplit | packages/components/nodes/documentloaders/Csv/Csv.ts:72 | joining the parts of a split with the separator restores the text |
| JsStrings.SplitJoin | packages/components/nodes/documentloaders/Csv/Csv.ts:72 | splitting a join of separator-free parts gives the parts back |
| JsStrings.SplitAppend | packages/components/nodes/documentloaders/Csv/Csv.ts:72 | splitting at one separator splits the two sides independently |
| JsStrings.SplitWithoutSeparator | packages/components/nodes/documentloaders/Csv/Csv.ts:72 | a text without the separator is a single part |
| JsNumbers.ParseIntRoundTrip | packages/components/nodes/llms/OpenAI/OpenAI.ts:143 | `parseInt(String(n), 10) == n` for every integer |
| JsNumbers.ParseInt | packages/components/nodes/llms/OpenAI/OpenAI.ts:143-149 | `parseInt(s, 10)` is NaN exactly when no digit follows the leading whitespace and at most one sign; a negative result needs a '-' after the whitespace |
| JsNumbers.ParseIntValue | packages/components/nodes/llms/OpenAI/OpenAI.ts:143-149 | a number input parses as itself, a text as its `parseInt`, and `undefined`, `null`, a boolean or a plain object as NaN |
| JsNumbers.ToJsString | packages/components/nodes/llms/OpenAI/OpenAI.ts:143 | `String(v)` keeps a text, the text of a number parses back to that number, and a plain object gives "[object Object]" |
| JsNumbers.ParseIntOfNumber | packages/components/nodes/llms/OpenAI/OpenAI.ts:143 | `parseInt` of a number input is that number |
| JsNumbers.ParseIntTruncates | packages/components/nodes/llms/OpenAI/OpenAI.ts:144 | `parseInt` stops at the first non-digit after the digits |
| JsNumbers.ParseIntOfDecimal | packages/components/nodes/llms/OpenAI/OpenAI.ts:144 | "0.9" parses as 0 |
| JsNumbers.ParseIntOfWord | packages/components/nodes/llms/OpenAI/OpenAI.ts:143 | a text that starts with neither whitespace, a sign nor a digit parses as NaN, as "abc" does |
| JsNumbers.IntField | packages/components/nodes/llms/OpenAI/OpenAI.ts:143-149 | a field is present exactly when its input is truthy, and then holds the input's `parseInt` |
| JsNumbers.IntFieldOfInteger | packages/components/nodes/llms/OpenAI/OpenAI.ts:143-149 | a non-zero number, or its decimal text, sets the field to itself; 0 leaves it out |
| Execution.Callbacks | packages/components/nodes/chains/ConversationChain/ConversationChain.ts:120-129 | the logger handler always comes first; the streaming handler for the options' socket and client id is added exactly when both are truthy |
| Execution.IsStreaming | packages/components/nodes/chains/LLMChain/LLMChain.ts:104 | streaming needs both the socket and the client id to be truthy |
| LLMChainNode.StreamTarget | packages/components/nodes/chains/LLMChain/LLMChain.ts:104-106 | the socket and client id are the options' own when streaming, otherwise `undefined` and '' |
| LLMChainNode.PredictionCallbacks | packages/components/nodes/chains/LLMChain/LLMChain.ts:103-111 | the handlers of a prediction are the logger plus, when streaming, the streaming handler |
| LLMChainNode.Unbound | packages/components/nodes/chains/LLMChain/LLMChain.ts:118-125 | `seen` never holds more names than the template declares |
| LLMChainNode.Resolve | packages/components/nodes/chains/LLMChain/LLMChain.ts:108-166 | at most one declared variable selects `run` with the question; more variables select `call` unless two or more are unbound or the one unbound name is empty, which is an `Error`; the handlers are always those of the options |
| LLMChainNode.Outcome | packages/components/nodes/chains/LLMChain/LLMChain.ts:127-166 | apart from errors the chain itself throws, an error is thrown exactly when the resolution is an error; otherwise the result is the selected request performed on the chain |
| LLMChainNode.Perform | packages/components/nodes/chains/LLMChain/LLMChain.ts:111-164 | `run` returns its text, `call` returns `res?.text` |
| LLMChainNode.CollectUnbound | packages/components/nodes/chains/LLMChain/LLMChain.ts:118-125 | the push/pop loop leaves exactly the variables without a truthy prompt value, in order |
| LLMChainNode.RunPrediction | packages/components/nodes/chains/LLMChain/LLMChain.ts:96-167 | the result is the one request the resolution selects, performed on the chain, or the error it selects |
| LLMChainNode.Init | packages/components/nodes/chains/LLMChain/LLMChain.ts:61-80 | output 'llmChain' returns the chain, 'outputPrediction' returns the prediction, any other output returns `undefined` |
| LLMChainNode.UnboundMembers | packages/components/nodes/chains/LLMChain/LLMChain.ts:118-125 | a name is in `seen` exactly when it is declared and has no truthy value |
| LLMChainNode.UnboundAppend | packages/components/nodes/chains/LLMChain/LLMChain.ts:118-125 | `seen` keeps declaration order |
| LLMChainNode.UnboundEmptyIffAllBound | packages/components/nodes/chains/LLMChain/LLMChain.ts:127-128 | `seen` is empty exactly when every declared variable has a value |
| LLMChainNode.OneVariableRunsWithInput | packages/components/nodes/chains/LLMChain/LLMChain.ts:108-116 | one declared variable: the question goes to `run`, whatever the prompt values are |
| LLMChainNode.NoVariableRunsWithInput | packages/components/nodes/chains/LLMChain/LLMChain.ts:157-166 | no declared variable: the question goes to `run` |
| LLMChainNode.AllBoundDiscardsInput | packages/components/nodes/chains/LLMChain/LLMChain.ts:127-137 | all variables bound: `call` gets the prompt values alone and the question is discarded |
| LLMChainNode.OneUnboundTakesInput | packages/components/nodes/chains/LLMChain/LLMChain.ts:138-153 | exactly one unbound variable: `call` gets the prompt values with the question bound to it, and every variable has a value |
| LLMChainNode.OnlyUnbound | packages/components/nodes/chains/LLMChain/LLMChain.ts:118-125 | when every variable but one has a value, `seen` holds exactly that one |
| LLMChainNode.ManyUnboundFails | packages/components/nodes/chains/LLMChain/LLMChain.ts:154-156 | two or more unbound variables: the error names them joined by ", " and no request is made |
| LLMChainNode.Examples | packages/components/nodes/chains/LLMChain/LLMChain.ts:108-156 | the four worked cases: one variable, one missing value, none missing, two missing |
| Documents.LooksLikeArray | packages/components/nodes/documentloaders/Csv/Csv.ts:65 | `startsWith('[') && endsWith(']')` |
| Documents.FileList | packages/components/nodes/documentloaders/Csv/Csv.ts:65-69 | bracketed input is parsed as an array; anything else is the only file |
| Documents.Payload | packages/components/nodes/documentloaders/Csv/Csv.ts:72-74 | the payload is the segment before the last comma, or ''; it holds no comma |
| Documents.ExtractPayload | packages/components/nodes/documentloaders/Csv/Csv.ts:72-74 | the split-pop-pop sequence yields the payload |
| Documents.PayloadOfDataUri | packages/components/nodes/documentloaders/Csv/Csv.ts:72-74 | `header,data,name` gives back `data` exactly |
| Documents.PayloadWithoutComma | packages/components/nodes/documentloaders/Csv/Csv.ts:74 | a text without a comma falls back to '' |
| Documents.PayloadOfOneComma | packages/components/nodes/documentloaders/Csv/Csv.ts:72-74 | `x,y` without other commas gives `x` |
| Documents.LoadCallFor | packages/components/nodes/documentloaders/Csv/Csv.ts:78-84 | `loadAndSplit` is used exactly when a splitter is given, with that splitter and the same source |
| Documents.FileDocuments | packages/components/nodes/documentloaders/Csv/Csv.ts:72-84 | one file is loaded from its payload through the call the splitter selects |
| Documents.FilesDocuments | packages/components/nodes/documentloaders/Csv/Csv.ts:71-85 | the documents of the files, in file order |
| Documents.LoadFiles | packages/components/nodes/documentloaders/Csv/Csv.ts:71-85 | the loop collects every file's documents in file order |
| Documents.FilesDocumentsAppend | packages/components/nodes/documentloaders/Csv/Csv.ts:71-85 | the documents of a file list are those of its parts, concatenated in order |
| Documents.FilesDocumentsSingle | packages/components/nodes/documentloaders/Csv/Csv.ts:71-85 | one file gives exactly its own documents |
| Documents.WithMetadata | packages/components/nodes/documentloaders/Csv/Csv.ts:91-97 | the text is kept, the metadata keys are the union, the overlay wins and other keys keep their values |
| Documents.Overlaid | packages/components/nodes/documentloaders/Csv/Csv.ts:89-100 | the overlay keeps the number of documents |
| Documents.OverlayMetadata | packages/components/nodes/documentloaders/Csv/Csv.ts:89-100 | the push loop yields every document overlaid, in order |
| Documents.ParsedMetadata | packages/components/nodes/documentloaders/Csv/Csv.ts:88 | an object is used as it is, a text is parsed; only a text can fail |
| Documents.MetadataApplied | packages/components/nodes/documentloaders/Csv/Csv.ts:87-103 | without metadata the documents come back as loaded; the result fails exactly when the metadata text fails to parse, with the parser's error; otherwise count and text of every document are kept |
| Documents.ApplyMetadata | packages/components/nodes/documentloaders/Csv/Csv.ts:87-103 | without metadata the documents are returned as loaded; otherwise they are overlaid with the parsed metadata, or the parse error is returned |
| Documents.OverlaidDocuments | packages/components/nodes/documentloaders/Csv/Csv.ts:87-100 | count, order and text are kept; overlay keys win; other keys are kept |
| Documents.OverlayIdempotent | packages/components/nodes/documentloaders/Csv/Csv.ts:91-97 | overlaying twice with the same object is overlaying once |
| Documents.NoMetadataKeepsDocuments | packages/components/nodes/documentloaders/Csv/Csv.ts:87-103 | absent or empty metadata text returns the documents unchanged |
| Documents.MetadataTextAsObject | packages/components/nodes/documentloaders/Csv/Csv.ts:88 | an object is used without parsing; a text and the object it parses to give the same result |
| CsvLoaderNode.ColumnOf | packages/components/nodes/documentloaders/Csv/Csv.ts:76 | a blank column name means all columns; otherwise the column is the trimmed, non-empty name |
| CsvLoaderNode.Init | packages/components/nodes/documentloaders/Csv/Csv.ts:56-104 | the documents of every file with the column, then the metadata; a missing column name throws the TypeError once there is a file |
| CsvLoaderNode.CsvDocuments | packages/components/nodes/documentloaders/Csv/Csv.ts:56-104 | apart from errors the loader throws, the node fails exactly when the file list fails to parse, when a file meets a missing column name, or when the metadata fails to parse |
| CsvLoaderNode.SingleFile | packages/components/nodes/documentloaders/Csv/Csv.ts:65-84 | a single data URI is loaded from its payload with the trimmed column |
| CsvLoaderNode.PaddedColumn | packages/components/nodes/documentloaders/Csv/Csv.ts:76 | whitespace around the column name does not reach the loader |
| JsonlinesLoaderNode.PointerOf | packages/components/nodes/documentloaders/Jsonlines/Jsonlines.ts:64 | the pointer is '/' followed by the trimmed name |
| JsonlinesLoaderNode.Init | packages/components/nodes/documentloaders/Jsonlines/Jsonlines.ts:55-105 | a missing pointer name throws before the files are read; otherwise the documents of every file with the pointer, then the metadata |
| JsonlinesLoaderNode.JsonlinesDocuments | packages/components/nodes/documentloaders/Jsonlines/Jsonlines.ts:55-105 | apart from errors the loader throws, the node fails exactly when the pointer name is missing, the file list fails to parse, or the metadata fails to parse; a missing name fails first |
| JsonlinesLoaderNode.PaddedPointer | packages/components/nodes/documentloaders/Jsonlines/Jsonlines.ts:64 | whitespace around the name does not reach the pointer |
| JsonlinesLoaderNode.FilesInOrder | packages/components/nodes/documentloaders/Jsonlines/Jsonlines.ts:72-86 | the first file's documents come before those of the rest |
| DocxLoaderNode.Init | packages/components/nodes/documentloaders/Docx/Docx.ts:48-95 | the documents of every file, then the metadata |
| DocxLoaderNode.DocxDocuments | packages/components/nodes/documentloaders/Docx/Docx.ts:48-95 | apart from errors the loader throws, the node fails exactly when the file list or the metadata fails to parse |
| DocxLoaderNode.OverlayCoversAllFiles | packages/components/nodes/documentloaders/Docx/Docx.ts:78-92 | with a metadata object every document of every file is overlaid, in order, and none is lost |
| ConfluenceLoaderNode.Init | packages/components/nodes/documentloaders/Confluence/Confluence.ts:73-117 | the five connection inputs go to the loader unchanged, then the metadata step |
| ConfluenceLoaderNode.ConfluenceDocuments | packages/components/nodes/documentloaders/Confluence/Confluence.ts:73-117 | apart from errors the loader throws, the node fails exactly when the metadata fails to parse; otherwise it returns as many documents as the loader gave |
| ConfluenceLoaderNode.InputsPassedThrough | packages/components/nodes/documentloaders/Confluence/Confluence.ts:82-98 | the loader sees the inputs as given; without metadata the node returns exactly what the loader returned |
| ConfluenceLoaderNode.BadMetadataFails | packages/components/nodes/documentloaders/Confluence/Confluence.ts:100-101 | a metadata text the parser rejects fails the node with the parser's error |
| FolderLoaderNode.LoaderFor | packages/components/nodes/documentloaders/Folder/Folder.ts:56-63 | exactly the five extensions .json, .txt, .csv, .docx and .pdf have a loader, each the one the table names |
| FolderLoaderNode.Init | packages/components/nodes/documentloaders/Folder/Folder.ts:51-89 | the directory loader gets the folder and the extension table, then the metadata step |
| FolderLoaderNode.FolderDocuments | packages/components/nodes/documentloaders/Folder/Folder.ts:51-89 | apart from errors the directory loader throws, the node fails exactly when the metadata fails to parse; otherwise it returns as many documents as the loader gave |
| FolderLoaderNode.FolderOverlay | packages/components/nodes/documentloaders/Folder/Folder.ts:72-86 | every document keeps its text and takes the overlay's keys |
| ConversationChainNode.Flatten | packages/components/nodes/chains/ConversationChain/ConversationChain.ts:71 | flattening one level keeps every single document and every member of a batch |
| ConversationChainNode.Spliced | packages/components/nodes/chains/ConversationChain/ConversationChain.ts:71 | a single document is kept, a batch gives its own documents |
| ConversationChainNode.ContextText | packages/components/nodes/chains/ConversationChain/ConversationChain.ts:77-80 | no document gives '', one document gives its page content |
| ConversationChainNode.Accumulated | packages/components/nodes/chains/ConversationChain/ConversationChain.ts:82 | the system message before a series of `init` calls is a prefix of the message after them, and equal to it when no call has text |
| ConversationChainNode.DocumentText | packages/components/nodes/chains/ConversationChain/ConversationChain.ts:71-80 | the two loops yield the page contents of the flattened documents, concatenated in order |
| ConversationChainNode.Appended | packages/components/nodes/chains/ConversationChain/ConversationChain.ts:82 | the old system message is a prefix of the new one, and they are equal exactly when the text is empty |
| ConversationChainNode.SystemTemplate | packages/components/nodes/chains/ConversationChain/ConversationChain.ts:91 | the template ends with the system message and, when a prompt is given, starts with the prompt and a newline |
| ConversationChainNode.HistoryKey | packages/components/nodes/chains/ConversationChain/ConversationChain.ts:92 | the placeholder key is the memory's key, or 'chat_history' |
| ConversationChainNode.ConversationModule.constructor | packages/components/nodes/chains/ConversationChain/ConversationChain.ts:12 | the system message starts as the default text |
| ConversationChainNode.ConversationModule.Init | packages/components/nodes/chains/ConversationChain/ConversationChain.ts:65-99 | the document text is appended to the stored system message, and the prompt is built from the new value |
| ConversationChainNode.FlattenAppend | packages/components/nodes/chains/ConversationChain/ConversationChain.ts:71 | flattening distributes over concatenation |
| ConversationChainNode.ContextTextAppend | packages/components/nodes/chains/ConversationChain/ConversationChain.ts:77-80 | the text of a concatenation is the concatenation of the texts |
| ConversationChainNode.EmptyDocumentsAddNothing | packages/components/nodes/chains/ConversationChain/ConversationChain.ts:77-82 | documents with empty text add nothing |
| ConversationChainNode.AccumulatedExtends | packages/components/nodes/chains/ConversationChain/ConversationChain.ts:82 | every earlier system message is a prefix of every later one |
| ConversationChainNode.AccumulatedAppend | packages/components/nodes/chains/ConversationChain/ConversationChain.ts:82 | a series of `init` calls continues from the state the earlier calls left |
| ConversationChainNode.TwoInitsAccumulate | packages/components/nodes/chains/ConversationChain/ConversationChain.ts:82 | two `init` calls with text leave both texts, each under its own header |
| ConversationChainNode.ConvertHistory | packages/components/nodes/chains/ConversationChain/ConversationChain.ts:106-115 | the loop yields the converted conversation |
| ConversationChainNode.Converted | packages/components/nodes/chains/ConversationChain/ConversationChain.ts:109-115 | conversion never adds messages |
| ConversationChainNode.ConvertedAppend | packages/components/nodes/chains/ConversationChain/ConversationChain.ts:109-115 | conversion works entry by entry, in order |
| ConversationChainNode.ConvertedKnown | packages/components/nodes/chains/ConversationChain/ConversationChain.ts:110-114 | known entries keep length and order: 'apiMessage' becomes an AI message, 'userMessage' a human message |
| ConversationChainNode.MessageOf | packages/components/nodes/chains/ConversationChain/ConversationChain.ts:110-114 | an entry gives a message exactly when its type is 'apiMessage' or 'userMessage', with the entry's text; it is an AI message exactly for 'apiMessage' |
| ConversationChainNode.ConvertedUnknown | packages/components/nodes/chains/ConversationChain/ConversationChain.ts:109-115 | entries of other types are dropped |
| ConversationChainNode.ResponseOf | packages/components/nodes/chains/ConversationChain/ConversationChain.ts:125-128 | `res?.response`: `undefined` when there is no result |
| ConversationChainNode.Run | packages/components/nodes/chains/ConversationChain/ConversationChain.ts:101-130 | the memory's history is replaced, and the chain pointed at the memory, only when a history is given; the result is the response of one call with the handlers |
| ChatPromptTemplateNode.PromptValues | packages/components/nodes/prompts/ChatPromptTemplate/ChatPromptTemplate.ts:61-64 | an absent or empty text gives no values; any other text is parsed once its whitespace is removed |
| ChatPromptTemplateNode.Init | packages/components/nodes/prompts/ChatPromptTemplate/ChatPromptTemplate.ts:51-69 | the prompt keeps both templates and carries the parsed values, or the parse error is returned |
| ChatPromptTemplateNode.ParserSeesStrippedText | packages/components/nodes/prompts/ChatPromptTemplate/ChatPromptTemplate.ts:63 | the parser sees the text without whitespace, other characters in order, and stripping again changes nothing |
| ChatPromptTemplateNode.WhitespaceAnywhereIgnored | packages/components/nodes/prompts/ChatPromptTemplate/ChatPromptTemplate.ts:63 | inserting whitespace anywhere, even inside a quoted value, changes nothing |
| ChatPromptTemplateNode.BlankTextParsesEmpty | packages/components/nodes/prompts/ChatPromptTemplate/ChatPromptTemplate.ts:62-63 | a whitespace-only text is truthy and reaches the parser as '' |
| ChatPromptTemplateNode.StripAroundSpaces | packages/components/nodes/prompts/ChatPromptTemplate/ChatPromptTemplate.ts:63 | spaces between three clean pieces of text all disappear |
| ChatPromptTemplateNode.QuotedSpaceLost | packages/components/nodes/prompts/ChatPromptTemplate/ChatPromptTemplate.ts:63 | `{"a": "x y"}` is parsed as `{"a":"xy"}` |
| ChatPromptTemplateNode.StripAllWhitespace | packages/components/nodes/prompts/ChatPromptTemplate/ChatPromptTemplate.ts:63 | a text of whitespace strips to nothing |
| CustomToolNode.KindOf | packages/components/nodes/tools/CustomTool/CustomTool.ts:93-101 | exactly 'string', 'number' and 'boolean' are field types, and each gives its own kind of field |
| CustomToolNode.ConvertSchemaToZod | packages/components/nodes/tools/CustomTool/CustomTool.ts:88-108 | the loop yields the schema's field map; a parse error is rethrown as a plain `Error` |
| CustomToolNode.SchemaFields | packages/components/nodes/tools/CustomTool/CustomTool.ts:92-102 | the field map never has more fields than the schema has items |
| CustomToolNode.FieldOf | packages/components/nodes/tools/CustomTool/CustomTool.ts:95-101 | a known item becomes a field of its kind, described by its description |
| CustomToolNode.SchemaFieldsKeys | packages/components/nodes/tools/CustomTool/CustomTool.ts:92-102 | a property is a field exactly when some item of a known type names it; other items are skipped |
| CustomToolNode.SchemaFieldsLastWins | packages/components/nodes/tools/CustomTool/CustomTool.ts:92-102 | the field of a property is that of the last known item naming it |
| CustomToolNode.RequiredIgnored | packages/components/nodes/tools/CustomTool/CustomTool.ts:94-101 | the `required` flags do not change the field map |
| CustomToolNode.OptionOf | packages/components/nodes/tools/CustomTool/CustomTool.ts:52-56 | a tool is listed with label = name, name = id and its description |
| CustomToolNode.ListTools | packages/components/nodes/tools/CustomTool/CustomTool.ts:39-60 | no data source gives no entries; otherwise one entry per tool, in order, with label = name, name = id and the description |
| CustomToolNode.FindTool | packages/components/nodes/tools/CustomTool/CustomTool.ts:70-72 | nothing is found exactly when no tool has the id; a found tool has it |
| CustomToolNode.Init | packages/components/nodes/tools/CustomTool/CustomTool.ts:63-85 | a missing tool gives the rethrown "Tool <id> not found", a schema error is wrapped twice, otherwise the tool carries the schema's fields |
| CustomToolNode.NotFoundMessage | packages/components/nodes/tools/CustomTool/CustomTool.ts:74-84 | the missing-tool message reads "Error: Tool <id> not found" |
| CustomToolNode.ListedToolsFound | packages/components/nodes/tools/CustomTool/CustomTool.ts:51-72 | every listed entry names a tool that `init` finds |
| OpenAINode.OptionsOf | packages/components/nodes/llms/OpenAI/OpenAI.ts:136-149 | names and key are copied, `streaming ?? true`, and each of the seven integer fields follows its input |
| OpenAINode.Init | packages/components/nodes/llms/OpenAI/OpenAI.ts:122-155 | the successive assignments build those options; basePath goes in the client configuration only |
| OpenAINode.StreamingDefault | packages/components/nodes/llms/OpenAI/OpenAI.ts:140 | a missing value turns streaming on; an explicit `false` is kept |
| OpenAINode.FractionsTruncated | packages/components/nodes/llms/OpenAI/OpenAI.ts:144-146 | a top-p or penalty of "0.9" becomes 0 |
| OpenAINode.IntegersKept | packages/components/nodes/llms/OpenAI/OpenAI.ts:143-148 | integer inputs come through unchanged, except 0, which is left out |
| ChatOpenAINode.OptionsOf | packages/components/nodes/chatmodels/ChatOpenAI/ChatOpenAI.ts:136-147 | names and key are copied, `streaming ?? true`, and each of the five integer fields follows its input |
| ChatOpenAINode.Init | packages/components/nodes/chatmodels/ChatOpenAI/ChatOpenAI.ts:124-153 | the successive assignments build those options; basePath goes in the client configuration only |
| ChatOpenAINode.MissingInputsOmitted | packages/components/nodes/chatmodels/ChatOpenAI/ChatOpenAI.ts:136-147 | with no optional input only the fixed fields remain, and streaming is on |
| ChatOpenAINode.TopPParsedAsInteger | packages/components/nodes/chatmodels/ChatOpenAI/ChatOpenAI.ts:144-147 | "0.9" becomes 0 and a word becomes NaN |
| MarkdownTextSplitterNode.ParamsOf | packages/components/nodes/textsplitters/MarkdownTextSplitter/MarkdownTextSplitter.ts:46-49 | each field is present exactly when its input is truthy, and then holds its `parseInt` |
| MarkdownTextSplitterNode.Init | packages/components/nodes/textsplitters/MarkdownTextSplitter/MarkdownTextSplitter.ts:42-54 | the conditional assignments build those parameters |
| MarkdownTextSplitterNode.NoDefaults | packages/components/nodes/textsplitters/MarkdownTextSplitter/MarkdownTextSplitter.ts:46-49 | with no input, or falsy inputs, the object is empty; the form default of 1000 is not applied |
| MarkdownTextSplitterNode.ChunkSizesKept | packages/components/nodes/textsplitters/MarkdownTextSplitter/MarkdownTextSplitter.ts:48-49 | non-zero numbers, given as numbers or as text, come through unchanged |
| ShareChatbotView.SavedConfigOf | packages/ui/src/views/chatflows/ShareChatbot.js:49 | a missing or empty configuration text gives `{}`; any other is parsed |
| ShareChatbotView.InitialConfig | packages/ui/src/views/chatflows/ShareChatbot.js:58-88 | every one of the sixteen fields gets a value |
| ShareChatbotView.SavedField | packages/ui/src/views/chatflows/ShareChatbot.js:58-88 | the key of the saved configuration each state variable is read from |
| ShareChatbotView.InitialFieldFallsBack | packages/ui/src/views/chatflows/ShareChatbot.js:58-88 | each field is its saved value unless that is `undefined` or `null`, and its default otherwise |
| ShareChatbotView.Default | packages/ui/src/views/chatflows/ShareChatbot.js:25-88 | every default is present; colours and the font size have truthy defaults, the free texts '' and the switches `false` |
| ShareChatbotView.NoConfigGivesDefaults | packages/ui/src/views/chatflows/ShareChatbot.js:49-88 | a flow without configuration starts from the default look |
| ShareChatbotView.Kept | packages/ui/src/views/chatflows/ShareChatbot.js:108-126 | a truthy value is saved; a falsy one leaves its key out |
| ShareChatbotView.FormattedMessage | packages/ui/src/views/chatflows/ShareChatbot.js:100-121 | `showAvatar` is always present, and truthy exactly when the switch is on |
| ShareChatbotView.Formatted | packages/ui/src/views/chatflows/ShareChatbot.js:98-129 | both message styles always carry `showAvatar` |
| ShareChatbotView.KeepIfTruthy | packages/ui/src/views/chatflows/ShareChatbot.js:108-126 | one `if (v) obj.f = v` yields the saved value of `Kept` |
| ShareChatbotView.FormatMessageStyle | packages/ui/src/views/chatflows/ShareChatbot.js:113-121 | a message style gets each truthy field, and `showAvatar` is always present |
| ShareChatbotView.FormatInputStyle | packages/ui/src/views/chatflows/ShareChatbot.js:123-126 | the text input style gets each truthy field |
| ShareChatbotView.ShareChatbotForm.FormatObj | packages/ui/src/views/chatflows/ShareChatbot.js:98-129 | `formatObj` yields the saved form of the current state |
| ShareChatbotView.FormattedField | packages/ui/src/views/chatflows/ShareChatbot.js:98-126 | each field is saved when truthy; a switch that is off is saved as `false`; any other falsy field is left out |
| ShareChatbotView.SaveThenReload | packages/ui/src/views/chatflows/ShareChatbot.js:58-129 | saving and reopening restores the form exactly when every falsy field is one the reload restores |
| ShareChatbotView.Restorable | packages/ui/src/views/chatflows/ShareChatbot.js:58-129 | a truthy value always survives a save and reload, an `undefined` or `null` one never does |
| ShareChatbotView.ReloadedField | packages/ui/src/views/chatflows/ShareChatbot.js:58-129 | one field survives a save and reload exactly when it is restorable |
| ShareChatbotView.AllRestorableReloaded | packages/ui/src/views/chatflows/ShareChatbot.js:58-129 | a form whose every field is restorable comes back unchanged |
| ShareChatbotView.FalsyFieldsReset | packages/ui/src/views/chatflows/ShareChatbot.js:60-110 | a font size of 0 or an emptied colour comes back as the default |
| ShareChatbotView.KindOf | packages/ui/src/views/chatflows/ShareChatbot.js:215-277 | the handler each field belongs to: nine colour fields, five text fields, two switches |
| ShareChatbotView.Updated | packages/ui/src/views/chatflows/ShareChatbot.js:215-277 | only the given field changes, and only when it is of the handler's kind; a field of another kind, or no selected field, changes nothing |
| ShareChatbotView.ShareChatbotForm.constructor | packages/ui/src/views/chatflows/ShareChatbot.js:58-92 | the form starts from the saved configuration with all sixteen fields, and no colour field selected |
| ShareChatbotView.ShareChatbotForm.Valid | packages/ui/src/views/chatflows/ShareChatbot.js:58-88 | the form holds a value for every one of its sixteen fields |
| ShareChatbotView.ShareChatbotForm.OpenColorPicker | packages/ui/src/views/chatflows/ShareChatbot.js:294-298 | the picker opens for the field and shows its colour, or white; the form is unchanged; the form keeps all sixteen fields |
| ShareChatbotView.ShareChatbotForm.OnColorSelected | packages/ui/src/views/chatflows/ShareChatbot.js:215-246 | the selected colour field takes the colour, and the picker always shows it; the form keeps all sixteen fields |
| ShareChatbotView.ShareChatbotForm.OnTextChanged | packages/ui/src/views/chatflows/ShareChatbot.js:248-266 | only one of the five text fields can change; the form keeps all sixteen fields |
| ShareChatbotView.ShareChatbotForm.OnBooleanChanged | packages/ui/src/views/chatflows/ShareChatbot.js:268-277 | only one of the two switches can change; the form keeps all sixteen fields |
| ShareChatbotView.PickerSetsItsField | packages/ui/src/views/chatflows/ShareChatbot.js:215-246 | a colour picked for a colour field changes that field alone |
| ShareChatbotView.FontSizeStoredAsText | packages/ui/src/views/chatflows/ShareChatbot.js:253-254 | a typed font size is stored and saved as text; an emptied one is left out |
| ShareChatbotView.ShareUrl | packages/ui/src/views/chatflows/ShareChatbot.js:356 | the URL is the base URL, then "/chatbot/", then the flow id |
| ShareChatbotView.ShareUrlInjective | packages/ui/src/views/chatflows/ShareChatbot.js:356-362 | different flows on one server have different URLs |

## Left out

- Calls into the LLM framework are parameters of function type, and their behaviour is not modelled. This covers chains, loaders, splitters, model clients, memory, and the callback handlers' token streaming.
- `JSON.parse`, base64 decoding and the `Blob` wrapper are not modelled. Parsing is a parameter that returns a value or an error, and the payload is kept as text.
- The parser is assumed to return the expected shape: an array of texts for file lists, a list of items for a tool schema, an object for metadata. A parsed value of another shape, such as a `for ... of` over a non-iterable, is not modelled.
- The database lookups of the custom tool are not modelled. The tool table is an input list, and `None` stands for a missing data source.
- The file system walk of the folder loader and the network access of the Confluence loader are not modelled.
- Temperature (`parseFloat`) is not modelled in `OpenAINode` and `ChatOpenAINode`, because the model has no floating point.
- JsNumbers.ParseInt: numbers are unbounded integers. Beyond 2^53 the source loses precision, which the model does not reproduce.
- Characters are code points, not UTF-16 code units. Surrogate pairs are not modelled.
- Prompt values are a map from names to values. Keys inherited from `Object.prototype`, such as `constructor`, are not modelled.
- The `verbose` flag read from the `DEBUG` environment variable, and the console logging in `LLMChainNode.Init`, are not modelled.
- ShareChatbotView.ShareChatbotForm.OnColorSelected: React state updates are batched and applied after the handler returns. The model applies them at once, which gives the same state once the handler has run.
- ShareChatbotView: rendering, popovers, the clipboard, `window.open`, `onSave`, `onSwitchChange` and the `isPublic` flag are not modelled. These are UI and API calls.
- ShareChatbotView.Updated: the handlers receive a field of the `FieldName` enumeration, not its name as text. Every call site passes a fixed state-variable name, so the `switch` cases become a match on the field. Names that match no case are not modelled, except the empty `selectedColorConfig`, which is `None`.
- LLMChainNode.Outcome: the chain's `run` and `call` are total functions here and cannot fail. In the source they are awaited without a `try` (`LLMChain.ts:111-164`), so a rejected call, such as a model API error, escapes `runPrediction` unchanged. "An error exactly when the resolution is an error" covers only the node's own checks.
- CsvLoaderNode.CsvDocuments: the loader's `load` and `loadAndSplit` cannot fail here. In the source a rejected call (`Csv.ts:79-82`), such as a column the file lacks, escapes `init` unchanged. "Fails exactly when" covers only the node's own checks.
- JsonlinesLoaderNode.JsonlinesDocuments: as for the CSV loader, a rejected `load` or `loadAndSplit` (`Jsonlines.ts:80-83`) escapes `init` and is not modelled.
- DocxLoaderNode.DocxDocuments: as for the CSV loader, a rejected `load` or `loadAndSplit` (`Docx.ts:70-73`) escapes `init` and is not modelled.
- ConfluenceLoaderNode.ConfluenceDocuments: as for the CSV loader, a rejected `load` or `loadAndSplit` (`Confluence.ts:95-97`), such as a network error, escapes `init` and is not modelled.
- FolderLoaderNode.FolderDocuments: as for the CSV loader, a rejected `load` or `loadAndSplit` of the directory loader (`Folder.ts:67-69`) escapes `init` and is not modelled.
- JsNumbers.ParseIntValue: `Object` is a plain object. An array input, whose `String` is its elements joined by commas (so `parseInt([7], 10)` is 7), is not modelled, and nor is an object with its own `toString`.
- LLMChainNode.RunPrediction: the prompt values are a map, never `undefined`. A prompt without `promptValues` (`LLMChain.ts:65`, `:122`) makes the source throw a TypeError once the template has two or more variables, which the model does not reproduce.
- OpenAINode.FractionsTruncated: a fractional number given as a number (0.9 rather than "0.9") cannot be written, because `Num` holds integers only. This lemma and ChatOpenAINode.TopPParsedAsInteger cover fractions given as text.
- ConversationChainNode.Run: the model assumes `options` is present. Reading `options.logger` of `undefined` would throw in the source as well.
