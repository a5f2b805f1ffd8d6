/** The JSON Lines file loader node: like the CSV loader, with a JSON
    pointer built from the pointer name instead of a column. */
module JsonlinesLoaderNode {
  import opened Js
  import opened JsStrings
  import opened Documents

  /** `'/' + pointerName.trim()` */
  function PointerOf(pointerName: string): (pointer: string)
    ensures |pointer| >= 1 && pointer[0] == '/'
    ensures pointer[1..] == Trim(pointerName)
  {
    "/" + Trim(pointerName)
  }

  /** What `undefined.trim()` throws when the pointer name is missing. */
  const TrimOfUndefined := Exception("TypeError", "Cannot read properties of undefined (reading 'trim')")

  /** The documents `init` returns. The pointer is built before the file
      input is looked at. */
  function JsonlinesDocuments(jsonlinesFile: string, pointerName: Option<string>, textSplitter: Value,
                              metadata: MetadataInput,
                              parseFiles: string -> Result<seq<string>, Exception>,
                              parseMetadata: string -> Result<map<string, Value>, Exception>,
                              library: LoadCall<FileSource<string>> -> seq<Document>)
    : (r: Result<seq<Document>, Exception>)
    ensures pointerName.None? ==> r == Err(TrimOfUndefined)
    ensures pointerName.Some? && FileList(jsonlinesFile, parseFiles).Err?
            ==> r == Err(FileList(jsonlinesFile, parseFiles).error)
    ensures r.Err? <==> pointerName.None? || FileList(jsonlinesFile, parseFiles).Err? || MetadataFails(metadata, parseMetadata)
  {
    if pointerName.None? then Err(TrimOfUndefined)
    else
      match FileList(jsonlinesFile, parseFiles)
      case Err(e) => Err(e)
      case Ok(files) =>
        MetadataApplied(FilesDocuments(files, PointerOf(pointerName.value), textSplitter, library),
                        metadata, parseMetadata)
  }

  /** `init` of the node. */
  method Init(jsonlinesFile: string, pointerName: Option<string>, textSplitter: Value, metadata: MetadataInput,
              parseFiles: string -> Result<seq<string>, Exception>,
              parseMetadata: string -> Result<map<string, Value>, Exception>,
              library: LoadCall<FileSource<string>> -> seq<Document>)
    returns (r: Result<seq<Document>, Exception>)
    ensures r == JsonlinesDocuments(jsonlinesFile, pointerName, textSplitter, metadata,
                                    parseFiles, parseMetadata, library)
  {
    if pointerName.None? {
      return Err(TrimOfUndefined);
    }
    var pointer := PointerOf(pointerName.value);
    var fileList := FileList(jsonlinesFile, parseFiles);
    if fileList.Err? {
      return Err(fileList.error);
    }
    var alldocs := LoadFiles(fileList.value, pointer, textSplitter, library);
    r := ApplyMetadata(alldocs, metadata, parseMetadata);
  }

  /** Whitespace around the pointer name does not reach the pointer. */
  lemma PaddedPointer(lead: string, name: string, trail: string)
    requires AllWhitespace(lead) && AllWhitespace(trail)
    requires name != [] ==> !IsWhitespace(name[0]) && !IsWhitespace(name[|name| - 1])
    ensures PointerOf(lead + name + trail) == "/" + name
  {
    TrimPadded(lead, name, trail);
  }

  /** With an array of files, the documents are those of each file in turn. */
  lemma FilesInOrder(first: string, rest: seq<string>, pointer: string, textSplitter: Value,
                     library: LoadCall<FileSource<string>> -> seq<Document>)
    ensures FilesDocuments([first] + rest, pointer, textSplitter, library)
         == FileDocuments(first, pointer, textSplitter, library) + FilesDocuments(rest, pointer, textSplitter, library)
  {
    FilesDocumentsAppend([first], rest, pointer, textSplitter, library);
    FilesDocumentsSingle(first, pointer, textSplitter, library);
  }
}
