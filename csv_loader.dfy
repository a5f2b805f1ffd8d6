/** The CSV file loader node: one data URI or a JSON array of them, an
    optional single column to extract, an optional splitter and metadata. */
module CsvLoaderNode {
  import opened Js
  import opened JsStrings
  import opened Documents

  /** `columnName.trim()`, a blank name meaning that every column is read. */
  function ColumnOf(columnName: string): (column: Option<string>)
    ensures column.None? <==> AllWhitespace(columnName)
    ensures column.Some? ==> column.value == Trim(columnName) && column.value != []
  {
    var trimmed := Trim(columnName);
    if |trimmed| == 0 then None else Some(trimmed)
  }

  /** What `undefined.trim()` throws when the optional column name is missing. */
  const TrimOfUndefined := Exception("TypeError", "Cannot read properties of undefined (reading 'trim')")

  /** The documents `init` returns. The column name is read inside the loop
      over the files, so a missing one throws only when there is a file. */
  function CsvDocuments(csvFile: string, columnName: Option<string>, textSplitter: Value, metadata: MetadataInput,
                        parseFiles: string -> Result<seq<string>, Exception>,
                        parseMetadata: string -> Result<map<string, Value>, Exception>,
                        library: LoadCall<FileSource<Option<string>>> -> seq<Document>)
    : (r: Result<seq<Document>, Exception>)
    ensures FileList(csvFile, parseFiles).Err? ==> r == Err(FileList(csvFile, parseFiles).error)
    ensures FileList(csvFile, parseFiles).Ok? && FileList(csvFile, parseFiles).value != [] && columnName.None?
            ==> r == Err(TrimOfUndefined)
    ensures r.Err? <==> || FileList(csvFile, parseFiles).Err?
                        || (FileList(csvFile, parseFiles).value != [] && columnName.None?)
                        || MetadataFails(metadata, parseMetadata)
  {
    match FileList(csvFile, parseFiles)
    case Err(e) => Err(e)
    case Ok(files) =>
      if files != [] && columnName.None? then Err(TrimOfUndefined)
      else
        var column := if columnName.Some? then ColumnOf(columnName.value) else None;
        MetadataApplied(FilesDocuments(files, column, textSplitter, library), metadata, parseMetadata)
  }

  /** `init` of the node. `parseFiles` and `parseMetadata` stand for
      `JSON.parse`, `library` for the CSV loader of the library. */
  method Init(csvFile: string, columnName: Option<string>, textSplitter: Value, metadata: MetadataInput,
              parseFiles: string -> Result<seq<string>, Exception>,
              parseMetadata: string -> Result<map<string, Value>, Exception>,
              library: LoadCall<FileSource<Option<string>>> -> seq<Document>)
    returns (r: Result<seq<Document>, Exception>)
    ensures r == CsvDocuments(csvFile, columnName, textSplitter, metadata, parseFiles, parseMetadata, library)
  {
    var fileList := FileList(csvFile, parseFiles);
    if fileList.Err? {
      return Err(fileList.error);
    }
    var files := fileList.value;
    if files != [] && columnName.None? {
      return Err(TrimOfUndefined);
    }
    var column := if columnName.Some? then ColumnOf(columnName.value) else None;
    var alldocs := LoadFiles(files, column, textSplitter, library);
    r := ApplyMetadata(alldocs, metadata, parseMetadata);
  }

  /** A single data URI that is not bracketed is the only file, and its
      documents are those of its payload. */
  lemma SingleFile(csvFile: string, column: string, textSplitter: Value,
                   parseFiles: string -> Result<seq<string>, Exception>,
                   parseMetadata: string -> Result<map<string, Value>, Exception>,
                   library: LoadCall<FileSource<Option<string>>> -> seq<Document>)
    requires !LooksLikeArray(csvFile)
    ensures CsvDocuments(csvFile, Some(column), textSplitter, NoMetadata, parseFiles, parseMetadata, library)
         == Ok(library(LoadCallFor(FileSource(Payload(csvFile), ColumnOf(column)), textSplitter)))
  {
    FilesDocumentsSingle(csvFile, ColumnOf(column), textSplitter, library);
  }

  /** A column name padded with whitespace selects the same column as the bare name. */
  lemma PaddedColumn(lead: string, name: string, trail: string)
    requires AllWhitespace(lead) && AllWhitespace(trail)
    requires name != [] && !IsWhitespace(name[0]) && !IsWhitespace(name[|name| - 1])
    ensures ColumnOf(lead + name + trail) == Some(name)
  {
    TrimPadded(lead, name, trail);
  }
}
