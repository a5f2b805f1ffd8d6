/** The folder loader node: a directory loader that picks a file loader by
    extension, then the shared load and metadata steps. */
module FolderLoaderNode {
  import opened Js
  import opened Documents

  /** The file loaders the directory loader can build. */
  datatype FileKind = JsonFile | TextFile | CsvFile | DocxFile | PdfFile

  /** The directory loader's source: the folder and the extension table. */
  datatype DirectorySource = DirectorySource(folderPath: Value, loaders: map<string, FileKind>)

  /** The extension table handed to the directory loader. */
  const LoaderTable: map<string, FileKind> :=
    map[".json" := JsonFile, ".txt" := TextFile, ".csv" := CsvFile, ".docx" := DocxFile, ".pdf" := PdfFile]

  /** Which loader a file extension gets, if any. */
  function LoaderFor(extension: string): (kind: Option<FileKind>)
    ensures kind.Some? <==> extension in {".json", ".txt", ".csv", ".docx", ".pdf"}
    ensures extension == ".json" ==> kind == Some(JsonFile)
    ensures extension == ".txt" ==> kind == Some(TextFile)
    ensures extension == ".csv" ==> kind == Some(CsvFile)
    ensures extension == ".docx" ==> kind == Some(DocxFile)
    ensures extension == ".pdf" ==> kind == Some(PdfFile)
  {
    if extension in LoaderTable then Some(LoaderTable[extension]) else None
  }

  /** The documents `init` returns. `library` stands for the directory
      loader, which walks the folder on disk. */
  function FolderDocuments(folderPath: Value, textSplitter: Value, metadata: MetadataInput,
                           parseMetadata: string -> Result<map<string, Value>, Exception>,
                           library: LoadCall<DirectorySource> -> seq<Document>)
    : (r: Result<seq<Document>, Exception>)
    ensures r.Err? <==> MetadataFails(metadata, parseMetadata)
    ensures r.Ok? ==> |r.value| == |library(LoadCallFor(DirectorySource(folderPath, LoaderTable), textSplitter))|
  {
    MetadataApplied(library(LoadCallFor(DirectorySource(folderPath, LoaderTable), textSplitter)),
                    metadata, parseMetadata)
  }

  /** `init` of the node. */
  method Init(textSplitter: Value, folderPath: Value, metadata: MetadataInput,
              parseMetadata: string -> Result<map<string, Value>, Exception>,
              library: LoadCall<DirectorySource> -> seq<Document>)
    returns (r: Result<seq<Document>, Exception>)
    ensures r == FolderDocuments(folderPath, textSplitter, metadata, parseMetadata, library)
  {
    var loader := DirectorySource(folderPath, LoaderTable);
    var docs := library(LoadCallFor(loader, textSplitter));
    r := ApplyMetadata(docs, metadata, parseMetadata);
  }

  /** Every document the folder gives keeps its text under the overlay, and
      the overlay's keys win. */
  lemma FolderOverlay(folderPath: Value, textSplitter: Value, overlay: map<string, Value>,
                      parseMetadata: string -> Result<map<string, Value>, Exception>,
                      library: LoadCall<DirectorySource> -> seq<Document>, i: nat, k: string)
    requires var docs := library(LoadCallFor(DirectorySource(folderPath, LoaderTable), textSplitter));
             i < |docs| && k in overlay
    ensures var docs := library(LoadCallFor(DirectorySource(folderPath, LoaderTable), textSplitter));
            var r := FolderDocuments(folderPath, textSplitter, MetadataObject(overlay), parseMetadata, library);
            r.Ok? && |r.value| == |docs|
            && r.value[i].pageContent == docs[i].pageContent
            && r.value[i].metadata[k] == overlay[k]
  {
    var docs := library(LoadCallFor(DirectorySource(folderPath, LoaderTable), textSplitter));
    OverlaidDocuments(docs, overlay, i, k);
  }
}
