/** The Word document loader node: file inputs as for the CSV loader, with
    no loader option of its own. */
module DocxLoaderNode {
  import opened Js
  import opened Documents

  /** The documents `init` returns. */
  function DocxDocuments(docxFile: string, textSplitter: Value, metadata: MetadataInput,
                         parseFiles: string -> Result<seq<string>, Exception>,
                         parseMetadata: string -> Result<map<string, Value>, Exception>,
                         library: LoadCall<FileSource<()>> -> seq<Document>)
    : (r: Result<seq<Document>, Exception>)
    ensures FileList(docxFile, parseFiles).Err? ==> r == Err(FileList(docxFile, parseFiles).error)
    ensures r.Err? <==> FileList(docxFile, parseFiles).Err? || MetadataFails(metadata, parseMetadata)
  {
    match FileList(docxFile, parseFiles)
    case Err(e) => Err(e)
    case Ok(files) => MetadataApplied(FilesDocuments(files, (), textSplitter, library), metadata, parseMetadata)
  }

  /** `init` of the node. */
  method Init(docxFile: string, textSplitter: Value, metadata: MetadataInput,
              parseFiles: string -> Result<seq<string>, Exception>,
              parseMetadata: string -> Result<map<string, Value>, Exception>,
              library: LoadCall<FileSource<()>> -> seq<Document>)
    returns (r: Result<seq<Document>, Exception>)
    ensures r == DocxDocuments(docxFile, textSplitter, metadata, parseFiles, parseMetadata, library)
  {
    var fileList := FileList(docxFile, parseFiles);
    if fileList.Err? {
      return Err(fileList.error);
    }
    var alldocs := LoadFiles(fileList.value, (), textSplitter, library);
    r := ApplyMetadata(alldocs, metadata, parseMetadata);
  }

  /** With metadata, every document of every file is overlaid, and there are
      as many documents as the files gave. */
  lemma OverlayCoversAllFiles(files: seq<string>, textSplitter: Value, overlay: map<string, Value>,
                              parseMetadata: string -> Result<map<string, Value>, Exception>,
                              library: LoadCall<FileSource<()>> -> seq<Document>)
    ensures var docs := FilesDocuments(files, (), textSplitter, library);
            MetadataApplied(docs, MetadataObject(overlay), parseMetadata) == Ok(Overlaid(docs, overlay))
            && |Overlaid(docs, overlay)| == |docs|
  {
  }
}
