/** The Confluence loader node: the connection inputs are handed to the
    library's page loader unchanged, then the shared load and metadata steps. */
module ConfluenceLoaderNode {
  import opened Js
  import opened Documents

  /** The options object built from the node's inputs, field for field. */
  datatype ConfluenceParams = ConfluenceParams(
    username: Value,
    accessToken: Value,
    baseUrl: Value,
    spaceKey: Value,
    limit: Value)

  /** The documents `init` returns. `library` stands for the page loader,
      which fetches the pages of the space over the network. */
  function ConfluenceDocuments(params: ConfluenceParams, textSplitter: Value, metadata: MetadataInput,
                               parseMetadata: string -> Result<map<string, Value>, Exception>,
                               library: LoadCall<ConfluenceParams> -> seq<Document>)
    : (r: Result<seq<Document>, Exception>)
    ensures r.Err? <==> MetadataFails(metadata, parseMetadata)
    ensures r.Ok? ==> |r.value| == |library(LoadCallFor(params, textSplitter))|
  {
    MetadataApplied(library(LoadCallFor(params, textSplitter)), metadata, parseMetadata)
  }

  /** `init` of the node. */
  method Init(username: Value, accessToken: Value, spaceKey: Value, baseUrl: Value, limit: Value,
              textSplitter: Value, metadata: MetadataInput,
              parseMetadata: string -> Result<map<string, Value>, Exception>,
              library: LoadCall<ConfluenceParams> -> seq<Document>)
    returns (r: Result<seq<Document>, Exception>)
    ensures r == ConfluenceDocuments(ConfluenceParams(username, accessToken, baseUrl, spaceKey, limit),
                                     textSplitter, metadata, parseMetadata, library)
  {
    var options := ConfluenceParams(username, accessToken, baseUrl, spaceKey, limit);
    var docs := library(LoadCallFor(options, textSplitter));
    r := ApplyMetadata(docs, metadata, parseMetadata);
  }

  /** The loader sees the inputs as given, whatever path is taken, and the
      node adds nothing but the overlay: without metadata its result is
      exactly what the loader returned. */
  lemma InputsPassedThrough(params: ConfluenceParams, textSplitter: Value,
                            parseMetadata: string -> Result<map<string, Value>, Exception>,
                            library: LoadCall<ConfluenceParams> -> seq<Document>)
    ensures LoadCallFor(params, textSplitter).source == params
    ensures ConfluenceDocuments(params, textSplitter, NoMetadata, parseMetadata, library)
         == Ok(library(LoadCallFor(params, textSplitter)))
  {
  }

  /** A metadata text the parser rejects fails the whole node with the
      parser's error, whatever the loader returned. */
  lemma BadMetadataFails(params: ConfluenceParams, textSplitter: Value, text: string, e: Exception,
                         parseMetadata: string -> Result<map<string, Value>, Exception>,
                         library: LoadCall<ConfluenceParams> -> seq<Document>)
    requires text != "" && parseMetadata(text) == Err(e)
    ensures ConfluenceDocuments(params, textSplitter, MetadataText(text), parseMetadata, library) == Err(e)
  {
  }
}
