/** What the document-loader nodes share: the document record, the
    file-input conventions (one data URI or a JSON array of them, the base64
    payload between the last two commas), the choice between `load` and
    `loadAndSplit`, the concatenation of every file's documents in file
    order, and the shallow metadata overlay in which the overlay's keys win. */
module Documents {
  import opened Js
  import opened JsStrings

  /** A loaded document: its text and its metadata object. */
  datatype Document = Document(pageContent: string, metadata: map<string, Value>)

  /** The `metadata` input: absent, JSON text, or an object already parsed. */
  datatype MetadataInput =
    | NoMetadata
    | MetadataText(text: string)
    | MetadataObject(fields: map<string, Value>)

  /** `if (metadata)`: an empty text counts as absent, any object as present. */
  predicate MetadataGiven(metadata: MetadataInput)
  {
    match metadata
    case NoMetadata => false
    case MetadataText(t) => t != ""
    case MetadataObject(_) => true
  }

  /** The request made of a loader built from `source`: `loader.load()`, or
      `loader.loadAndSplit(textSplitter)`. */
  datatype LoadCall<S> = Load(source: S) | LoadAndSplit(source: S, splitter: Value)

  /** A file-backed loader's source: the base64 payload of one file and the
      loader's own options (a column, a pointer, or nothing). */
  datatype FileSource<X> = FileSource(payload: string, options: X)

  // ---------------------------------------------------------------------------
  // File inputs
  // ---------------------------------------------------------------------------

  /** `s.startsWith('[') && s.endsWith(']')` */
  predicate LooksLikeArray(s: string)
  {
    |s| > 0 && s[0] == '[' && s[|s| - 1] == ']'
  }

  /** The list of data URIs of a file input: the parsed JSON array when the
      text is bracketed, otherwise the text itself as the only file.
      `parseArray` stands for `JSON.parse`. */
  function FileList(s: string, parseArray: string -> Result<seq<string>, Exception>)
    : (r: Result<seq<string>, Exception>)
    ensures !LooksLikeArray(s) ==> r == Ok([s])
    ensures LooksLikeArray(s) ==> r == parseArray(s)
  {
    if LooksLikeArray(s) then parseArray(s) else Ok([s])
  }

  /** The payload of a data URI `data:<mime>;base64,<payload>,filename:<name>`:
      the comma-separated segment before the last, or '' when there is only one. */
  function Payload(file: string): (p: string)
    ensures ',' !in p
  {
    var parts := Split(file, ',');
    if |parts| >= 2 then parts[|parts| - 2] else ""
  }

  /** `split(',')`, then `pop()` the file name, then `pop() || ''`. */
  method ExtractPayload(file: string) returns (payload: string)
    ensures payload == Payload(file)
  {
    var splitDataURI := Split(file, ',');
    splitDataURI := splitDataURI[..|splitDataURI| - 1];
    if |splitDataURI| > 0 {
      payload := splitDataURI[|splitDataURI| - 1];
      splitDataURI := splitDataURI[..|splitDataURI| - 1];
    } else {
      payload := "";
    }
  }

  /** A well-formed data URI gives back exactly the payload it was built
      from, whatever its header holds. */
  lemma PayloadOfDataUri(header: string, data: string, name: string)
    requires ',' !in data && ',' !in name
    ensures Payload(header + "," + data + "," + name) == data
  {
    var file := header + "," + data + "," + name;
    assert file == header + [','] + (data + [','] + name);
    SplitAppend(header, ',', data + [','] + name);
    SplitAppend(data, ',', name);
    SplitWithoutSeparator(data, ',');
    SplitWithoutSeparator(name, ',');
  }

  /** With a single comma the payload is the text before it: the segment
      before the last is the first. */
  lemma PayloadOfOneComma(x: string, y: string)
    requires ',' !in x && ',' !in y
    ensures Payload(x + "," + y) == x
  {
    assert x + "," + y == x + [','] + y;
    SplitAppend(x, ',', y);
    SplitWithoutSeparator(x, ',');
    SplitWithoutSeparator(y, ',');
  }

  /** A text without commas has no payload. */
  lemma PayloadWithoutComma(file: string)
    requires ',' !in file
    ensures Payload(file) == ""
  {
    SplitWithoutSeparator(file, ',');
  }

  // ---------------------------------------------------------------------------
  // Loading
  // ---------------------------------------------------------------------------

  /** `if (textSplitter)`: the splitting path is taken exactly when a splitter is given. */
  function LoadCallFor<S>(source: S, textSplitter: Value): (c: LoadCall<S>)
    ensures c.source == source
    ensures c.LoadAndSplit? <==> Truthy(textSplitter)
    ensures c.LoadAndSplit? ==> c.splitter == textSplitter
  {
    if Truthy(textSplitter) then LoadAndSplit(source, textSplitter) else Load(source)
  }

  /** The documents of one file. `library` stands for the loader library. */
  function FileDocuments<X>(file: string, options: X, textSplitter: Value,
                            library: LoadCall<FileSource<X>> -> seq<Document>): seq<Document>
  {
    library(LoadCallFor(FileSource(Payload(file), options), textSplitter))
  }

  /** `alldocs`: the documents of every file, in file order. */
  function FilesDocuments<X>(files: seq<string>, options: X, textSplitter: Value,
                             library: LoadCall<FileSource<X>> -> seq<Document>): seq<Document>
  {
    if files == [] then []
    else FilesDocuments(files[..|files| - 1], options, textSplitter, library)
         + FileDocuments(files[|files| - 1], options, textSplitter, library)
  }

  /** The loop over the files: extract each payload, load, push the documents. */
  method LoadFiles<X>(files: seq<string>, options: X, textSplitter: Value,
                      library: LoadCall<FileSource<X>> -> seq<Document>)
    returns (alldocs: seq<Document>)
    ensures alldocs == FilesDocuments(files, options, textSplitter, library)
  {
    alldocs := [];
    var i := 0;
    while i < |files|
      invariant 0 <= i <= |files|
      invariant alldocs == FilesDocuments(files[..i], options, textSplitter, library)
    {
      var payload := ExtractPayload(files[i]);
      var docs := library(LoadCallFor(FileSource(payload, options), textSplitter));
      alldocs := alldocs + docs;
      assert files[..i + 1][..i] == files[..i];
      i := i + 1;
    }
    assert files[..i] == files;
  }

  /** The documents of a list of files are those of its parts, in order. */
  lemma {:induction false} FilesDocumentsAppend<X>(a: seq<string>, b: seq<string>, options: X, textSplitter: Value,
                                                   library: LoadCall<FileSource<X>> -> seq<Document>)
    ensures FilesDocuments(a + b, options, textSplitter, library)
         == FilesDocuments(a, options, textSplitter, library) + FilesDocuments(b, options, textSplitter, library)
  {
    if b == [] {
      assert a + b == a;
    } else {
      var front, last := b[..|b| - 1], b[|b| - 1];
      assert (a + b)[..|a + b| - 1] == a + front;
      assert (a + b)[|a + b| - 1] == last;
      assert FilesDocuments(a + b, options, textSplitter, library)
          == FilesDocuments(a + front, options, textSplitter, library)
             + FileDocuments(last, options, textSplitter, library);
      FilesDocumentsAppend(a, front, options, textSplitter, library);
    }
  }

  /** One file gives exactly that file's documents. */
  lemma FilesDocumentsSingle<X>(file: string, options: X, textSplitter: Value,
                                library: LoadCall<FileSource<X>> -> seq<Document>)
    ensures FilesDocuments([file], options, textSplitter, library) == FileDocuments(file, options, textSplitter, library)
  {
    assert [file][..0] == [];
  }

  // ---------------------------------------------------------------------------
  // Metadata overlay
  // ---------------------------------------------------------------------------

  /** `{...doc, metadata: {...doc.metadata, ...overlay}}`: the text is kept,
      the overlay's keys win, and every other metadata key is kept. */
  function WithMetadata(doc: Document, overlay: map<string, Value>): (d: Document)
    ensures d.pageContent == doc.pageContent
    ensures d.metadata.Keys == doc.metadata.Keys + overlay.Keys
    ensures forall k :: k in overlay ==> d.metadata[k] == overlay[k]
    ensures forall k :: k in doc.metadata && k !in overlay ==> d.metadata[k] == doc.metadata[k]
  {
    doc.(metadata := doc.metadata + overlay)
  }

  /** `finaldocs`: every document overlaid, in the same order. */
  function Overlaid(docs: seq<Document>, overlay: map<string, Value>): (r: seq<Document>)
    ensures |r| == |docs|
  {
    seq(|docs|, i requires 0 <= i < |docs| => WithMetadata(docs[i], overlay))
  }

  /** The loop that pushes each overlaid document. */
  method OverlayMetadata(docs: seq<Document>, overlay: map<string, Value>) returns (finaldocs: seq<Document>)
    ensures finaldocs == Overlaid(docs, overlay)
  {
    finaldocs := [];
    var i := 0;
    while i < |docs|
      invariant 0 <= i <= |docs|
      invariant |finaldocs| == i
      invariant forall j :: 0 <= j < i ==> finaldocs[j] == WithMetadata(docs[j], overlay)
    {
      var newdoc := WithMetadata(docs[i], overlay);
      finaldocs := finaldocs + [newdoc];
      i := i + 1;
    }
  }

  /** The overlay object: an object is used as it is, a text is parsed by
      `parse` (standing for `JSON.parse`). */
  function ParsedMetadata(metadata: MetadataInput, parse: string -> Result<map<string, Value>, Exception>)
    : (r: Result<map<string, Value>, Exception>)
    ensures metadata.MetadataObject? ==> r == Ok(metadata.fields)
    ensures metadata.MetadataText? ==> r == parse(metadata.text)
    ensures r.Err? ==> metadata.MetadataText?
  {
    match metadata
    case MetadataObject(fields) => Ok(fields)
    case MetadataText(t) => parse(t)
    case NoMetadata => Ok(map[])
  }

  /** The metadata step throws: metadata is given and its text does not parse. */
  predicate MetadataFails(metadata: MetadataInput, parse: string -> Result<map<string, Value>, Exception>)
  {
    MetadataGiven(metadata) && ParsedMetadata(metadata, parse).Err?
  }

  /** The result of a loader: the documents as loaded without metadata,
      otherwise overlaid with the parsed metadata, or the parse error. */
  function MetadataApplied(docs: seq<Document>, metadata: MetadataInput,
                           parse: string -> Result<map<string, Value>, Exception>)
    : (r: Result<seq<Document>, Exception>)
    ensures !MetadataGiven(metadata) ==> r == Ok(docs)
    ensures r.Err? <==> MetadataFails(metadata, parse)
    ensures r.Err? ==> r.error == ParsedMetadata(metadata, parse).error
    ensures r.Ok? ==> |r.value| == |docs|
    ensures r.Ok? ==> forall i :: 0 <= i < |docs| ==> r.value[i].pageContent == docs[i].pageContent
  {
    if !MetadataGiven(metadata) then Ok(docs)
    else
      match ParsedMetadata(metadata, parse)
      case Ok(overlay) => Ok(Overlaid(docs, overlay))
      case Err(e) => Err(e)
  }

  /** The metadata step every loader ends with. */
  method ApplyMetadata(docs: seq<Document>, metadata: MetadataInput,
                       parse: string -> Result<map<string, Value>, Exception>)
    returns (r: Result<seq<Document>, Exception>)
    ensures r == MetadataApplied(docs, metadata, parse)
  {
    if MetadataGiven(metadata) {
      var parsedMetadata := ParsedMetadata(metadata, parse);
      if parsedMetadata.Err? {
        return Err(parsedMetadata.error);
      }
      var finaldocs := OverlayMetadata(docs, parsedMetadata.value);
      return Ok(finaldocs);
    }
    return Ok(docs);
  }

  /** The overlay keeps count, order and text, lets the overlay's keys win
      and keeps the document's other keys. */
  lemma OverlaidDocuments(docs: seq<Document>, overlay: map<string, Value>, i: nat, k: string)
    requires i < |docs|
    ensures |Overlaid(docs, overlay)| == |docs|
    ensures Overlaid(docs, overlay)[i].pageContent == docs[i].pageContent
    ensures k in overlay ==> Overlaid(docs, overlay)[i].metadata[k] == overlay[k]
    ensures k !in overlay && k in docs[i].metadata ==> Overlaid(docs, overlay)[i].metadata[k] == docs[i].metadata[k]
    ensures k in Overlaid(docs, overlay)[i].metadata <==> k in docs[i].metadata || k in overlay
  {
  }

  /** Overlaying twice with the same object changes nothing more. */
  lemma OverlayIdempotent(docs: seq<Document>, overlay: map<string, Value>)
    ensures Overlaid(Overlaid(docs, overlay), overlay) == Overlaid(docs, overlay)
  {
    var once := Overlaid(docs, overlay);
    forall i | 0 <= i < |docs|
      ensures WithMetadata(once[i], overlay) == once[i]
    {
      assert once[i].metadata + overlay == once[i].metadata;
    }
  }

  /** Without metadata, or with an empty text, the documents come back as loaded. */
  lemma NoMetadataKeepsDocuments(docs: seq<Document>, parse: string -> Result<map<string, Value>, Exception>)
    ensures MetadataApplied(docs, NoMetadata, parse) == Ok(docs)
    ensures MetadataApplied(docs, MetadataText(""), parse) == Ok(docs)
  {
  }

  /** An object is used as it is, without consulting the parser; a text and
      the object it parses to give the same documents. */
  lemma MetadataTextAsObject(docs: seq<Document>, text: string, fields: map<string, Value>,
                             parse: string -> Result<map<string, Value>, Exception>)
    requires text != "" && parse(text) == Ok(fields)
    ensures MetadataApplied(docs, MetadataText(text), parse) == MetadataApplied(docs, MetadataObject(fields), parse)
    ensures MetadataApplied(docs, MetadataObject(fields), parse) == Ok(Overlaid(docs, fields))
  {
  }
}
