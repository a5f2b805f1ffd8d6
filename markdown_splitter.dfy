/** The Markdown text splitter node: its options object has a chunk size
    and a chunk overlap, each only when its input is truthy. */
module MarkdownTextSplitterNode {
  import opened Js
  import opened JsNumbers

  datatype SplitterParams = SplitterParams(chunkSize: Option<Number>, chunkOverlap: Option<Number>)

  function ParamsOf(chunkSize: Value, chunkOverlap: Value): (p: SplitterParams)
    ensures p.chunkSize.Some? <==> Truthy(chunkSize)
    ensures p.chunkOverlap.Some? <==> Truthy(chunkOverlap)
    ensures p.chunkSize.Some? ==> p.chunkSize.value == ParseIntValue(chunkSize)
    ensures p.chunkOverlap.Some? ==> p.chunkOverlap.value == ParseIntValue(chunkOverlap)
  {
    SplitterParams(IntField(chunkSize), IntField(chunkOverlap))
  }

  /** `init`: an empty object receiving the conditional assignments. */
  method Init(chunkSize: Value, chunkOverlap: Value) returns (obj: SplitterParams)
    ensures obj == ParamsOf(chunkSize, chunkOverlap)
  {
    obj := SplitterParams(None, None);
    if Truthy(chunkSize) { obj := obj.(chunkSize := Some(ParseIntValue(chunkSize))); }
    if Truthy(chunkOverlap) { obj := obj.(chunkOverlap := Some(ParseIntValue(chunkOverlap))); }
  }

  /** The node applies no default of its own: missing inputs leave the
      object empty (the 1000 of the form is not used here). */
  lemma NoDefaults()
    ensures ParamsOf(Undefined, Undefined) == SplitterParams(None, None)
    ensures ParamsOf(Str(""), Num(0)) == SplitterParams(None, None)
  {
  }

  /** Numbers given as numbers or as their decimal strings come through
      unchanged, unless zero. */
  lemma ChunkSizesKept(size: int, overlap: int)
    requires size != 0 && overlap != 0
    ensures ParamsOf(Num(size), Str(IntToString(overlap))) == SplitterParams(Some(Int(size)), Some(Int(overlap)))
  {
    IntFieldOfInteger(size);
    IntFieldOfInteger(overlap);
  }
}
