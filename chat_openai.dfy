/** The OpenAI chat model node: as the completion model node, without the
    batch size and best-of options. */
module ChatOpenAINode {
  import opened Js
  import opened JsNumbers

  /** The form inputs `init` reads (the temperature is not part of this model). */
  datatype ChatOpenAIInputs = ChatOpenAIInputs(
    modelName: Value,
    openAIApiKey: Value,
    maxTokens: Value,
    topP: Value,
    frequencyPenalty: Value,
    presencePenalty: Value,
    timeout: Value,
    streaming: Value,
    basePath: Value)

  /** The options object: it has no field for a batch size or best-of. */
  datatype ChatOpenAIOptions = ChatOpenAIOptions(
    modelName: Value,
    openAIApiKey: Value,
    streaming: Value,
    maxTokens: Option<Number>,
    topP: Option<Number>,
    frequencyPenalty: Option<Number>,
    presencePenalty: Option<Number>,
    timeout: Option<Number>)

  datatype ClientConfig = ClientConfig(basePath: Value)

  function OptionsOf(i: ChatOpenAIInputs): (o: ChatOpenAIOptions)
    ensures o.modelName == i.modelName && o.openAIApiKey == i.openAIApiKey
    ensures o.streaming == Coalesce(i.streaming, Bool(true))
    ensures o.maxTokens == IntField(i.maxTokens) && o.topP == IntField(i.topP)
    ensures o.frequencyPenalty == IntField(i.frequencyPenalty) && o.presencePenalty == IntField(i.presencePenalty)
    ensures o.timeout == IntField(i.timeout)
  {
    ChatOpenAIOptions(i.modelName, i.openAIApiKey, Coalesce(i.streaming, Bool(true)),
                      IntField(i.maxTokens), IntField(i.topP), IntField(i.frequencyPenalty),
                      IntField(i.presencePenalty), IntField(i.timeout))
  }

  /** `init`: the fixed fields first, then the conditional assignments. */
  method Init(i: ChatOpenAIInputs) returns (obj: ChatOpenAIOptions, config: ClientConfig)
    ensures obj == OptionsOf(i)
    ensures config == ClientConfig(i.basePath)
  {
    obj := ChatOpenAIOptions(i.modelName, i.openAIApiKey, Coalesce(i.streaming, Bool(true)),
                             None, None, None, None, None);
    if Truthy(i.maxTokens) { obj := obj.(maxTokens := Some(ParseIntValue(i.maxTokens))); }
    if Truthy(i.topP) { obj := obj.(topP := Some(ParseIntValue(i.topP))); }
    if Truthy(i.frequencyPenalty) { obj := obj.(frequencyPenalty := Some(ParseIntValue(i.frequencyPenalty))); }
    if Truthy(i.presencePenalty) { obj := obj.(presencePenalty := Some(ParseIntValue(i.presencePenalty))); }
    if Truthy(i.timeout) { obj := obj.(timeout := Some(ParseIntValue(i.timeout))); }
    config := ClientConfig(i.basePath);
  }

  /** With every optional input missing, only the fixed fields remain and
      streaming is on. */
  lemma MissingInputsOmitted(i: ChatOpenAIInputs)
    requires i.maxTokens == Undefined && i.topP == Undefined && i.frequencyPenalty == Undefined
    requires i.presencePenalty == Undefined && i.timeout == Undefined && i.streaming == Undefined
    ensures OptionsOf(i) == ChatOpenAIOptions(i.modelName, i.openAIApiKey, Bool(true), None, None, None, None, None)
  {
  }

  /** A fractional top-p is cut to its integer part, and a word gives `NaN`. */
  lemma TopPParsedAsInteger(i: ChatOpenAIInputs)
    requires i.topP == Str("0.9") && i.timeout == Str("abc")
    ensures OptionsOf(i).topP == Some(Int(0))
    ensures OptionsOf(i).timeout == Some(NaN)
  {
    ParseIntOfDecimal();
    assert IntField(i.topP) == Some(ParseInt("0.9"));
    var word := "abc";
    assert word[0] == 'a';
    ParseIntOfWord(word);
    assert IntField(i.timeout) == Some(ParseInt(word));
  }
}
