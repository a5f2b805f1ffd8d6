/** The OpenAI completion model node: the options object handed to the
    client library, built from the form inputs. Integer options are set
    only from truthy inputs, through `parseInt(_, 10)`. */
module OpenAINode {
  import opened Js
  import opened JsNumbers

  /** The form inputs `init` reads (the temperature is not part of this model). */
  datatype OpenAIInputs = OpenAIInputs(
    modelName: Value,
    openAIApiKey: Value,
    maxTokens: Value,
    topP: Value,
    frequencyPenalty: Value,
    presencePenalty: Value,
    timeout: Value,
    batchSize: Value,
    bestOf: Value,
    streaming: Value,
    basePath: Value)

  /** The options object; an absent optional field is `None`. */
  datatype OpenAIOptions = OpenAIOptions(
    modelName: Value,
    openAIApiKey: Value,
    streaming: Value,
    maxTokens: Option<Number>,
    topP: Option<Number>,
    frequencyPenalty: Option<Number>,
    presencePenalty: Option<Number>,
    timeout: Option<Number>,
    batchSize: Option<Number>,
    bestOf: Option<Number>)

  /** The second constructor argument, the client configuration. */
  datatype ClientConfig = ClientConfig(basePath: Value)

  /** The options every input gives: names and key copied, `streaming ?? true`,
      and each integer field present exactly when its input is truthy. */
  function OptionsOf(i: OpenAIInputs): (o: OpenAIOptions)
    ensures o.modelName == i.modelName && o.openAIApiKey == i.openAIApiKey
    ensures o.streaming == Coalesce(i.streaming, Bool(true))
    ensures o.maxTokens == IntField(i.maxTokens) && o.topP == IntField(i.topP)
    ensures o.frequencyPenalty == IntField(i.frequencyPenalty) && o.presencePenalty == IntField(i.presencePenalty)
    ensures o.timeout == IntField(i.timeout) && o.batchSize == IntField(i.batchSize) && o.bestOf == IntField(i.bestOf)
  {
    OpenAIOptions(i.modelName, i.openAIApiKey, Coalesce(i.streaming, Bool(true)),
                  IntField(i.maxTokens), IntField(i.topP), IntField(i.frequencyPenalty),
                  IntField(i.presencePenalty), IntField(i.timeout), IntField(i.batchSize), IntField(i.bestOf))
  }

  /** `init`: the object is created with the fixed fields, then extended
      one conditional assignment at a time. */
  method Init(i: OpenAIInputs) returns (obj: OpenAIOptions, config: ClientConfig)
    ensures obj == OptionsOf(i)
    ensures config == ClientConfig(i.basePath)
  {
    obj := OpenAIOptions(i.modelName, i.openAIApiKey, Coalesce(i.streaming, Bool(true)),
                         None, None, None, None, None, None, None);
    if Truthy(i.maxTokens) { obj := obj.(maxTokens := Some(ParseIntValue(i.maxTokens))); }
    if Truthy(i.topP) { obj := obj.(topP := Some(ParseIntValue(i.topP))); }
    if Truthy(i.frequencyPenalty) { obj := obj.(frequencyPenalty := Some(ParseIntValue(i.frequencyPenalty))); }
    if Truthy(i.presencePenalty) { obj := obj.(presencePenalty := Some(ParseIntValue(i.presencePenalty))); }
    if Truthy(i.timeout) { obj := obj.(timeout := Some(ParseIntValue(i.timeout))); }
    if Truthy(i.batchSize) { obj := obj.(batchSize := Some(ParseIntValue(i.batchSize))); }
    if Truthy(i.bestOf) { obj := obj.(bestOf := Some(ParseIntValue(i.bestOf))); }
    config := ClientConfig(i.basePath);
  }

  /** Streaming is on unless the input says otherwise: a missing value
      gives `true`, an explicit `false` is kept. */
  lemma StreamingDefault(i: OpenAIInputs)
    ensures i.streaming == Undefined || i.streaming == Null ==> OptionsOf(i).streaming == Bool(true)
    ensures i.streaming == Bool(false) ==> OptionsOf(i).streaming == Bool(false)
  {
  }

  /** A fractional top-p or penalty is cut to its integer part: "0.9" gives 0. */
  lemma FractionsTruncated(i: OpenAIInputs)
    requires i.topP == Str("0.9") && i.frequencyPenalty == Str("0.9") && i.presencePenalty == Str("0.9")
    ensures OptionsOf(i).topP == Some(Int(0))
    ensures OptionsOf(i).frequencyPenalty == Some(Int(0))
    ensures OptionsOf(i).presencePenalty == Some(Int(0))
  {
    ParseIntOfDecimal();
  }

  /** Integer inputs come through unchanged, except zero, which is falsy
      and so leaves its field out. */
  lemma IntegersKept(i: OpenAIInputs, n: int)
    requires i.maxTokens == Num(n) && i.batchSize == Str(IntToString(n))
    ensures n != 0 ==> OptionsOf(i).maxTokens == Some(Int(n)) && OptionsOf(i).batchSize == Some(Int(n))
    ensures n == 0 ==> OptionsOf(i).maxTokens.None?
  {
    IntFieldOfInteger(n);
  }
}
