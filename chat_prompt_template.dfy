/** The chat prompt template node: a system and a human message template,
    and the prompt values given as JSON text, from which every whitespace
    character is removed before parsing. */
module ChatPromptTemplateNode {
  import opened Js
  import opened JsStrings

  /** The prompt `init` returns, with the values attached to it. */
  datatype ChatPromptTemplate = ChatPromptTemplate(
    systemTemplate: string,
    humanTemplate: string,
    promptValues: map<string, Value>)

  /** The prompt values of the node. An absent or empty text gives no
      values; any other text is stripped of whitespace and handed to `parse`,
      which stands for `JSON.parse`. */
  function PromptValues(promptValuesStr: Option<string>, parse: string -> Result<map<string, Value>, Exception>)
    : (r: Result<map<string, Value>, Exception>)
    ensures promptValuesStr.None? || promptValuesStr == Some("") ==> r == Ok(map[])
    ensures promptValuesStr.Some? && promptValuesStr.value != "" ==>
              r == parse(StripWhitespace(promptValuesStr.value))
  {
    if promptValuesStr.Some? && promptValuesStr.value != "" then
      parse(StripWhitespace(promptValuesStr.value))
    else Ok(map[])
  }

  /** `init` of the node. */
  function Init(systemMessagePrompt: string, humanMessagePrompt: string, promptValuesStr: Option<string>,
                parse: string -> Result<map<string, Value>, Exception>)
    : (r: Result<ChatPromptTemplate, Exception>)
    ensures r.Ok? <==> PromptValues(promptValuesStr, parse).Ok?
    ensures r.Ok? ==> r.value.systemTemplate == systemMessagePrompt
                      && r.value.humanTemplate == humanMessagePrompt
                      && r.value.promptValues == PromptValues(promptValuesStr, parse).value
    ensures r.Err? ==> r.error == PromptValues(promptValuesStr, parse).error
  {
    match PromptValues(promptValuesStr, parse)
    case Ok(values) => Ok(ChatPromptTemplate(systemMessagePrompt, humanMessagePrompt, values))
    case Err(e) => Err(e)
  }

  /** The text the parser sees has no whitespace, keeps every other
      character in its original order, and is the same text if stripped again. */
  lemma ParserSeesStrippedText(a: string, b: string)
    requires a + b != ""
    ensures PromptValues(Some(a + b), (t: string) => Err(ErrorOf(t)))
         == Err(ErrorOf(StripWhitespace(a) + StripWhitespace(b)))
    ensures NoWhitespace(StripWhitespace(a + b))
    ensures StripWhitespace(StripWhitespace(a + b)) == StripWhitespace(a + b)
  {
    StripWhitespaceAppend(a, b);
    StripWhitespaceRemovesAll(a + b);
    StripWhitespaceIdempotent(a + b);
  }

  /** Inserting whitespace anywhere, even inside a quoted value, changes
      nothing the parser sees. */
  lemma WhitespaceAnywhereIgnored(a: string, w: string, b: string,
                                  parse: string -> Result<map<string, Value>, Exception>)
    requires AllWhitespace(w) && a + b != ""
    ensures PromptValues(Some(a + w + b), parse) == PromptValues(Some(a + b), parse)
  {
    StripWhitespaceAppend(a + w, b);
    StripWhitespaceAppend(a, w);
    StripWhitespaceAppend(a, b);
    StripAllWhitespace(w);
    assert StripWhitespace(a + w + b) == StripWhitespace(a + b);
  }

  /** A text made only of whitespace is truthy, so it reaches the parser as
      the empty text (on which `JSON.parse` throws). */
  lemma BlankTextParsesEmpty(s: string, parse: string -> Result<map<string, Value>, Exception>)
    requires s != "" && AllWhitespace(s)
    ensures PromptValues(Some(s), parse) == parse("")
  {
    StripAllWhitespace(s);
  }

  /** A value containing a space loses it: `{"a": "x y"}` is parsed as `{"a":"xy"}`. */
  lemma QuotedSpaceLost(parse: string -> Result<map<string, Value>, Exception>)
    ensures PromptValues(Some("{\"a\": \"x y\"}"), parse) == parse("{\"a\":\"xy\"}")
  {
    var a := "{\"a\":";
    var b := "\"x";
    var c := "y\"}";
    assert "{\"a\": \"x y\"}" == a + " " + (b + " " + c);
    assert NoWhitespace(a) && NoWhitespace(b) && NoWhitespace(c);
    StripAroundSpaces(a, b, c);
    assert a + b + c == "{\"a\":\"xy\"}";
  }

  /** Two spaces between clean pieces are removed and nothing else is. */
  lemma StripAroundSpaces(a: string, b: string, c: string)
    requires NoWhitespace(a) && NoWhitespace(b) && NoWhitespace(c)
    ensures StripWhitespace(a + " " + (b + " " + c)) == a + b + c
  {
    StripWhitespaceKeepsClean(a);
    StripWhitespaceKeepsClean(b);
    StripWhitespaceKeepsClean(c);
    StripWhitespaceChar(' ');
    StripWhitespaceAppend(b, " ");
    assert StripWhitespace(b + " ") == b;
    StripWhitespaceAppend(b + " ", c);
    assert StripWhitespace(b + " " + c) == b + c;
    StripWhitespaceAppend(a, " ");
    assert StripWhitespace(a + " ") == a;
    StripWhitespaceAppend(a + " ", b + " " + c);
    assert a + " " + (b + " " + c) == (a + " ") + (b + " " + c);
  }

  /** A text of whitespace strips to nothing. */
  lemma {:induction false} StripAllWhitespace(w: string)
    requires AllWhitespace(w)
    ensures StripWhitespace(w) == ""
  {
    if w != [] {
      StripAllWhitespace(w[1..]);
    }
  }
}
