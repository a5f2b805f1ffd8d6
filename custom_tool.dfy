/** The custom tool node: a tool stored by the user (name, description, a
    JSON schema of its arguments and its code) becomes a structured tool
    whose argument object has one typed field per schema item. */
module CustomToolNode {
  import opened Js

  /** A row of the tool table. */
  datatype Tool = Tool(id: string, name: string, description: string, schema: string, func: string)

  /** One item of a tool's schema: the argument name, its declared type,
      its description and its `required` flag (of any JSON value). */
  datatype SchemaItem = SchemaItem(property: string, kind: string, description: string, required: Value)

  /** The argument types a tool can declare. */
  datatype FieldKind = StringField | NumberField | BooleanField

  /** A field of the argument object: its type and its description. */
  datatype ZodField = ZodField(kind: FieldKind, description: string)

  /** An entry of the tool drop-down: its `label`, `name` and `description`. */
  datatype NodeOption = NodeOption(labelText: string, name: string, description: string)

  /** The tool `init` builds. */
  datatype StructuredTool = StructuredTool(name: string, description: string, schema: map<string, ZodField>, code: string)

  /** The field type of a declared type name, if it is one of the three known. */
  function KindOf(kind: string): (k: Option<FieldKind>)
    ensures k.Some? <==> kind == "string" || kind == "number" || kind == "boolean"
    ensures kind == "string" ==> k == Some(StringField)
    ensures kind == "number" ==> k == Some(NumberField)
    ensures kind == "boolean" ==> k == Some(BooleanField)
  {
    if kind == "string" then Some(StringField)
    else if kind == "number" then Some(NumberField)
    else if kind == "boolean" then Some(BooleanField)
    else None
  }

  predicate Known(item: SchemaItem)
  {
    KindOf(item.kind).Some?
  }

  function FieldOf(item: SchemaItem): ZodField
    requires Known(item)
  {
    ZodField(KindOf(item.kind).value, item.description)
  }

  // ---------------------------------------------------------------------------
  // convertSchemaToZod
  // ---------------------------------------------------------------------------

  /** The argument object of a schema: the items are applied in order, each
      known item setting the field of its property; other items are skipped. */
  function SchemaFields(items: seq<SchemaItem>): (fields: map<string, ZodField>)
    ensures |fields| <= |items|
  {
    if items == [] then map[]
    else
      var last := items[|items| - 1];
      var fields := SchemaFields(items[..|items| - 1]);
      if Known(last) then fields[last.property := FieldOf(last)] else fields
  }

  /** `convertSchemaToZod`. `parse` stands for `JSON.parse` reading the
      schema as a list of items; its error is rethrown as a plain `Error`. */
  method ConvertSchemaToZod(schema: string, parse: string -> Result<seq<SchemaItem>, Exception>)
    returns (r: Result<map<string, ZodField>, Exception>)
    ensures parse(schema).Ok? ==> r == Ok(SchemaFields(parse(schema).value))
    ensures parse(schema).Err? ==> r == Err(Rethrow(parse(schema).error))
  {
    var parsedSchema := parse(schema);
    if parsedSchema.Err? {
      return Err(Rethrow(parsedSchema.error));
    }
    var items := parsedSchema.value;
    var zodObj: map<string, ZodField> := map[];
    for i := 0 to |items|
      invariant zodObj == SchemaFields(items[..i])
    {
      assert items[..i + 1][..i] == items[..i];
      var sch := items[i];
      if sch.kind == "string" {
        zodObj := zodObj[sch.property := ZodField(StringField, sch.description)];
      } else if sch.kind == "number" {
        zodObj := zodObj[sch.property := ZodField(NumberField, sch.description)];
      } else if sch.kind == "boolean" {
        zodObj := zodObj[sch.property := ZodField(BooleanField, sch.description)];
      }
    }
    assert items[..|items|] == items;
    return Ok(zodObj);
  }

  /** A property is a field exactly when some item of a known type names it. */
  lemma {:induction false} SchemaFieldsKeys(items: seq<SchemaItem>, p: string)
    ensures p in SchemaFields(items) <==> exists i :: 0 <= i < |items| && items[i].property == p && Known(items[i])
  {
    if items != [] {
      var n := |items| - 1;
      SchemaFieldsKeys(items[..n], p);
      if p in SchemaFields(items[..n]) {
        var i :| 0 <= i < n && items[..n][i].property == p && Known(items[..n][i]);
        assert items[i] == items[..n][i];
      }
      if exists i :: 0 <= i < |items| && items[i].property == p && Known(items[i]) {
        var i :| 0 <= i < |items| && items[i].property == p && Known(items[i]);
        if i < n {
          assert items[..n][i] == items[i];
        }
      }
    }
  }

  /** The field of a property is the one of the last known item naming it. */
  lemma {:induction false} SchemaFieldsLastWins(items: seq<SchemaItem>, i: nat)
    requires i < |items| && Known(items[i])
    requires forall j :: i < j < |items| && items[j].property == items[i].property ==> !Known(items[j])
    ensures items[i].property in SchemaFields(items)
    ensures SchemaFields(items)[items[i].property] == FieldOf(items[i])
  {
    var n := |items| - 1;
    if i < n {
      assert forall j :: i < j < n ==> items[..n][j] == items[j];
      SchemaFieldsLastWins(items[..n], i);
    }
  }

  /** The `required` flag makes no difference to the argument object: two
      schemas that differ only in their flags give the same fields. */
  lemma {:induction false} RequiredIgnored(a: seq<SchemaItem>, b: seq<SchemaItem>)
    requires |a| == |b|
    requires forall i :: 0 <= i < |a| ==> a[i].(required := Undefined) == b[i].(required := Undefined)
    ensures SchemaFields(a) == SchemaFields(b)
  {
    if a != [] {
      var n := |a| - 1;
      RequiredIgnored(a[..n], b[..n]);
      assert a[n].(required := Undefined) == b[n].(required := Undefined);
    }
  }

  // ---------------------------------------------------------------------------
  // listTools and init
  // ---------------------------------------------------------------------------

  /** The drop-down entry of a tool. */
  function OptionOf(t: Tool): NodeOption
  {
    NodeOption(t.name, t.id, t.description)
  }

  /** `listTools`. The tool table is `None` when there is no data source. */
  method ListTools(table: Option<seq<Tool>>) returns (returnData: seq<NodeOption>)
    ensures table.None? ==> returnData == []
    ensures table.Some? ==> |returnData| == |table.value|
    ensures table.Some? ==> forall i :: 0 <= i < |returnData| ==>
              returnData[i].labelText == table.value[i].name
              && returnData[i].name == table.value[i].id
              && returnData[i].description == table.value[i].description
  {
    returnData := [];
    if table.None? {
      return;
    }
    var tools := table.value;
    for i := 0 to |tools|
      invariant |returnData| == i
      invariant forall j :: 0 <= j < i ==> returnData[j] == OptionOf(tools[j])
    {
      returnData := returnData + [OptionOf(tools[i])];
    }
  }

  /** `findOneBy({ id })`: the first tool with the id, if any. */
  function FindTool(tools: seq<Tool>, id: string): (r: Option<Tool>)
    ensures r.None? <==> forall i :: 0 <= i < |tools| ==> tools[i].id != id
    ensures r.Some? ==> r.value in tools && r.value.id == id
  {
    if tools == [] then None
    else if tools[0].id == id then Some(tools[0])
    else FindTool(tools[1..], id)
  }

  /** What `undefined.getRepository` throws when there is no data source. */
  const NoRepository := Exception("TypeError", "Cannot read properties of undefined (reading 'getRepository')")

  /** `init`. Every error raised inside the `try` is rethrown as a plain
      `Error`; a schema error was already rethrown once, so it is wrapped twice. */
  method Init(selectedToolId: string, table: Option<seq<Tool>>,
              parse: string -> Result<seq<SchemaItem>, Exception>)
    returns (r: Result<StructuredTool, Exception>)
    ensures table.None? ==> r == Err(Rethrow(NoRepository))
    ensures table.Some? && FindTool(table.value, selectedToolId).None? ==>
              r == Err(Rethrow(ErrorOf("Tool " + selectedToolId + " not found")))
    ensures table.Some? && FindTool(table.value, selectedToolId).Some? ==>
              var tool := FindTool(table.value, selectedToolId).value;
              match parse(tool.schema)
              case Ok(items) => r == Ok(StructuredTool(tool.name, tool.description, SchemaFields(items), tool.func))
              case Err(e) => r == Err(Rethrow(Rethrow(e)))
  {
    if table.None? {
      return Err(Rethrow(NoRepository));
    }
    var tool := FindTool(table.value, selectedToolId);
    if tool.None? {
      return Err(Rethrow(ErrorOf("Tool " + selectedToolId + " not found")));
    }
    var schema := ConvertSchemaToZod(tool.value.schema, parse);
    if schema.Err? {
      return Err(Rethrow(schema.error));
    }
    return Ok(StructuredTool(tool.value.name, tool.value.description, schema.value, tool.value.func));
  }

  /** The message a missing tool produces once rethrown. */
  lemma NotFoundMessage(id: string)
    ensures Rethrow(ErrorOf("Tool " + id + " not found")).message == "Error: Tool " + id + " not found"
  {
  }

  /** Every entry of the drop-down names a tool that `init` finds. */
  lemma ListedToolsFound(tools: seq<Tool>, i: nat)
    requires i < |tools|
    ensures FindTool(tools, OptionOf(tools[i]).name).Some?
  {
  }
}
