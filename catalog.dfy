/** The tool catalog handed to the language model with every call: four
    function tools, each with an object schema of named, typed arguments and
    the list of arguments it requires. The same literal appears in four
    places in the repository; this module is that one catalog. */
module Catalog {
  import opened Common

  /** The closed set of tool names the dispatchers recognise. */
  datatype Tool = GetSlideTool | GetExcelDataTool | ModifySlideTool | ModifyExcelTool

  /** The argument keys the tools declare. */
  datatype ArgKey = FilePath | SlideIndex | SheetName | Code

  /** JSON-schema type names used in the catalog. */
  datatype JsonType = StringType | IntegerType

  /** One entry under "properties": the key, its "type" and "description". */
  datatype Param = Param(key: ArgKey, jsonType: JsonType, description: string)

  /** One catalog entry: {"type": "function", "function": {"name", "description",
      "parameters": {"type": "object", "properties", "required"}}}. */
  datatype ToolSpec = ToolSpec(tool: Tool, description: string, properties: seq<Param>, required: seq<ArgKey>)

  function ToolName(t: Tool): string
  {
    match t
    case GetSlideTool => "get_slide"
    case GetExcelDataTool => "get_excel_data"
    case ModifySlideTool => "modify_slide"
    case ModifyExcelTool => "modify_excel"
  }

  function KeyName(k: ArgKey): string
  {
    match k
    case FilePath => "file_path"
    case SlideIndex => "slide_index"
    case SheetName => "sheet_name"
    case Code => "code"
  }

  /** The dispatchers' if/elif chain on the tool name: the tool a name
      selects, or None for any other name. */
  function ParseTool(name: string): (r: Option<Tool>)
    ensures r.Some? ==> ToolName(r.value) == name
  {
    if name == "get_slide" then Some(GetSlideTool)
    else if name == "get_excel_data" then Some(GetExcelDataTool)
    else if name == "modify_slide" then Some(ModifySlideTool)
    else if name == "modify_excel" then Some(ModifyExcelTool)
    else None
  }

  /** Every tool's own name selects that tool, so ParseTool and ToolName are
      inverse on the four names and every other name is unknown. */
  lemma ParseToolName(t: Tool)
    ensures ParseTool(ToolName(t)) == Some(t)
  {
    match t
    case GetSlideTool =>
    case GetExcelDataTool =>
      assert ToolName(t) != "get_slide" by { assert |ToolName(t)| != |"get_slide"|; }
    case ModifySlideTool =>
      assert ToolName(t) != "get_slide" by { assert ToolName(t)[0] != 'g'; }
      assert ToolName(t) != "get_excel_data" by { assert ToolName(t)[0] != 'g'; }
    case ModifyExcelTool =>
      assert ToolName(t) != "get_slide" by { assert ToolName(t)[0] != 'g'; }
      assert ToolName(t) != "get_excel_data" by { assert ToolName(t)[0] != 'g'; }
      assert ToolName(t) != "modify_slide" by { assert ToolName(t)[7] != "modify_slide"[7]; }
  }

  /** A name is unknown exactly when it is none of the four catalog names. */
  lemma {:induction false} UnknownExactly(name: string)
    ensures ParseTool(name).None? <==> forall t: Tool :: ToolName(t) != name
  {
    if ParseTool(name).None? {
      forall t: Tool ensures ToolName(t) != name {
        ParseToolName(t);
      }
    }
  }

  /** The arguments the dispatcher reads from the tool-argument map for each
      tool, in the order it reads them. */
  function ArgumentsRead(t: Tool): seq<ArgKey>
  {
    match t
    case GetSlideTool => [FilePath, SlideIndex]
    case GetExcelDataTool => [FilePath, SheetName]
    case ModifySlideTool => [FilePath, SlideIndex, Code]
    case ModifyExcelTool => [FilePath, SheetName, Code]
  }

  // The descriptions shown to the model, one constant per text.
  const GetSlideText := "Get the XML representation of a slide from a PowerPoint file"
  const GetExcelDataText := "Get the data from an Excel sheet as a markdown table"
  const ModifySlideText := "Modify a slide using Python code"
  const ModifyExcelText := "Modify an Excel sheet using Python code"
  const DeckPathText := "Path to the PowerPoint file"
  const WorkbookPathText := "Path to the Excel file"
  const SlideToReadText := "Zero-based index of the slide to retrieve"
  const SheetToReadText := "Name of the sheet to retrieve"
  const SlideToModifyText := "Zero-based index of the slide to modify"
  const SheetToModifyText := "Name of the sheet to modify"
  const SlideCodeText := "Python code to execute to modify the slide (has access to 'slide' object from python-pptx)"
  const SheetCodeText := "Python code to execute to modify the sheet (has access to 'df' DataFrame from pandas)"

  /** define_tools: the four tool schemas, in catalog order. */
  function DefineTools(): (tools: seq<ToolSpec>)
    ensures |tools| == 4
    ensures tools[0].tool == GetSlideTool && tools[1].tool == GetExcelDataTool
    ensures tools[2].tool == ModifySlideTool && tools[3].tool == ModifyExcelTool
  {
    [ ToolSpec(GetSlideTool, GetSlideText,
        [Param(FilePath, StringType, DeckPathText), Param(SlideIndex, IntegerType, SlideToReadText)],
        [FilePath, SlideIndex]),
      ToolSpec(GetExcelDataTool, GetExcelDataText,
        [Param(FilePath, StringType, WorkbookPathText), Param(SheetName, StringType, SheetToReadText)],
        [FilePath, SheetName]),
      ToolSpec(ModifySlideTool, ModifySlideText,
        [ Param(FilePath, StringType, DeckPathText),
          Param(SlideIndex, IntegerType, SlideToModifyText),
          Param(Code, StringType, SlideCodeText) ],
        [FilePath, SlideIndex, Code]),
      ToolSpec(ModifyExcelTool, ModifyExcelText,
        [ Param(FilePath, StringType, WorkbookPathText),
          Param(SheetName, StringType, SheetToModifyText),
          Param(Code, StringType, SheetCodeText) ],
        [FilePath, SheetName, Code]) ]
  }

  /** The names the catalog offers the model are get_slide,
      get_excel_data, modify_slide and modify_excel, in that order, and no
      tool is listed twice. */
  lemma CatalogOrder()
    ensures forall i, j :: 0 <= i < j < |DefineTools()| ==> DefineTools()[i].tool != DefineTools()[j].tool
    ensures ToolName(DefineTools()[0].tool) == "get_slide" && ToolName(DefineTools()[1].tool) == "get_excel_data"
    ensures ToolName(DefineTools()[2].tool) == "modify_slide" && ToolName(DefineTools()[3].tool) == "modify_excel"
  {
  }

  /** A tool's entry in the catalog: every tool has one. */
  function Entry(t: Tool): (spec: ToolSpec)
    ensures spec in DefineTools() && spec.tool == t
  {
    var tools := DefineTools();
    match t
    case GetSlideTool => tools[0]
    case GetExcelDataTool => tools[1]
    case ModifySlideTool => tools[2]
    case ModifyExcelTool => tools[3]
  }

  /** The keys declared under "properties", in order. */
  function DeclaredKeys(spec: ToolSpec): (keys: seq<ArgKey>)
    ensures |keys| == |spec.properties|
    ensures forall i :: 0 <= i < |keys| ==> keys[i] == spec.properties[i].key
  {
    seq(|spec.properties|, i requires 0 <= i < |spec.properties| => spec.properties[i].key)
  }

  /** Every tool requires all of its declared arguments, in declaration
      order, and declares each key once; so every required key is declared. */
  lemma RequiredAreDeclared(t: Tool)
    ensures Entry(t).required == DeclaredKeys(Entry(t))
    ensures forall k :: k in Entry(t).required ==> exists p :: p in Entry(t).properties && p.key == k
    ensures forall i, j :: 0 <= i < j < |Entry(t).properties| ==> Entry(t).properties[i].key != Entry(t).properties[j].key
  {
    var spec := Entry(t);
    assert spec.required == DeclaredKeys(spec);
    forall k | k in spec.required ensures exists p :: p in spec.properties && p.key == k {
      var i :| 0 <= i < |spec.required| && spec.required[i] == k;
      assert spec.properties[i] in spec.properties;
    }
  }

  /** slide_index is declared "integer"; file_path, sheet_name and code are
      declared "string", in every tool. */
  lemma DeclaredTypes(spec: ToolSpec, p: Param)
    requires spec in DefineTools() && p in spec.properties
    ensures p.jsonType == (if p.key == SlideIndex then IntegerType else StringType)
  {
  }

  /** The dispatcher reads exactly the catalog's required arguments of the
      tool it routes to, in the catalog's order. */
  lemma DispatcherReadsRequired(t: Tool)
    ensures ArgumentsRead(t) == Entry(t).required
  {
  }
}
