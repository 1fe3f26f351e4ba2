/** The four tool activities and the dispatcher that routes a tool call to
    them. Every activity catches what the document libraries raise and
    returns it as an "Error: ..." text; the two modify tools add the code
    they were given. The dispatcher itself does not catch: a missing argument
    raises out of it. */
module Activities {
  import opened Common
  import opened Documents
  import opened SlideRendering
  import opened Catalog

  function OutOfRange(index: int): string
  {
    "Error: Slide index " + IntToString(index) + " out of range."
  }

  const CodeBanner := "\n\nCode attempted to execute:\n"

  /** f"{value}" of an argument value. */
  function JsonText(v: Json): string
  {
    match v
    case JString(s) => s
    case JInt(i) => IntToString(i)
    case JOther(text) => text
  }

  /** The except branch of the two modify tools. */
  function ExecFailure(reason: string, code: Json): string
  {
    "Error: " + reason + CodeBanner + JsonText(code)
  }

  /** The parameter records of the activities. Their fields carry whatever
      json.loads produced for the argument, since nothing checks the types. */
  datatype SlideParams = SlideParams(filePath: Json, slideIndex: Json)
  datatype ExcelParams = ExcelParams(filePath: Json, sheetName: Json)
  datatype ModifySlideParams = ModifySlideParams(filePath: Json, slideIndex: Json, code: Json)
  datatype ModifyExcelParams = ModifyExcelParams(filePath: Json, sheetName: Json, code: Json)
  datatype ToolExecutionParams = ToolExecutionParams(toolName: string, toolArgs: map<string, Json>)

  /** What a tool returns and the file system after it ran. */
  datatype ToolEffect = ToolEffect(output: string, fs: FileSystem)

  /** get_slide_xml */
  function GetSlideXml(p: SlideParams, fs: FileSystem): (r: string)
    ensures "Error: " <= r <==>
      !(OpenDeckAt(fs, p.filePath).Ok? && p.slideIndex.JInt? && 0 <= p.slideIndex.i < |OpenDeckAt(fs, p.filePath).value|)
  {
    match OpenDeckAt(fs, p.filePath)
    case Err(reason) => ErrorText(reason)
    case Ok(slides) =>
      if !p.slideIndex.JInt? then ErrorText(WrongTypeReason)
      else if 0 <= p.slideIndex.i < |slides| then
        var xml := SlideXml(slides[p.slideIndex.i]);
        SlideXmlFrame(slides[p.slideIndex.i]);
        assert xml[0] == SlideOpen[0] == '<';
        xml
      else OutOfRange(p.slideIndex.i)
  }

  /** get_excel_table */
  function GetExcelTable(p: ExcelParams, fs: FileSystem): (r: string)
    ensures p.filePath.JString? && p.sheetName.JString? && OpenWorkbook(fs, p.filePath.s).Ok?
            && FindSheet(OpenWorkbook(fs, p.filePath.s).value, p.sheetName.s).Some? ==>
              r == OpenWorkbook(fs, p.filePath.s).value[FindSheet(OpenWorkbook(fs, p.filePath.s).value, p.sheetName.s).value].table
    ensures !(p.filePath.JString? && p.sheetName.JString? && OpenWorkbook(fs, p.filePath.s).Ok?
              && FindSheet(OpenWorkbook(fs, p.filePath.s).value, p.sheetName.s).Some?) ==>
              "Error: " <= r
  {
    match ReadSheet(fs, p.filePath, p.sheetName)
    case Err(reason) => ErrorText(reason)
    case Ok((sheets, k)) => sheets[k].table
  }

  /** How the deck-editing try block of modify_slide ends: the index check
      fails, something raises, or the edited deck is saved. */
  datatype SlideAttempt =
    | IndexOutOfRange(badIndex: int)
    | SlideRaised(reason: string)
    | SlideSaved(path: string, index: nat, edited: EditedDeck)

  /** modify_slide up to and including prs.save. */
  function TrySlideEdit(p: ModifySlideParams, fs: FileSystem, edit: SlideEditor): (a: SlideAttempt)
    ensures a.SlideSaved? ==> p.filePath == JString(a.path) && p.slideIndex == JInt(a.index)
    ensures a.SlideSaved? ==> OpenDeck(fs, a.path).Ok? && a.index < |OpenDeck(fs, a.path).value|
    ensures a.IndexOutOfRange? <==>
      OpenDeckAt(fs, p.filePath).Ok? && p.slideIndex.JInt? && !(0 <= p.slideIndex.i < |OpenDeckAt(fs, p.filePath).value|)
    ensures a.IndexOutOfRange? ==> a.badIndex == p.slideIndex.i
    ensures OpenDeckAt(fs, p.filePath).Ok? && p.slideIndex.JInt? && 0 <= p.slideIndex.i < |OpenDeckAt(fs, p.filePath).value|
            && p.code.JString? && edit(p.code.s, OpenDeckAt(fs, p.filePath).value, p.slideIndex.i as nat).Ok? ==>
              a == SlideSaved(p.filePath.s, p.slideIndex.i as nat,
                              edit(p.code.s, OpenDeckAt(fs, p.filePath).value, p.slideIndex.i as nat).value)
  {
    match OpenDeckAt(fs, p.filePath)
    case Err(reason) => SlideRaised(reason)
    case Ok(slides) =>
      if !p.slideIndex.JInt? then SlideRaised(WrongTypeReason)
      else if !(0 <= p.slideIndex.i < |slides|) then IndexOutOfRange(p.slideIndex.i)
      else if !p.code.JString? then SlideRaised(WrongTypeReason)
      else match edit(p.code.s, slides, p.slideIndex.i as nat)
        case Err(reason) => SlideRaised(reason)
        case Ok(edited) => SlideSaved(p.filePath.s, p.slideIndex.i as nat, edited)
  }

  /** What modify_slide renders once the deck is saved: activities.py renders
      the slide object the code was handed; temporal_agent.py looks the index
      up again in the edited deck (which raises if the code removed it);
      vanilla_agent.py calls get_slide_xml, which reopens the saved file. */
  datatype SlideReturn = HandedSlide | RefetchedSlide | ReloadedFile

  /** modify_slide */
  function ModifySlide(p: ModifySlideParams, fs: FileSystem, edit: SlideEditor, ret: SlideReturn): (e: ToolEffect)
    ensures !TrySlideEdit(p, fs, edit).SlideSaved? ==> e.fs == fs && "Error: " <= e.output
  {
    match TrySlideEdit(p, fs, edit)
    case IndexOutOfRange(i) => ToolEffect(OutOfRange(i), fs)
    case SlideRaised(reason) => ToolEffect(ExecFailure(reason, p.code), fs)
    case SlideSaved(path, i, edited) =>
      var saved := fs[path := Deck(edited.deck)];
      match ret
      case HandedSlide => ToolEffect(SlideXml(edited.slide), saved)
      case RefetchedSlide =>
        if i < |edited.deck| then ToolEffect(SlideXml(edited.deck[i]), saved)
        else ToolEffect(ExecFailure(SlideLookupReason, p.code), saved)
      case ReloadedFile => ToolEffect(GetSlideXml(SlideParams(p.filePath, p.slideIndex), saved), saved)
  }

  /** How modify_excel's try block ends. */
  datatype SheetAttempt =
    | SheetRaised(reason: string)
    | SheetSaved(path: string, sheets: seq<Sheet>, index: nat, table: string)

  /** modify_excel up to and including the write back of the sheet. */
  function TrySheetEdit(p: ModifyExcelParams, fs: FileSystem, edit: SheetEditor): (a: SheetAttempt)
    ensures a.SheetSaved? ==> a.index < |a.sheets| && p.filePath == JString(a.path)
    ensures a.SheetSaved? ==> OpenWorkbook(fs, a.path) == Ok(a.sheets) && p.sheetName == JString(a.sheets[a.index].name)
    ensures var read := ReadSheet(fs, p.filePath, p.sheetName);
            read.Ok? && p.code.JString? && edit(p.code.s, read.value.0[read.value.1].table).Ok? ==>
              a == SheetSaved(p.filePath.s, read.value.0, read.value.1, edit(p.code.s, read.value.0[read.value.1].table).value)
  {
    match ReadSheet(fs, p.filePath, p.sheetName)
    case Err(reason) => SheetRaised(reason)
    case Ok((sheets, k)) =>
      if !p.code.JString? then SheetRaised(WrongTypeReason)
      else match edit(p.code.s, sheets[k].table)
        case Err(reason) => SheetRaised(reason)
        case Ok(table) => SheetSaved(p.filePath.s, sheets, k, table)
  }

  /** modify_excel: the sheet is replaced in place and its new table returned. */
  function ModifyExcel(p: ModifyExcelParams, fs: FileSystem, edit: SheetEditor): (e: ToolEffect)
    ensures !TrySheetEdit(p, fs, edit).SheetSaved? ==> e.fs == fs && "Error: " <= e.output
  {
    match TrySheetEdit(p, fs, edit)
    case SheetRaised(reason) => ToolEffect(ExecFailure(reason, p.code), fs)
    case SheetSaved(path, sheets, k, table) =>
      ToolEffect(table, fs[path := Workbook(sheets[k := Sheet(sheets[k].name, table)])])
  }

  /** The first of `keys`, in order, that the argument map lacks. */
  function FirstMissing(keys: seq<ArgKey>, args: map<string, Json>): (r: Option<ArgKey>)
    ensures r.Some? ==> r.value in keys && KeyName(r.value) !in args
    ensures r.None? <==> forall k :: k in keys ==> KeyName(k) in args
  {
    if |keys| == 0 then None
    else if KeyName(keys[0]) !in args then Some(keys[0])
    else FirstMissing(keys[1..], args)
  }

  /** The outcome of the dispatcher: a tool's text and effect, or the
      KeyError for a missing argument. */
  datatype ToolOutcome = Returned(effect: ToolEffect) | MissingArgument(key: string)

  /** A known tool run with all the arguments it reads. */
  function RunTool(t: Tool, args: map<string, Json>, fs: FileSystem, ed: Editors, ret: SlideReturn): ToolEffect
    requires forall k :: k in ArgumentsRead(t) ==> KeyName(k) in args
  {
    assert ArgumentsRead(t)[0] == FilePath && ArgumentsRead(t)[1] in ArgumentsRead(t);
    var path, second := args[KeyName(FilePath)], args[KeyName(ArgumentsRead(t)[1])];
    match t
    case GetSlideTool =>
      ToolEffect(GetSlideXml(SlideParams(path, second), fs), fs)
    case GetExcelDataTool =>
      ToolEffect(GetExcelTable(ExcelParams(path, second), fs), fs)
    case ModifySlideTool =>
      assert Code in ArgumentsRead(t);
      ModifySlide(ModifySlideParams(path, second, args[KeyName(Code)]), fs, ed.slide, ret)
    case ModifyExcelTool =>
      assert Code in ArgumentsRead(t);
      ModifyExcel(ModifyExcelParams(path, second, args[KeyName(Code)]), fs, ed.sheet)
  }

  function UnknownTool(name: string): string
  {
    "Unknown tool: " + name
  }

  /** execute_tool */
  function ExecuteTool(params: ToolExecutionParams, fs: FileSystem, ed: Editors, ret: SlideReturn): (r: ToolOutcome)
    ensures r.MissingArgument? ==> ParseTool(params.toolName).Some? && r.key !in params.toolArgs
    ensures r.Returned? && r.effect.fs != fs ==>
      ParseTool(params.toolName) == Some(ModifySlideTool) || ParseTool(params.toolName) == Some(ModifyExcelTool)
  {
    match ParseTool(params.toolName)
    case None => Returned(ToolEffect(UnknownTool(params.toolName), fs))
    case Some(t) =>
      match FirstMissing(ArgumentsRead(t), params.toolArgs)
      case Some(k) => MissingArgument(KeyName(k))
      case None => Returned(RunTool(t, params.toolArgs, fs, ed, ret))
  }

  // ---------------------------------------------------------------------
  // Properties

  /** Slide XML never begins like an error text. */
  lemma SlideXmlIsNotError(slide: Slide, reason: string)
    ensures SlideXml(slide) != "Error: " + reason
  {
    SlideXmlFrame(slide);
    assert SlideXml(slide)[0] == SlideOpen[0];
    assert ("Error: " + reason)[0] == 'E';
  }

  /** On a deck, get_slide_xml answers with the out-of-range text exactly
      when the index is outside 0 <= i < count, and with the slide's XML
      exactly when it is inside. */
  lemma GetSlideBounds(p: SlideParams, fs: FileSystem, slides: seq<Slide>, i: int)
    requires OpenDeckAt(fs, p.filePath) == Ok(slides) && p.slideIndex == JInt(i)
    ensures GetSlideXml(p, fs) == OutOfRange(i) <==> !(0 <= i < |slides|)
    ensures 0 <= i < |slides| ==> GetSlideXml(p, fs) == SlideXml(slides[i])
  {
    if 0 <= i < |slides| {
      assert GetSlideXml(p, fs) == SlideXml(slides[i]);
      assert SlideXml(slides[i]) != OutOfRange(i) by {
        SlideXmlIsNotError(slides[i], "Slide index " + IntToString(i) + " out of range.");
        OutOfRangeIsError(i);
      }
    }
  }

  lemma OutOfRangeIsError(i: int)
    ensures OutOfRange(i) == "Error: " + ("Slide index " + IntToString(i) + " out of range.")
  {
  }

  /** The out-of-range text names the index it rejects. */
  lemma OutOfRangeInjective(i: int, j: int)
    requires OutOfRange(i) == OutOfRange(j)
    ensures i == j
  {
    var pre, post := "Error: Slide index ", " out of range.";
    var a, b := OutOfRange(i), OutOfRange(j);
    assert IntToString(i) == a[|pre|..|a| - |post|];
    assert IntToString(j) == b[|pre|..|b| - |post|];
    IntToStringInjective(i, j);
  }

  /** No line break occurs in the out-of-range text. */
  lemma OutOfRangeOneLine(i: int)
    ensures '\n' !in OutOfRange(i)
  {
    var digits := IntToString(i);
    assert forall c :: c in digits ==> c == '-' || '0' <= c <= '9' by {
      if i < 0 {
        assert digits == "-" + NatToString(-i);
      }
    }
  }

  /** An exec failure text holds a line break. */
  lemma ExecFailureMultiLine(reason: string, code: Json)
    ensures '\n' in ExecFailure(reason, code)
  {
    var s := ExecFailure(reason, code);
    assert s == "Error: " + reason + CodeBanner + JsonText(code);
    assert s[|"Error: " + reason|] == '\n';
  }

  /** A failed modify text starts with "Error: " and ends with the banner and
      the code it was given. */
  lemma ExecFailureShape(reason: string, code: Json)
    ensures "Error: " <= ExecFailure(reason, code)
    ensures IsSuffix(CodeBanner + JsonText(code), ExecFailure(reason, code))
  {
    var head, tail := "Error: " + reason, CodeBanner + JsonText(code);
    Concat3(head, CodeBanner, JsonText(code));
    Concat3("Error: ", reason, tail);
    PrefixAndSuffix("Error: ", reason + tail);
    PrefixAndSuffix(head, tail);
  }

  /** Past the index check, modify_slide never answers the out-of-range
      text when it renders in memory: it answers slide XML or an exec
      failure, which spans several lines. */
  lemma ModifySlidePastIndexCheck(p: ModifySlideParams, fs: FileSystem, edit: SlideEditor, ret: SlideReturn, i: int)
    requires !TrySlideEdit(p, fs, edit).IndexOutOfRange?
    requires ret != ReloadedFile
    ensures ModifySlide(p, fs, edit, ret).output != OutOfRange(i)
  {
    var msg := "Slide index " + IntToString(i) + " out of range.";
    assert OutOfRange(i) == "Error: " + msg;
    OutOfRangeOneLine(i);
    match TrySlideEdit(p, fs, edit)
    case SlideRaised(reason) =>
      ExecFailureMultiLine(reason, p.code);
    case SlideSaved(path, k, edited) =>
      if ret == HandedSlide {
        SlideXmlIsNotError(edited.slide, msg);
      } else if k < |edited.deck| {
        SlideXmlIsNotError(edited.deck[k], msg);
      } else {
        ExecFailureMultiLine(SlideLookupReason, p.code);
      }
  }

  /** modify_slide checks the index as get_slide_xml does: on a deck with an
      integer index it answers the same out-of-range text exactly when the
      index is out of range, and then it saves nothing. In every copy an
      out-of-range index gives that text; only the copies that render in
      memory never give it for an index in range. */
  lemma ModifySlideBounds(p: ModifySlideParams, fs: FileSystem, edit: SlideEditor, ret: SlideReturn, slides: seq<Slide>, i: int)
    requires OpenDeckAt(fs, p.filePath) == Ok(slides) && p.slideIndex == JInt(i)
    ensures !(0 <= i < |slides|) ==> ModifySlide(p, fs, edit, ret) == ToolEffect(OutOfRange(i), fs)
    ensures !(0 <= i < |slides|) ==> ModifySlide(p, fs, edit, ret).output == GetSlideXml(SlideParams(p.filePath, p.slideIndex), fs)
    ensures ret != ReloadedFile ==> (ModifySlide(p, fs, edit, ret).output == OutOfRange(i) ==> !(0 <= i < |slides|))
  {
    if 0 <= i < |slides| && ret != ReloadedFile {
      ModifySlidePastIndexCheck(p, fs, edit, ret, i);
    }
  }

  /** vanilla_agent.py's modify_slide reopens the saved file, so code that
      removes slides can make it answer the out-of-range text for an index
      that was in range, after the deck has been saved. */
  lemma ReloadedOutOfRangeAfterSave()
    ensures var fs := map["d.pptx" := Deck([Slide([])])];
            var p := ModifySlideParams(JString("d.pptx"), JInt(0), JString("del"));
            var edit: SlideEditor := (code, deck, i) => Ok(EditedDeck([], Slide([])));
            var e := ModifySlide(p, fs, edit, ReloadedFile);
            e.output == OutOfRange(0) && e.fs == map["d.pptx" := Deck([])]
  {
    var fs := map["d.pptx" := Deck([Slide([])])];
    var p := ModifySlideParams(JString("d.pptx"), JInt(0), JString("del"));
    var edit: SlideEditor := (code, deck, i) => Ok(EditedDeck([], Slide([])));
    assert TrySlideEdit(p, fs, edit) == SlideSaved("d.pptx", 0, EditedDeck([], Slide([])));
  }

  /** vanilla_agent.py's modify_slide answers, once the deck is saved, with
      get_slide_xml of the same file and index over the saved files; while
      the index is still in range of the saved deck, that is the slide the
      refetching copy renders. */
  lemma ReloadedIsGetSlide(p: ModifySlideParams, fs: FileSystem, edit: SlideEditor)
    requires TrySlideEdit(p, fs, edit).SlideSaved?
    ensures var e := ModifySlide(p, fs, edit, ReloadedFile);
            e.output == GetSlideXml(SlideParams(p.filePath, p.slideIndex), e.fs)
    ensures var a := TrySlideEdit(p, fs, edit);
            a.index < |a.edited.deck| ==> ModifySlide(p, fs, edit, ReloadedFile) == ModifySlide(p, fs, edit, RefetchedSlide)
  {
    var a := TrySlideEdit(p, fs, edit);
    assert OpenDeckAt(fs[a.path := Deck(a.edited.deck)], p.filePath) == Ok(a.edited.deck);
  }

  /** modify_slide writes at most the file it names: every other file is
      left as it was, and the named one, when saved, holds the edited deck. */
  lemma ModifySlideFrame(p: ModifySlideParams, fs: FileSystem, edit: SlideEditor, ret: SlideReturn)
    ensures var a := TrySlideEdit(p, fs, edit);
            var e := ModifySlide(p, fs, edit, ret);
            !a.SlideSaved? ==> e.fs == fs
    ensures var a := TrySlideEdit(p, fs, edit);
            var e := ModifySlide(p, fs, edit, ret);
            a.SlideSaved? ==>
              e.fs.Keys == fs.Keys && e.fs[a.path] == Deck(a.edited.deck)
              && forall q :: q in fs && q != a.path ==> e.fs[q] == fs[q]
  {
  }

  /** modify_excel writes at most the sheet it names: every other file, and
      every other sheet of the workbook, in order and by name, is left as it
      was, and the named sheet keeps its name and holds the new table. */
  lemma ModifyExcelFrame(p: ModifyExcelParams, fs: FileSystem, edit: SheetEditor)
    ensures var a := TrySheetEdit(p, fs, edit);
            var e := ModifyExcel(p, fs, edit);
            !a.SheetSaved? ==> e.fs == fs
    ensures var a := TrySheetEdit(p, fs, edit);
            var e := ModifyExcel(p, fs, edit);
            a.SheetSaved? ==>
              e.fs.Keys == fs.Keys && (forall q :: q in fs && q != a.path ==> e.fs[q] == fs[q])
              && e.fs[a.path].Workbook? && |e.fs[a.path].sheets| == |fs[a.path].sheets|
              && e.fs[a.path].sheets[a.index] == Sheet(fs[a.path].sheets[a.index].name, a.table)
              && forall j :: 0 <= j < |fs[a.path].sheets| && j != a.index ==> e.fs[a.path].sheets[j] == fs[a.path].sheets[j]
  {
  }

  /** When either modify tool fails inside its try block, its text starts
      with "Error: " and ends with the banner and the code, and the file
      system is unchanged. */
  lemma ModifyFailureShape(p: ModifySlideParams, q: ModifyExcelParams, fs: FileSystem, ed: Editors, ret: SlideReturn)
    ensures TrySlideEdit(p, fs, ed.slide).SlideRaised? ==>
      var e := ModifySlide(p, fs, ed.slide, ret);
      e.fs == fs && "Error: " <= e.output && IsSuffix(CodeBanner + JsonText(p.code), e.output)
    ensures TrySheetEdit(q, fs, ed.sheet).SheetRaised? ==>
      var e := ModifyExcel(q, fs, ed.sheet);
      e.fs == fs && "Error: " <= e.output && IsSuffix(CodeBanner + JsonText(q.code), e.output)
  {
    if TrySlideEdit(p, fs, ed.slide).SlideRaised? {
      ExecFailureShape(TrySlideEdit(p, fs, ed.slide).reason, p.code);
    }
    if TrySheetEdit(q, fs, ed.sheet).SheetRaised? {
      ExecFailureShape(TrySheetEdit(q, fs, ed.sheet).reason, q.code);
    }
  }

  /** The three ways of rendering the saved slide agree when the code left
      the handed slide at its index in the deck. */
  lemma SlideReturnsAgree(p: ModifySlideParams, fs: FileSystem, edit: SlideEditor)
    requires TrySlideEdit(p, fs, edit).SlideSaved?
    requires var a := TrySlideEdit(p, fs, edit); a.index < |a.edited.deck| && a.edited.deck[a.index] == a.edited.slide
    ensures ModifySlide(p, fs, edit, HandedSlide) == ModifySlide(p, fs, edit, RefetchedSlide)
    ensures ModifySlide(p, fs, edit, HandedSlide) == ModifySlide(p, fs, edit, ReloadedFile)
  {
    var a := TrySlideEdit(p, fs, edit);
    var saved := fs[a.path := Deck(a.edited.deck)];
    assert OpenDeckAt(saved, p.filePath) == Ok(a.edited.deck);
  }

  /** Reading a slide back after a successful modify_slide yields the text
      modify_slide returned, when the handed slide stayed at its index. */
  lemma ModifyThenGetSlide(p: ModifySlideParams, fs: FileSystem, edit: SlideEditor)
    requires TrySlideEdit(p, fs, edit).SlideSaved?
    requires var a := TrySlideEdit(p, fs, edit); a.index < |a.edited.deck| && a.edited.deck[a.index] == a.edited.slide
    ensures var e := ModifySlide(p, fs, edit, HandedSlide);
            GetSlideXml(SlideParams(p.filePath, p.slideIndex), e.fs) == e.output
  {
    SlideReturnsAgree(p, fs, edit);
  }

  /** Reading the sheet back after a successful modify_excel yields the table
      modify_excel returned, and the workbook keeps its sheet names. */
  lemma ModifyThenGetSheet(p: ModifyExcelParams, fs: FileSystem, edit: SheetEditor)
    requires TrySheetEdit(p, fs, edit).SheetSaved?
    ensures var e := ModifyExcel(p, fs, edit);
            GetExcelTable(ExcelParams(p.filePath, p.sheetName), e.fs) == e.output
    ensures var a := TrySheetEdit(p, fs, edit);
            OpenWorkbook(ModifyExcel(p, fs, edit).fs, a.path).Ok?
            && SheetNames(OpenWorkbook(ModifyExcel(p, fs, edit).fs, a.path).value) == SheetNames(a.sheets)
  {
    var a := TrySheetEdit(p, fs, edit);
    var e := ModifyExcel(p, fs, edit);
    var sheets' := a.sheets[a.index := Sheet(a.sheets[a.index].name, a.table)];
    assert e.fs[a.path] == Workbook(sheets');
    assert FindSheet(sheets', a.sheets[a.index].name) == FindSheet(a.sheets, a.sheets[a.index].name) by {
      FindSheetRenamed(a.sheets, a.index, a.table, a.sheets[a.index].name);
    }
  }

  /** Replacing one sheet's table does not move any sheet name. */
  lemma {:induction false} FindSheetRenamed(sheets: seq<Sheet>, k: nat, table: string, name: string)
    requires k < |sheets|
    ensures FindSheet(sheets[k := Sheet(sheets[k].name, table)], name) == FindSheet(sheets, name)
  {
    if |sheets| > 0 && sheets[0].name != name && k > 0 {
      assert sheets[k := Sheet(sheets[k].name, table)][1..] == sheets[1..][k - 1 := Sheet(sheets[k].name, table)];
      FindSheetRenamed(sheets[1..], k - 1, table, name);
    } else if |sheets| > 0 && sheets[0].name != name {
      assert sheets[k := Sheet(sheets[k].name, table)][1..] == sheets[1..];
    }
  }

  /** Any name outside the four gives exactly "Unknown tool: <name>" and
      touches no file, whatever the arguments. */
  lemma UnknownToolText(params: ToolExecutionParams, fs: FileSystem, ed: Editors, ret: SlideReturn)
    requires forall t: Tool :: ToolName(t) != params.toolName
    ensures ExecuteTool(params, fs, ed, ret) == Returned(ToolEffect("Unknown tool: " + params.toolName, fs))
  {
    UnknownExactly(params.toolName);
  }

  /** A catalog name with all its arguments present reaches its tool, with
      the arguments taken from the map by key. */
  lemma RoutesByName(t: Tool, args: map<string, Json>, fs: FileSystem, ed: Editors, ret: SlideReturn)
    requires forall k :: k in Entry(t).required ==> KeyName(k) in args
    ensures ExecuteTool(ToolExecutionParams(ToolName(t), args), fs, ed, ret) == Returned(RunTool(t, args, fs, ed, ret))
  {
    ParseToolName(t);
    DispatcherReadsRequired(t);
  }

  /** A catalog name with a required argument missing raises the KeyError of
      the first missing key in the catalog's order of required keys. */
  lemma MissingArgumentRaised(t: Tool, args: map<string, Json>, fs: FileSystem, ed: Editors, ret: SlideReturn)
    requires exists k :: k in Entry(t).required && KeyName(k) !in args
    ensures var o := ExecuteTool(ToolExecutionParams(ToolName(t), args), fs, ed, ret);
            o.MissingArgument? && o == MissingArgument(KeyName(FirstMissing(Entry(t).required, args).value))
            && o.key !in args
  {
    ParseToolName(t);
    DispatcherReadsRequired(t);
  }

  /** get_slide and get_excel_data never change a file. */
  lemma ReadToolsKeepFiles(params: ToolExecutionParams, fs: FileSystem, ed: Editors, ret: SlideReturn)
    requires params.toolName == "get_slide" || params.toolName == "get_excel_data"
    ensures ExecuteTool(params, fs, ed, ret).Returned? ==> ExecuteTool(params, fs, ed, ret).effect.fs == fs
  {
  }

  /** A call for slide 5 of a three-slide deck answers
      "Error: Slide index 5 out of range.". */
  lemma SlideFiveOfThree(fs: FileSystem, path: string, ed: Editors, ret: SlideReturn)
    requires path in fs && fs[path] == Deck([Slide([]), Slide([]), Slide([])])
    ensures ExecuteTool(ToolExecutionParams("get_slide", map["file_path" := JString(path), "slide_index" := JInt(5)]), fs, ed, ret)
         == Returned(ToolEffect("Error: Slide index 5 out of range.", fs))
  {
    var args := map["file_path" := JString(path), "slide_index" := JInt(5)];
    RoutesByName(GetSlideTool, args, fs, ed, ret);
    var p := SlideParams(JString(path), JInt(5));
    assert RunTool(GetSlideTool, args, fs, ed, ret) == ToolEffect(GetSlideXml(p, fs), fs);
    assert GetSlideXml(p, fs) == OutOfRange(5) by {
      assert OpenDeckAt(fs, JString(path)) == Ok([Slide([]), Slide([]), Slide([])]);
    }
    assert OutOfRange(5) == "Error: Slide index 5 out of range." by {
      assert IntToString(5) == "5" by {
        assert NatToString(5) == "5";
      }
    }
  }

  /** A call for "delete_file" answers "Unknown tool: delete_file". */
  lemma DeleteFileUnknown(args: map<string, Json>, fs: FileSystem, ed: Editors, ret: SlideReturn)
    ensures ExecuteTool(ToolExecutionParams("delete_file", args), fs, ed, ret)
         == Returned(ToolEffect("Unknown tool: delete_file", fs))
  {
    forall t: Tool ensures ToolName(t) != "delete_file" {
      assert ToolName(t)[0] != 'd';
    }
    UnknownToolText(ToolExecutionParams("delete_file", args), fs, ed, ret);
  }
}
