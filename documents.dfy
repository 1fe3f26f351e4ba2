/** The documents the agent works on, seen only through what the agent reads
    from them: a deck is its slides, each slide its shape tree; a workbook is
    its named sheets, each sheet its table as pandas renders it in markdown.
    The file system maps a path to what opening it yields. Running the
    model-written code of the two modify tools is an oracle (an editor) that
    either produces the new document or fails with a message. */
module Documents {
  import opened Common

  /** A value of a tool's argument map after json.loads. */
  datatype Json = JString(s: string) | JInt(i: int) | JOther(text: string)

  /** A table cell; `textFrame` is None when the cell has no text frame. */
  datatype Cell = Cell(textFrame: Option<string>)

  /** A shape: the Python class name of the shape, the paragraph texts of its
      text frame when it has one, and the rows of its table when it has one. */
  datatype Shape = Shape(typeName: string, textFrame: Option<seq<string>>, table: Option<seq<seq<Cell>>>)

  datatype Slide = Slide(shapes: seq<Shape>)

  /** A worksheet: its name and the markdown rendering of its data. */
  datatype Sheet = Sheet(name: string, table: string)

  datatype Document =
    | Deck(slides: seq<Slide>)
    | Workbook(sheets: seq<Sheet>)
    | Unreadable(reason: string)

  type FileSystem = map<string, Document>

  /** Stand-ins for the exception texts of the document libraries. */
  function MissingFileReason(path: string): string { "no such file: " + path }
  const NotADeckReason := "file is not a PowerPoint presentation"
  const NotAWorkbookReason := "file is not an Excel workbook"
  const WrongTypeReason := "argument has the wrong type"
  const SlideLookupReason := "list index out of range"
  function MissingSheetReason(name: string): string { "Worksheet named '" + name + "' not found" }

  /** f"Error: {str(e)}": how every tool and the snapshot report an
      exception. */
  function ErrorText(reason: string): string
  {
    "Error: " + reason
  }

  /** Presentation(path): the slides of the deck, or the reason it fails. */
  function OpenDeck(fs: FileSystem, path: string): (r: Result<seq<Slide>>)
    ensures r.Ok? <==> path in fs && fs[path].Deck?
    ensures r.Ok? ==> r.value == fs[path].slides
  {
    if path !in fs then Err(MissingFileReason(path))
    else match fs[path]
      case Deck(slides) => Ok(slides)
      case Workbook(_) => Err(NotADeckReason)
      case Unreadable(reason) => Err(reason)
  }

  /** load_workbook(path): the sheets of the workbook, or the reason it fails. */
  function OpenWorkbook(fs: FileSystem, path: string): (r: Result<seq<Sheet>>)
    ensures r.Ok? <==> path in fs && fs[path].Workbook?
    ensures r.Ok? ==> r.value == fs[path].sheets
  {
    if path !in fs then Err(MissingFileReason(path))
    else match fs[path]
      case Workbook(sheets) => Ok(sheets)
      case Deck(_) => Err(NotAWorkbookReason)
      case Unreadable(reason) => Err(reason)
  }

  function SheetNames(sheets: seq<Sheet>): (names: seq<string>)
    ensures |names| == |sheets|
    ensures forall i :: 0 <= i < |sheets| ==> names[i] == sheets[i].name
  {
    seq(|sheets|, i requires 0 <= i < |sheets| => sheets[i].name)
  }

  /** Position of the first sheet called `name`, if any. */
  function FindSheet(sheets: seq<Sheet>, name: string): (r: Option<nat>)
    ensures r.Some? ==> r.value < |sheets| && sheets[r.value].name == name
    ensures r.Some? ==> forall i :: 0 <= i < r.value ==> sheets[i].name != name
    ensures r.None? ==> forall i :: 0 <= i < |sheets| ==> sheets[i].name != name
  {
    if |sheets| == 0 then None
    else if sheets[0].name == name then Some(0)
    else match FindSheet(sheets[1..], name)
      case None => None
      case Some(k) => Some(k + 1)
  }

  /** Opening a document named by a JSON argument: only a string names a file. */
  function OpenDeckAt(fs: FileSystem, path: Json): Result<seq<Slide>>
  {
    if path.JString? then OpenDeck(fs, path.s) else Err(WrongTypeReason)
  }

  /** pd.read_excel(path, sheet_name=name): the workbook and the position of
      the sheet in it, or the reason the read fails. */
  function ReadSheet(fs: FileSystem, path: Json, name: Json): (r: Result<(seq<Sheet>, nat)>)
    ensures r.Ok? ==> path.JString? && name.JString? && OpenWorkbook(fs, path.s) == Ok(r.value.0)
    ensures r.Ok? ==> r.value.1 < |r.value.0| && r.value.0[r.value.1].name == name.s
    ensures path.JString? && name.JString? && OpenWorkbook(fs, path.s).Ok?
            && FindSheet(OpenWorkbook(fs, path.s).value, name.s).Some? ==>
              r == Ok((OpenWorkbook(fs, path.s).value, FindSheet(OpenWorkbook(fs, path.s).value, name.s).value))
  {
    if !path.JString? then Err(WrongTypeReason)
    else match OpenWorkbook(fs, path.s)
      case Err(reason) => Err(reason)
      case Ok(sheets) =>
        if !name.JString? then Err(WrongTypeReason)
        else match FindSheet(sheets, name.s)
          case None => Err(MissingSheetReason(name.s))
          case Some(k) => Ok((sheets, k))
  }

  /** The outcome of running modify_slide's code: the deck as saved, and the
      final state of the slide object the code was handed. */
  datatype EditedDeck = EditedDeck(deck: seq<Slide>, slide: Slide)

  /** exec(code) against the deck, with the slide at the given index in scope. */
  type SlideEditor = (string, seq<Slide>, nat) -> Result<EditedDeck>

  /** exec(code) against the sheet's data frame, then the write back; yields
      the markdown of the updated frame. */
  type SheetEditor = (string, string) -> Result<string>

  datatype Editors = Editors(slide: SlideEditor, sheet: SheetEditor)
}
