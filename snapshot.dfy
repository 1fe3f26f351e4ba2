/** The memory snapshot and the file-path mapping the system prompt carries.
    Both are dictionaries keyed by a file's basename and filled in file
    order, so a later file with the same basename replaces an earlier one. */
module Snapshot {
  import opened Common
  import opened Documents

  /** The dictionary `m` after assigning each (key, value) pair in turn. */
  function Fill<V>(m: map<string, V>, entries: seq<(string, V)>): map<string, V>
  {
    if |entries| == 0 then m
    else Fill(m, entries[..|entries| - 1])[entries[|entries| - 1].0 := entries[|entries| - 1].1]
  }

  /** Assigning two runs of pairs is assigning the first, then the second. */
  lemma {:induction false} FillAppend<V>(m: map<string, V>, a: seq<(string, V)>, b: seq<(string, V)>)
    ensures Fill(m, a + b) == Fill(Fill(m, a), b)
  {
    if |b| == 0 {
      assert a + b == a;
    } else {
      assert (a + b)[..|a + b| - 1] == a + b[..|b| - 1];
      FillAppend(m, a, b[..|b| - 1]);
    }
  }

  /** The position of the last occurrence of `key`, or -1. */
  function LastIndexOf(keys: seq<string>, key: string): (r: int)
    ensures -1 <= r < |keys|
    ensures r >= 0 ==> keys[r] == key
    ensures forall j :: r < j < |keys| ==> keys[j] != key
  {
    if |keys| == 0 then -1
    else if keys[|keys| - 1] == key then |keys| - 1
    else LastIndexOf(keys[..|keys| - 1], key)
  }

  lemma LastIndexOfFound(keys: seq<string>, key: string)
    ensures LastIndexOf(keys, key) >= 0 <==> key in keys
  {
  }

  function KeysOf<V>(entries: seq<(string, V)>): (keys: seq<string>)
    ensures |keys| == |entries|
    ensures forall i :: 0 <= i < |entries| ==> keys[i] == entries[i].0
  {
    seq(|entries|, i requires 0 <= i < |entries| => entries[i].0)
  }

  /** The keys of a filled dictionary are the keys assigned, and each holds
      the value of its last assignment. */
  lemma {:induction false} FillLastWins<V>(entries: seq<(string, V)>, key: string)
    ensures key in Fill(map[], entries) <==> key in KeysOf(entries)
    ensures key in Fill(map[], entries) ==> Fill(map[], entries)[key] == entries[LastIndexOf(KeysOf(entries), key)].1
  {
    if |entries| > 0 {
      var n := |entries| - 1;
      var init := entries[..n];
      FillLastWins(init, key);
      assert KeysOf(entries)[..n] == KeysOf(init);
      LastIndexOfFound(KeysOf(entries), key);
      LastIndexOfFound(KeysOf(init), key);
    }
  }

  /** Extending the entries by one assigns one more key. */
  lemma FillSnoc<V>(m: map<string, V>, entries: seq<(string, V)>, k: nat)
    requires k < |entries|
    ensures Fill(m, entries[..k + 1]) == Fill(m, entries[..k])[entries[k].0 := entries[k].1]
  {
    assert entries[..k + 1][..k] == entries[..k];
  }

  /** "Slide 1", ..., "Slide n". */
  function SlideLabels(n: nat): (labels: seq<string>)
    ensures |labels| == n
    ensures forall i :: 0 <= i < n ==> labels[i] == "Slide " + NatToString(i + 1)
  {
    seq(n, i requires 0 <= i < n => "Slide " + NatToString(i + 1))
  }

  /** extract_pptx_structure: the deck's basename and its slide labels, or a
      single error line when the file does not open as a deck. */
  function ExtractPptxStructure(fs: FileSystem, path: string): (string, seq<string>)
  {
    match OpenDeck(fs, path)
    case Ok(slides) => (Basename(path), SlideLabels(|slides|))
    case Err(reason) => (Basename(path), [ErrorText(reason)])
  }

  /** extract_excel_structure: the workbook's basename and its sheet names,
      or a single error line. */
  function ExtractExcelStructure(fs: FileSystem, path: string): (string, seq<string>)
  {
    match OpenWorkbook(fs, path)
    case Ok(sheets) => (Basename(path), SheetNames(sheets))
    case Err(reason) => (Basename(path), [ErrorText(reason)])
  }

  /** The assignments create_memory_snapshot makes for the decks, in order. */
  function DeckEntries(fs: FileSystem, pptx: seq<string>): (entries: seq<(string, seq<string>)>)
    ensures |entries| == |pptx|
    ensures forall i :: 0 <= i < |pptx| ==> entries[i] == ExtractPptxStructure(fs, pptx[i])
  {
    seq(|pptx|, i requires 0 <= i < |pptx| => ExtractPptxStructure(fs, pptx[i]))
  }

  /** The assignments it makes for the workbooks, in order. */
  function WorkbookEntries(fs: FileSystem, excel: seq<string>): (entries: seq<(string, seq<string>)>)
    ensures |entries| == |excel|
    ensures forall i :: 0 <= i < |excel| ==> entries[i] == ExtractExcelStructure(fs, excel[i])
  {
    seq(|excel|, i requires 0 <= i < |excel| => ExtractExcelStructure(fs, excel[i]))
  }

  /** All its assignments: decks first, then workbooks. */
  function SnapshotEntries(fs: FileSystem, pptx: seq<string>, excel: seq<string>): seq<(string, seq<string>)>
  {
    DeckEntries(fs, pptx) + WorkbookEntries(fs, excel)
  }

  /** The value of self.memory: {} before any snapshot, {"Memory": files}
      after. */
  datatype MemoryDict = NoMemory | Memory(files: map<string, seq<string>>)

  function MemoryOf(fs: FileSystem, pptx: seq<string>, excel: seq<string>): MemoryDict
  {
    Memory(Fill(map[], SnapshotEntries(fs, pptx, excel)))
  }

  /** create_memory_snapshot */
  method CreateMemorySnapshot(fs: FileSystem, pptx: seq<string>, excel: seq<string>) returns (memory: MemoryDict)
    ensures memory == MemoryOf(fs, pptx, excel)
  {
    ghost var decks, workbooks := DeckEntries(fs, pptx), WorkbookEntries(fs, excel);
    var files: map<string, seq<string>> := map[];
    for i := 0 to |pptx|
      invariant files == Fill(map[], decks[..i])
    {
      FillSnoc(map[], decks, i);
      var (deckName, slides) := ExtractPptxStructure(fs, pptx[i]);
      files := files[deckName := slides];
    }
    assert decks[..|pptx|] == decks;
    ghost var afterDecks := files;
    for j := 0 to |excel|
      invariant files == Fill(afterDecks, workbooks[..j])
    {
      FillSnoc(afterDecks, workbooks, j);
      var (workbookName, sheets) := ExtractExcelStructure(fs, excel[j]);
      files := files[workbookName := sheets];
    }
    assert workbooks[..|excel|] == workbooks;
    FillAppend(map[], decks, workbooks);
    memory := Memory(files);
  }

  function Basenames(files: seq<string>): (names: seq<string>)
    ensures |names| == |files|
    ensures forall i :: 0 <= i < |files| ==> names[i] == Basename(files[i])
  {
    seq(|files|, i requires 0 <= i < |files| => Basename(files[i]))
  }

  /** What the snapshot lists for the file at position i of pptx + excel. */
  function ListingAt(fs: FileSystem, pptx: seq<string>, excel: seq<string>, i: nat): seq<string>
    requires i < |pptx| + |excel|
  {
    if i < |pptx| then ExtractPptxStructure(fs, pptx[i]).1 else ExtractExcelStructure(fs, excel[i - |pptx|]).1
  }

  lemma SnapshotEntriesAt(fs: FileSystem, pptx: seq<string>, excel: seq<string>)
    ensures KeysOf(SnapshotEntries(fs, pptx, excel)) == Basenames(pptx + excel)
    ensures forall i :: 0 <= i < |pptx| + |excel| ==> SnapshotEntries(fs, pptx, excel)[i].1 == ListingAt(fs, pptx, excel, i)
  {
    var entries := SnapshotEntries(fs, pptx, excel);
    var files := pptx + excel;
    forall i | 0 <= i < |files|
      ensures entries[i] == (Basename(files[i]), ListingAt(fs, pptx, excel, i))
    {
      if i >= |pptx| {
        assert entries[i] == WorkbookEntries(fs, excel)[i - |pptx|];
      } else {
        assert entries[i] == DeckEntries(fs, pptx)[i];
      }
    }
  }

  /** The snapshot has one key per distinct basename among all the files,
      and each key holds the listing of the last file, decks before
      workbooks, with that basename. */
  lemma MemoryLastWins(fs: FileSystem, pptx: seq<string>, excel: seq<string>, key: string)
    ensures key in MemoryOf(fs, pptx, excel).files <==> key in Basenames(pptx + excel)
    ensures key in MemoryOf(fs, pptx, excel).files ==>
      MemoryOf(fs, pptx, excel).files[key] == ListingAt(fs, pptx, excel, LastIndexOf(Basenames(pptx + excel), key))
  {
    SnapshotEntriesAt(fs, pptx, excel);
    FillLastWins(SnapshotEntries(fs, pptx, excel), key);
  }

  /** A deck that is the last file with its basename is listed as
      "Slide 1".."Slide n"; one that fails to open as a single error line. */
  lemma DeckListing(fs: FileSystem, pptx: seq<string>, excel: seq<string>, i: nat)
    requires i < |pptx|
    requires forall j :: i < j < |pptx| + |excel| ==> Basename((pptx + excel)[j]) != Basename(pptx[i])
    ensures Basename(pptx[i]) in MemoryOf(fs, pptx, excel).files
    ensures var listed := MemoryOf(fs, pptx, excel).files[Basename(pptx[i])];
      match OpenDeck(fs, pptx[i])
      case Ok(slides) => listed == SlideLabels(|slides|)
      case Err(reason) => listed == [ErrorText(reason)]
  {
    var key := Basename(pptx[i]);
    var names := Basenames(pptx + excel);
    assert names[i] == key;
    MemoryLastWins(fs, pptx, excel, key);
    var k := LastIndexOf(names, key);
    assert k == i;
  }

  /** A workbook that is the last file with its basename is listed by its
      sheet names, or as a single error line. */
  lemma WorkbookListing(fs: FileSystem, pptx: seq<string>, excel: seq<string>, i: nat)
    requires i < |excel|
    requires forall j :: i < j < |excel| ==> Basename(excel[j]) != Basename(excel[i])
    ensures Basename(excel[i]) in MemoryOf(fs, pptx, excel).files
    ensures var listed := MemoryOf(fs, pptx, excel).files[Basename(excel[i])];
      match OpenWorkbook(fs, excel[i])
      case Ok(sheets) => listed == SheetNames(sheets)
      case Err(reason) => listed == [ErrorText(reason)]
  {
    var key := Basename(excel[i]);
    var files := pptx + excel;
    var names := Basenames(files);
    assert files[|pptx| + i] == excel[i];
    assert names[|pptx| + i] == key;
    MemoryLastWins(fs, pptx, excel, key);
    var k := LastIndexOf(names, key);
    assert k == |pptx| + i;
    assert ListingAt(fs, pptx, excel, k) == ExtractExcelStructure(fs, excel[i]).1;
  }

  /** The labels of a three-slide deck. */
  lemma ThreeLabels()
    ensures SlideLabels(3) == ["Slide 1", "Slide 2", "Slide 3"]
  {
    var labels := SlideLabels(3);
    assert labels[0] == "Slide 1" by { assert NatToString(1) == "1"; }
    assert labels[1] == "Slide 2" by { assert NatToString(2) == "2"; }
    assert labels[2] == "Slide 3" by { assert NatToString(3) == "3"; }
  }

  /** The snapshot of a single deck is its one entry. */
  lemma SingleDeck(fs: FileSystem, path: string)
    ensures MemoryOf(fs, [path], []) == Memory(map[ExtractPptxStructure(fs, path).0 := ExtractPptxStructure(fs, path).1])
  {
    var entries := SnapshotEntries(fs, [path], []);
    var (key, labels) := ExtractPptxStructure(fs, path);
    assert entries == [(key, labels)];
    assert entries[..0] == [];
    assert Fill(map[], entries) == map[][key := labels];
    assert map[][key := labels] == map[key := labels];
  }

  /** A signal naming one three-slide deck "a.pptx" yields the snapshot
      {"Memory": {"a.pptx": ["Slide 1", "Slide 2", "Slide 3"]}}. */
  lemma ThreeSlideDeck(fs: FileSystem)
    requires "a.pptx" in fs && fs["a.pptx"].Deck? && |fs["a.pptx"].slides| == 3
    ensures MemoryOf(fs, ["a.pptx"], []) == Memory(map["a.pptx" := ["Slide 1", "Slide 2", "Slide 3"]])
  {
    BasenameUnique("", "a.pptx");
    assert "" + "a.pptx" == "a.pptx";
    ThreeLabels();
    assert ExtractPptxStructure(fs, "a.pptx") == ("a.pptx", SlideLabels(3));
    SingleDeck(fs, "a.pptx");
  }

  /** create_file_path_mapping and the dict comprehension in
      BaseAgentWorkflow.py: basename to path, over the files in order. */
  function PathMapping(files: seq<string>): map<string, string>
  {
    Fill(map[], PathEntries(files))
  }

  function PathEntries(files: seq<string>): (entries: seq<(string, string)>)
    ensures |entries| == |files|
    ensures forall i :: 0 <= i < |files| ==> entries[i] == (Basename(files[i]), files[i])
  {
    seq(|files|, i requires 0 <= i < |files| => (Basename(files[i]), files[i]))
  }

  /** create_file_path_mapping */
  method CreateFilePathMapping(pptx: seq<string>, excel: seq<string>) returns (mapping: map<string, string>)
    ensures mapping == PathMapping(pptx + excel)
  {
    var files := pptx + excel;
    ghost var entries := PathEntries(files);
    mapping := map[];
    for i := 0 to |files|
      invariant mapping == Fill(map[], entries[..i])
    {
      FillSnoc(map[], entries, i);
      mapping := mapping[Basename(files[i]) := files[i]];
    }
    assert entries[..|files|] == entries;
  }

  /** The keys are the files' basenames; each key maps to the last file with
      that basename, whose basename it is. */
  lemma PathMappingLastWins(files: seq<string>, key: string)
    ensures key in PathMapping(files) <==> key in Basenames(files)
    ensures key in PathMapping(files) ==>
      PathMapping(files)[key] == files[LastIndexOf(Basenames(files), key)]
      && Basename(PathMapping(files)[key]) == key
  {
    var entries := PathEntries(files);
    assert KeysOf(entries) == Basenames(files);
    FillLastWins(entries, key);
  }

  /** The mapping and the snapshot have the same keys when built from the
      same file lists. */
  lemma MappingMatchesMemory(fs: FileSystem, pptx: seq<string>, excel: seq<string>, key: string)
    ensures key in PathMapping(pptx + excel) <==> key in MemoryOf(fs, pptx, excel).files
  {
    PathMappingLastWins(pptx + excel, key);
    MemoryLastWins(fs, pptx, excel, key);
  }
}
