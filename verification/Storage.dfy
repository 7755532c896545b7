/**
  The line-per-record files, one directory a date.  Of the JSON library the model keeps dump, which
  may throw, and parse, which may fail, as parameters; file and directory contents are maps.
 */
module Storage {
  import opened Common
  import opened Records
  import opened Strings

  /** The JSON library: dump throws on text that is not UTF-8; parse throws on malformed text. */
  datatype Library = Library(dump: Json -> Option<string>, parse: string -> Option<Json>, toInt: nat -> Int32)

  /** What the library owes a record: if dump does not throw, its text is on one line, is not empty,
      and is parsed back (section 7 of RFC 8259 requires a line feed in a string to be escaped). */
  ghost predicate Faithful(lib: Library, item: Item) {
    var text := lib.dump(ToJson(item));
    text.Some? ==> text.value != [] && LF !in text.value && lib.parse(text.value) == Some(ToJson(item))
  }

  ghost predicate AllFaithful(lib: Library, items: seq<Item>) {
    forall i :: 0 <= i < |items| ==> Faithful(lib, items[i])
  }

  // ---- lines ----

  /** The lines std::getline delivers: text after the last line feed counts, an empty rest does not. */
  function Lines(s: string): seq<string>
    decreases |s|
  {
    if s == [] then []
    else
      var k := Find(s, LF);
      if k == |s| then [s] else [s[..k]] + Lines(s[k + 1..])
  }

  function NonEmpty(lines: seq<string>): seq<string> {
    if lines == [] then [] else (if lines[0] == [] then [] else [lines[0]]) + NonEmpty(lines[1..])
  }

  /** The records of a file, as text. */
  function Framed(file: string): seq<string> {
    NonEmpty(Lines(file))
  }

  predicate Terminated(file: string) {
    file == [] || file[|file| - 1] == LF
  }

  lemma FirstLine(line: string, rest: string)
    requires LF !in line
    ensures Lines(line + [LF] + rest) == [line] + Lines(rest)
  {
    FindAfter(line, LF, rest);
  }

  lemma LastLine(line: string)
    requires LF !in line && line != []
    ensures Lines(line) == [line] && Lines(line + [LF]) == [line]
  {
    assert line[..|line|] == line;
    FindUnique(line, LF, |line|);
    FirstLine(line, []);
    assert line + [LF] + [] == line + [LF];
  }

  lemma SplitLine(file: string) returns (line: string, rest: string)
    requires LF in file
    ensures file == line + [LF] + rest && LF !in line
    ensures Terminated(rest) <==> Terminated(file)
  {
    var k := Find(file, LF);
    assert k < |file| by { assert file[..|file|] == file; }
    line, rest := file[..k], file[k + 1..];
    assert rest != [] ==> rest[|rest| - 1] == file[|file| - 1];
  }

  lemma {:induction false} NonEmptyAppend(a: seq<string>, b: seq<string>)
    ensures NonEmpty(a + b) == NonEmpty(a) + NonEmpty(b)
    decreases a
  {
    if a == [] {
      assert a + b == b;
    } else {
      assert (a + b)[1..] == a[1..] + b;
      NonEmptyAppend(a[1..], b);
    }
  }

  /** Appending to a terminated file appends its lines. */
  lemma {:induction false} LinesAppend(file: string, more: string)
    requires Terminated(file)
    ensures Lines(file + more) == Lines(file) + Lines(more)
    decreases |file|
  {
    if file == [] {
      assert file + more == more;
    } else {
      var line, rest := SplitLine(file);
      hide Lines, Terminated;
      Assoc(line + [LF], rest, more);
      FirstLine(line, rest);
      FirstLine(line, rest + more);
      LinesAppend(rest, more);
      Assoc([line], Lines(rest), Lines(more));
    }
  }

  /** An unterminated file ends in a partial line, and what is appended continues it. */
  lemma {:induction false} PartialLine(file: string, text: string)
    requires !Terminated(file) && text != [] && LF !in text
    ensures |Framed(file + text + [LF])| == |Framed(file)|
    decreases |file|
  {
    if LF !in file {
      LastLine(file);
      LastLine(file + text);
      assert NonEmpty([file]) == [file] + NonEmpty([]);
      assert NonEmpty([file + text]) == [file + text] + NonEmpty([]);
    } else {
      var line, rest := SplitLine(file);
      hide Lines, Terminated;
      assert file + text + [LF] == line + [LF] + (rest + text + [LF]);
      FirstLine(line, rest);
      FirstLine(line, rest + text + [LF]);
      PartialLine(rest, text);
    }
  }

  /** Appending a record adds exactly that record and keeps the earlier ones if and only if the file
      is empty or ends in a line feed. */
  lemma AppendIff(file: string, text: string)
    requires text != [] && LF !in text
    ensures Framed(file + (text + [LF])) == Framed(file) + [text] <==> Terminated(file)
  {
    if Terminated(file) {
      LinesAppend(file, text + [LF]);
      LastLine(text);
      NonEmptyAppend(Lines(file), [text]);
      assert NonEmpty([text]) == [text] + NonEmpty([]);
    } else {
      PartialLine(file, text);
      assert file + (text + [LF]) == file + text + [LF];
    }
  }

  // ---- saving and loading ----

  /** The records written before dump throws, if it does. */
  function Written(lib: Library, items: seq<Item>): seq<Item> {
    if items == [] || lib.dump(ToJson(items[0])).None? then [] else [items[0]] + Written(lib, items[1..])
  }

  /** The text they are written as. */
  function Text(lib: Library, items: seq<Item>): string {
    if items == [] then []
    else
      match lib.dump(ToJson(items[0]))
      case None => []
      case Some(text) => text + [LF] + Text(lib, items[1..])
  }

  /** One line read back: no item for an empty line or an item of another platform; None when the
      line does not parse or has a member of the wrong type. */
  function LoadLine(lib: Library, line: string, platform: string): Option<seq<Item>> {
    if line == [] then Some([])
    else
      match lib.parse(line)
      case None => None
      case Some(j) =>
        if !WellTyped(j, lib.toInt) then None
        else
          var item := Decoded(j, lib.toInt, Fresh());
          Some(if platform != [] && item.platform != platform then [] else [item])
  }

  /** Loading fails as a whole when a line does. */
  function Load(lib: Library, lines: seq<string>, platform: string): Option<seq<Item>>
    decreases |lines|
  {
    if lines == [] then Some([])
    else
      match LoadLine(lib, lines[0], platform)
      case None => None
      case Some(front) =>
        match Load(lib, lines[1..], platform)
        case None => None
        case Some(items) => Some(front + items)
  }

  /** The items of a platform, or all items for the empty name. */
  function OfPlatform(items: seq<Item>, platform: string): seq<Item> {
    if items == [] then []
    else (if platform == [] || items[0].platform == platform then [items[0]] else []) + OfPlatform(items[1..], platform)
  }

  type Files = map<string, string>

  function Content(files: Files, date: string): string {
    if date in files then files[date] else []
  }

  function LoadFrom(lib: Library, files: Files, date: string, platform: string): Option<seq<Item>> {
    Load(lib, Lines(Content(files, date)), platform)
  }

  function SaveTo(lib: Library, files: Files, date: string, items: seq<Item>): Files {
    files[date := Content(files, date) + Text(lib, items)]
  }

  datatype Save = Save(date: string, items: seq<Item>)

  function SaveAll(lib: Library, files: Files, saves: seq<Save>): Files
    decreases saves
  {
    if saves == [] then files else SaveAll(lib, SaveTo(lib, files, saves[0].date, saves[0].items), saves[1..])
  }

  /** What the saves put at a date, in order. */
  function SavedAt(lib: Library, saves: seq<Save>, date: string): seq<Item>
    decreases saves
  {
    if saves == [] then []
    else (if saves[0].date == date then Written(lib, saves[0].items) else []) + SavedAt(lib, saves[1..], date)
  }

  /** A file that holds these items. */
  ghost predicate Holds(lib: Library, file: string, items: seq<Item>) {
    Terminated(file) && forall platform :: Load(lib, Lines(file), platform) == Some(OfPlatform(items, platform))
  }

  lemma {:induction false} LoadAppend(lib: Library, a: seq<string>, b: seq<string>, platform: string)
    requires Load(lib, a, platform).Some? && Load(lib, b, platform).Some?
    ensures Load(lib, a + b, platform) == Some(Load(lib, a, platform).value + Load(lib, b, platform).value)
    decreases |a|
  {
    hide LoadLine;
    if a == [] {
      assert a + b == b;
      assert [] + Load(lib, b, platform).value == Load(lib, b, platform).value;
    } else {
      assert (a + b)[0] == a[0] && (a + b)[1..] == a[1..] + b;
      LoadAppend(lib, a[1..], b, platform);
      Assoc(LoadLine(lib, a[0], platform).value, Load(lib, a[1..], platform).value, Load(lib, b, platform).value);
    }
  }

  lemma {:induction false} OfPlatformAppend(a: seq<Item>, b: seq<Item>, platform: string)
    ensures OfPlatform(a + b, platform) == OfPlatform(a, platform) + OfPlatform(b, platform)
    decreases a
  {
    if a == [] {
      assert a + b == b;
    } else {
      assert (a + b)[1..] == a[1..] + b;
      OfPlatformAppend(a[1..], b, platform);
    }
  }

  /** The text of a save, on its own, holds the items that were written. */
  lemma {:induction false} TextHolds(lib: Library, items: seq<Item>)
    requires AllFaithful(lib, items)
    ensures Holds(lib, Text(lib, items), Written(lib, items))
    decreases items
  {
    if items != [] && lib.dump(ToJson(items[0])).Some? {
      var text := lib.dump(ToJson(items[0])).value;
      var rest := Text(lib, items[1..]);
      assert Faithful(lib, items[0]);
      assert AllFaithful(lib, items[1..]);
      TextHolds(lib, items[1..]);
      FirstLine(text, rest);
      RecordRoundTrip(items[0], lib.toInt, Fresh());
      hide Terminated, WellTyped, Decoded, ToJson, Faithful, AllFaithful;
      TerminatedAfter(text, rest);
      OneRecord(lib, items[0], text, rest, Written(lib, items[1..]));
    }
  }

  lemma TerminatedAfter(text: string, rest: string)
    requires Terminated(rest)
    ensures Terminated(text + [LF] + rest)
  {
  }

  lemma OneRecord(lib: Library, item: Item, text: string, rest: string, items: seq<Item>)
    requires text != [] && lib.parse(text) == Some(ToJson(item)) && Holds(lib, rest, items)
    requires WellTyped(ToJson(item), lib.toInt) && Decoded(ToJson(item), lib.toInt, Fresh()) == item
    requires Lines(text + [LF] + rest) == [text] + Lines(rest) && Terminated(text + [LF] + rest)
    ensures Holds(lib, text + [LF] + rest, [item] + items)
  {
    hide Terminated, WellTyped, Decoded, ToJson, Lines;
    var ls := [text] + Lines(rest);
    assert ls[0] == text && ls[1..] == Lines(rest);
    var all := [item] + items;
    assert all[0] == item && all[1..] == items;
    forall platform ensures Load(lib, ls, platform) == Some(OfPlatform(all, platform)) {
      assert Load(lib, Lines(rest), platform) == Some(OfPlatform(items, platform));
    }
  }

  lemma AppendHolds(lib: Library, file: string, before: seq<Item>, more: string, after: seq<Item>)
    requires Holds(lib, file, before) && Holds(lib, more, after)
    ensures Holds(lib, file + more, before + after)
  {
    LinesAppend(file, more);
    assert Terminated(file + more) by { if more == [] { assert file + more == file; } }
    hide Lines, Terminated;
    forall platform ensures Load(lib, Lines(file + more), platform) == Some(OfPlatform(before + after, platform)) {
      LoadAppend(lib, Lines(file), Lines(more), platform);
      OfPlatformAppend(before, after, platform);
    }
  }

  ghost predicate AllSavesFaithful(lib: Library, saves: seq<Save>) {
    forall i :: 0 <= i < |saves| ==> AllFaithful(lib, saves[i].items)
  }

  lemma {:induction false} SavesHold(lib: Library, files: Files, saves: seq<Save>, date: string, before: seq<Item>)
    requires AllSavesFaithful(lib, saves) && Holds(lib, Content(files, date), before)
    ensures Holds(lib, Content(SaveAll(lib, files, saves), date), before + SavedAt(lib, saves, date))
    decreases saves
  {
    if saves == [] {
      assert before + [] == before;
    } else {
      var s := saves[0];
      var files1 := SaveTo(lib, files, s.date, s.items);
      assert AllFaithful(lib, s.items) && AllSavesFaithful(lib, saves[1..]);
      hide Holds, AllFaithful, AllSavesFaithful;
      SaveHolds(lib, files, s, date, before);
      var now := if s.date == date then Written(lib, s.items) else [];
      SavesHold(lib, files1, saves[1..], date, before + now);
      hide Content, SaveTo, Written;
      Assoc(before, now, SavedAt(lib, saves[1..], date));
    }
  }

  lemma SaveHolds(lib: Library, files: Files, s: Save, date: string, before: seq<Item>)
    requires AllFaithful(lib, s.items) && Holds(lib, Content(files, date), before)
    ensures Holds(lib, Content(SaveTo(lib, files, s.date, s.items), date), before + if s.date == date then Written(lib, s.items) else [])
  {
    hide Holds, AllFaithful;
    if s.date == date {
      TextHolds(lib, s.items);
      AppendHolds(lib, Content(files, date), before, Text(lib, s.items), Written(lib, s.items));
    } else {
      assert before + [] == before;
    }
  }

  /** The files refine a map from date to item sequence: after any interleaving of saves, loading a
      date gives, in order, what was saved at it, filtered by platform. */
  lemma LoadAfterSaves(lib: Library, saves: seq<Save>, date: string, platform: string)
    requires AllSavesFaithful(lib, saves)
    ensures LoadFrom(lib, SaveAll(lib, map[], saves), date, platform) == Some(OfPlatform(SavedAt(lib, saves, date), platform))
  {
    assert Holds(lib, [], []);
    SavesHold(lib, map[], saves, date, []);
    assert [] + SavedAt(lib, saves, date) == SavedAt(lib, saves, date);
  }

  /** A save stores the items before the first that dump refuses, all of them if it refuses none. */
  lemma {:induction false} AllWrittenIff(lib: Library, items: seq<Item>)
    ensures var n := |Written(lib, items)|;
            && Written(lib, items) <= items
            && (forall i :: 0 <= i < n ==> lib.dump(ToJson(items[i])).Some?)
            && (n < |items| ==> lib.dump(ToJson(items[n])).None?)
    ensures Written(lib, items) == items <==> forall i :: 0 <= i < |items| ==> lib.dump(ToJson(items[i])).Some?
    decreases items
  {
    hide ToJson;
    if items != [] {
      AllWrittenIff(lib, items[1..]);
      if Written(lib, items) == items {
        assert Written(lib, items[1..]) == Written(lib, items)[1..];
      }
    }
  }

  // ---- what loading does with any file, not only one that saves have written ----

  /** The items are the records of the lines, in order. */
  ghost predicate AreRecords(lib: Library, lines: seq<string>, items: seq<Item>) {
    && |lines| == |items|
    && forall i :: 0 <= i < |lines| ==> IsRecord(lib, lines[i], items[i])
  }

  ghost predicate IsRecord(lib: Library, line: string, item: Item) {
    var j := lib.parse(line);
    j.Some? && WellTyped(j.value, lib.toInt) && Decoded(j.value, lib.toInt, Fresh()) == item
  }

  lemma RecordsCons(lib: Library, line: string, lines: seq<string>, items: seq<Item>)
    ensures AreRecords(lib, [line] + lines, items) <==>
            items != [] && IsRecord(lib, line, items[0]) && AreRecords(lib, lines, items[1..])
  {
    hide IsRecord;
    var all := [line] + lines;
    if items != [] {
      assert all[0] == line && all[1..] == lines && items == [items[0]] + items[1..];
      if AreRecords(lib, all, items) {
        forall i | 0 <= i < |lines| ensures IsRecord(lib, lines[i], items[1..][i]) {
          assert IsRecord(lib, all[i + 1], items[i + 1]);
        }
      }
      if IsRecord(lib, line, items[0]) && AreRecords(lib, lines, items[1..]) {
        forall i | 0 <= i < |all| ensures IsRecord(lib, all[i], items[i]) {
          if i > 0 { assert IsRecord(lib, lines[i - 1], items[1..][i - 1]); }
        }
      }
    }
  }

  /** With no platform, loading gives some items if and only if every line that is not empty is a record,
      and they are those records in order; any line that is not makes it fail as a whole. */
  lemma {:induction false} LoadIff(lib: Library, lines: seq<string>, items: seq<Item>)
    ensures Load(lib, lines, "") == Some(items) <==> AreRecords(lib, NonEmpty(lines), items)
    decreases lines
  {
    hide WellTyped, Decoded;
    if lines == [] {
      hide IsRecord;
    } else if lines[0] == [] {
      LoadIff(lib, lines[1..], items);
      assert NonEmpty(lines) == NonEmpty(lines[1..]);
      hide AreRecords, IsRecord;
      assert Load(lib, lines, "").Some? ==> [] + Load(lib, lines[1..], "").value == Load(lib, lines[1..], "").value;
    } else {
      RecordsCons(lib, lines[0], NonEmpty(lines[1..]), items);
      hide AreRecords;
      if items != [] {
        LoadIff(lib, lines[1..], items[1..]);
        assert items == [items[0]] + items[1..];
      }
    }
  }

  /** A platform selects from what would be loaded without one. */
  lemma {:induction false} LoadSelects(lib: Library, lines: seq<string>, platform: string)
    ensures Load(lib, lines, platform) ==
            match Load(lib, lines, "")
            case None => None
            case Some(items) => Some(OfPlatform(items, platform))
    decreases lines
  {
    hide WellTyped, Decoded;
    if lines != [] {
      LoadSelects(lib, lines[1..], platform);
      if LoadLine(lib, lines[0], "").Some? && Load(lib, lines[1..], "").Some? {
        OfPlatformAppend(LoadLine(lib, lines[0], "").value, Load(lib, lines[1..], "").value, platform);
      }
    }
  }

  /** The selection keeps exactly the items of the platform, in order; the empty name keeps all. */
  lemma Selected(front: seq<Item>, item: Item, platform: string)
    ensures OfPlatform([], platform) == []
    ensures OfPlatform(front + [item], platform) ==
            OfPlatform(front, platform) + if platform == "" || item.platform == platform then [item] else []
  {
    OfPlatformAppend(front, [item], platform);
    assert OfPlatform([item], platform) == (if platform == "" || item.platform == platform then [item] else []) + [];
  }

  /** One more save comes after the others, in the files and in what they hold. */
  lemma {:induction false} LastSave(lib: Library, files: Files, saves: seq<Save>, s: Save, date: string)
    ensures SaveAll(lib, files, saves + [s]) == SaveTo(lib, SaveAll(lib, files, saves), s.date, s.items)
    ensures SavedAt(lib, saves + [s], date) == SavedAt(lib, saves, date) + if s.date == date then Written(lib, s.items) else []
    decreases saves
  {
    hide SaveTo, Written;
    if saves == [] {
      assert [] + [s] == [s];
      assert SaveAll(lib, files, [s]) == SaveAll(lib, SaveTo(lib, files, s.date, s.items), []);
      assert SavedAt(lib, [s], date) == (if s.date == date then Written(lib, s.items) else []) + SavedAt(lib, [], date);
    } else {
      assert (saves + [s])[0] == saves[0] && (saves + [s])[1..] == saves[1..] + [s];
      LastSave(lib, SaveTo(lib, files, saves[0].date, saves[0].items), saves[1..], s, date);
    }
  }
}
