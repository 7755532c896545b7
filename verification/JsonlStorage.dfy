/** The storage with its mutable files, proved against the functions of module Storage. */
module JsonlStorage {
  import opened Common
  import opened Records
  import opened Strings
  import opened Storage

  // ---- the order of list_dates ----

  /** std::string's order: byte by byte, a prefix first. */
  predicate Leq(a: string, b: string) {
    a == [] || (b != [] && (a[0] < b[0] || (a[0] == b[0] && Leq(a[1..], b[1..]))))
  }

  /** a is smaller than b at the first place where they differ. */
  ghost predicate Differs(a: string, b: string, k: nat) {
    k < |a| && k < |b| && a[..k] == b[..k] && a[k] < b[k]
  }

  lemma DiffersLater(a: string, b: string, k: nat)
    requires a != [] && b != [] && a[0] == b[0]
    ensures Differs(a[1..], b[1..], k) <==> Differs(a, b, k + 1)
  {
    var s, t := a[1..], b[1..];
    if k < |s| && k < |t| {
      assert a[..k + 1] == [a[0]] + s[..k] && b[..k + 1] == [b[0]] + t[..k];
      assert s[..k] == a[..k + 1][1..] && t[..k] == b[..k + 1][1..];
    }
  }

  lemma DiffersFirst(a: string, b: string, k: nat)
    requires a != [] && b != [] && a[0] != b[0]
    ensures Differs(a, b, k) <==> k == 0 && a[0] < b[0]
  {
    if k == 0 {
      assert a[..k] == b[..k];
    } else if k < |a| && k < |b| {
      assert a[..k][0] == a[0] && b[..k][0] == b[0];
    }
  }

  lemma PrefixLater(a: string, b: string)
    requires a != [] && b != [] && a[0] == b[0]
    ensures a <= b <==> a[1..] <= b[1..]
  {
    assert a == [a[0]] + a[1..] && b == [b[0]] + b[1..];
  }

  /** a precedes b if it is a prefix of b or is smaller at the first place where they differ. */
  lemma {:induction false} LeqIff(a: string, b: string)
    ensures Leq(a, b) <==> a <= b || exists k: nat :: Differs(a, b, k)
    decreases a
  {
    if a != [] && b != [] {
      if a[0] == b[0] {
        LeqIff(a[1..], b[1..]);
        PrefixLater(a, b);
        hide Differs;
        if k: nat :| Differs(a[1..], b[1..], k) { DiffersLater(a, b, k); }
        if k: nat :| Differs(a, b, k) {
          NotFirst(a, b, k);
          DiffersLater(a, b, k - 1);
        }
      } else {
        hide Differs;
        DiffersFirst(a, b, 0);
        if k: nat :| Differs(a, b, k) { DiffersFirst(a, b, k); }
      }
    }
  }

  lemma NotFirst(a: string, b: string, k: nat)
    requires Differs(a, b, k) && a[0] == b[0]
    ensures k > 0
  {
  }

  lemma LeqTotal(a: string, b: string)
    ensures Leq(a, b) || Leq(b, a)
  {
  }

  lemma {:induction false} LeqAntisymmetric(a: string, b: string)
    requires Leq(a, b) && Leq(b, a)
    ensures a == b
    decreases a
  {
    if a != [] {
      LeqAntisymmetric(a[1..], b[1..]);
      assert a == [a[0]] + a[1..] && b == [b[0]] + b[1..];
    }
  }

  lemma LeqTransitive(a: string, b: string, c: string)
    requires Leq(a, b) && Leq(b, c)
    ensures Leq(a, c)
  {
  }

  /** From the greatest down, nothing twice. */
  predicate Strict(r: seq<string>) {
    forall i, j :: 0 <= i < j < |r| ==> r[i] != r[j] && Leq(r[j], r[i])
  }

  function Elements(r: seq<string>): set<string> {
    set s | s in r
  }

  predicate Distinct(r: seq<string>) {
    forall i, j :: 0 <= i < j < |r| ==> r[i] != r[j]
  }

  /** std::sort with std::greater */
  function SortDescending(s: seq<string>): seq<string> {
    if s == [] then [] else Insert(s[0], SortDescending(s[1..]))
  }

  function Insert(x: string, r: seq<string>): seq<string> {
    if r == [] then [x] else if Leq(r[0], x) then [x] + r else [r[0]] + Insert(x, r[1..])
  }

  lemma {:induction false} InsertStrict(x: string, r: seq<string>)
    requires Strict(r) && x !in r
    ensures Strict(Insert(x, r)) && Elements(Insert(x, r)) == Elements(r) + {x}
    decreases r
  {
    if r == [] {
    } else if Leq(r[0], x) {
      forall j | 0 <= j < |r| ensures r[j] != x && Leq(r[j], x) {
        if j > 0 { LeqTransitive(r[j], r[0], x); }
      }
    } else {
      LeqTotal(x, r[0]);
      InsertStrict(x, r[1..]);
      var t := Insert(x, r[1..]);
      assert r == [r[0]] + r[1..];
      assert Elements(t) == Elements(r[1..]) + {x};
      forall j | 0 <= j < |t| ensures t[j] != r[0] && Leq(t[j], r[0]) {
        assert t[j] in Elements(t);
      }
      assert Elements([r[0]] + t) == {r[0]} + Elements(t);
    }
  }

  lemma {:induction false} SortStrict(s: seq<string>)
    requires Distinct(s)
    ensures Strict(SortDescending(s)) && Elements(SortDescending(s)) == Elements(s)
    decreases s
  {
    if s != [] {
      SortStrict(s[1..]);
      assert s == [s[0]] + s[1..];
      assert s[0] !in s[1..];
      assert s[0] !in SortDescending(s[1..]) by { assert s[0] !in Elements(s[1..]); }
      InsertStrict(s[0], SortDescending(s[1..]));
      assert Elements(s) == {s[0]} + Elements(s[1..]);
    }
  }

  lemma SomeElement(r: seq<string>)
    ensures r != [] ==> Elements(r) != {}
  {
    if r != [] { assert r[0] in Elements(r); }
  }

  /** The result does not depend on the order in which the directory was read, or on the sort. */
  lemma {:induction false} StrictUnique(a: seq<string>, b: seq<string>)
    requires Strict(a) && Strict(b) && Elements(a) == Elements(b)
    ensures a == b
    decreases a
  {
    SomeElement(b);
    if a != [] {
      assert a[0] in Elements(a);
      assert b[0] in Elements(b);
      var i :| 0 <= i < |b| && b[i] == a[0];
      var j :| 0 <= j < |a| && a[j] == b[0];
      if i > 0 && j > 0 { LeqAntisymmetric(a[0], b[0]); }
      assert a[0] == b[0];
      assert Elements(a[1..]) == Elements(a) - {a[0]};
      assert Elements(b[1..]) == Elements(b) - {b[0]};
      StrictUnique(a[1..], b[1..]);
      assert a == [a[0]] + a[1..] && b == [b[0]] + b[1..];
    }
  }

  // ---- the class ----

  const SESSIONS := "sessions"

  class Store {
    const lib: Library
    var started: bool
    var present: bool         // data_dir_ exists
    var dirs: set<string>     // its subdirectories
    var files: Files          // items.jsonl of each of them that has one

    ghost predicate Valid()
      reads this
    {
      files.Keys <= dirs && (dirs != {} ==> present)
    }

    constructor (lib: Library)
      ensures Valid() && this.lib == lib && !started && !present && dirs == {} && files == map[]
    {
      this.lib := lib;
      started, present, dirs, files := false, false, {}, map[];
    }

    method Start()
      requires Valid()
      modifies this
      ensures Valid() && started && files == old(files) && dirs == old(dirs)
      ensures present == (old(present) || !old(started))
    {
      if started {
        return;
      }
      present, started := true, true;
    }

    /** Appends the items to the file of the date, one line each; ok is false when dump throws, which
        leaves the lines before. */
    method SaveItems(items: seq<Item>, date: string, today: string) returns (ok: bool)
      requires Valid()
      modifies this
      ensures var d := if date == [] then today else date;
              && files == SaveTo(lib, old(files), d, items) && dirs == old(dirs) + {d}
      ensures Valid() && present && started == old(started)
      ensures ok <==> Written(lib, items) == items
    {
      hide Content, Text, Written;
      var d := if date == [] then today else date;
      OpenDated(d);
      ok := AppendLines(d, items);
    }

    /** date_dir and the opening of the stream, which creates what is missing. */
    method OpenDated(d: string)
      requires Valid()
      modifies this
      ensures files == old(files)[d := Content(old(files), d)] && dirs == old(dirs) + {d}
      ensures Valid() && present && started == old(started)
    {
      present, dirs := true, dirs + {d};
      files := files[d := Content(files, d)];
    }

    /** The loop over the open stream; what was written stays when dump throws. */
    method AppendLines(d: string, items: seq<Item>) returns (ok: bool)
      requires d in files
      modifies `files
      ensures files == old(files)[d := old(files)[d] + Text(lib, items)]
      ensures ok <==> Written(lib, items) == items
    {
      var content := files[d];
      ghost var before := content;
      AllWrittenIff(lib, items);
      hide ToJson, Written;
      for i := 0 to |items|
        invariant files == old(files)[d := content]
        invariant before + Text(lib, items) == content + Text(lib, items[i..])
        invariant forall k :: 0 <= k < i ==> lib.dump(ToJson(items[k])).Some?
      {
        var text := lib.dump(ToJson(items[i]));
        TextFirst(lib, items, i, content);
        hide Text;
        if text.None? {
          return false;
        }
        content := content + (text.value + [LF]);
        files := files[d := content];
      }
      assert content + [] == content;
      ok := true;
    }

    /** Reads the file of the date line by line; None when a line makes parse or from_json throw. */
    method LoadItems(date: string, platform: string, today: string) returns (r: Option<seq<Item>>)
      ensures r == LoadFrom(lib, files, if date == [] then today else date, platform)
    {
      var d := if date == [] then today else date;
      if d !in files {
        return Some([]);
      }
      var rest := files[d];
      var items: seq<Item> := [];
      ghost var lines := Lines(rest);
      BehindNothing(Load(lib, lines, platform));
      hide LoadLine;
      while rest != []
        invariant Load(lib, lines, platform) == Behind(items, Load(lib, Lines(rest), platform))
        decreases |rest|
      {
        var k := Find(rest, LF);
        LoadFirst(lib, rest, platform, items);
        var found := ReadLine(rest[..k], platform);
        hide Load, Lines;
        if found.None? {
          return None;
        }
        if found.value != [] {
          items := items + found.value;
        }
        rest := if k == |rest| then [] else rest[k + 1..];
      }
      assert items + [] == items;
      r := Some(items);
    }

    method ReadLine(line: string, platform: string) returns (found: Option<seq<Item>>)
      ensures found == LoadLine(lib, line, platform)
    {
      hide WellTyped, Decoded;
      if line == [] {
        return Some([]);
      }
      var j := lib.parse(line);
      if j.None? {
        return None;
      }
      var ok, item := FromJson(j.value, lib.toInt, Fresh());
      if !ok {
        return None;
      }
      if platform != [] && item.platform != platform {
        return Some([]);
      }
      return Some([item]);
    }

    /** The subdirectories but "sessions", in descending order, whatever order the directory has. */
    method ListDates() returns (dates: seq<string>)
      requires Valid()
      ensures Strict(dates) && Elements(dates) == dirs - {"sessions"}
    {
      dates := [];
      if !present {
        return;
      }
      var entries := dirs;
      while entries != {}
        invariant entries <= dirs && Distinct(dates) && Elements(dates) == dirs - entries - {SESSIONS}
        decreases entries
      {
        var entry :| entry in entries;
        ghost var left := entries - {entry};
        assert dirs - left == (dirs - entries) + {entry};
        if entry != SESSIONS {
          assert entry !in Elements(dates);
          assert Elements(dates + [entry]) == Elements(dates) + {entry};
          dates := dates + [entry];
        }
        entries := entries - {entry};
      }
      SortStrict(dates);
      dates := SortDescending(dates);
    }
  }

  function Behind(items: seq<Item>, more: Option<seq<Item>>): Option<seq<Item>> {
    match more
    case None => None
    case Some(rest) => Some(items + rest)
  }

  lemma BehindNothing(r: Option<seq<Item>>)
    ensures Behind([], r) == r
  {
    if r.Some? { assert [] + r.value == r.value; }
  }

  lemma LoadFirst(lib: Library, s: string, platform: string, items: seq<Item>)
    requires s != []
    ensures var k := Find(s, LF);
            Behind(items, Load(lib, Lines(s), platform)) ==
            match LoadLine(lib, s[..k], platform)
            case None => None
            case Some(front) =>
              Behind(if front == [] then items else items + front, Load(lib, Lines(if k == |s| then [] else s[k + 1..]), platform))
  {
    var k := Find(s, LF);
    var after := Lines(if k == |s| then [] else s[k + 1..]);
    assert Lines(s) == [s[..k]] + after by { assert k == |s| ==> s[..k] == s; }
    hide LoadLine, Lines, Find;
    var line := s[..k];
    assert ([line] + after)[0] == line && ([line] + after)[1..] == after;
    assert items + [] == items;
    if LoadLine(lib, line, platform).Some? && Load(lib, after, platform).Some? {
      Assoc(items, LoadLine(lib, line, platform).value, Load(lib, after, platform).value);
    }
  }

  lemma TextFirst(lib: Library, items: seq<Item>, i: nat, content: string)
    requires i < |items|
    ensures var text := lib.dump(ToJson(items[i]));
            content + Text(lib, items[i..]) == if text.None? then content else content + (text.value + [LF]) + Text(lib, items[i + 1..])
  {
    hide ToJson;
    assert items[i..][0] == items[i] && items[i..][1..] == items[i + 1..];
    var text := lib.dump(ToJson(items[i]));
    if text.Some? { Assoc(content, text.value + [LF], Text(lib, items[i + 1..])); }
    assert content + [] == content;
  }
}
