/** The hand-written reader of the exception list of the pnpm audit check. */
module AuditParser {
  import opened Collections

  // ---------------------------------------------------------------- strings as Python has them

  /** The characters str.strip() removes. */
  predicate IsSpace(c: char) {
    var n := c as int;
    || 0x09 <= n <= 0x0D || 0x1C <= n <= 0x20 || n == 0x85 || n == 0xA0 || n == 0x1680
    || 0x2000 <= n <= 0x200A || n == 0x2028 || n == 0x2029 || n == 0x202F || n == 0x205F || n == 0x3000
  }

  function StripLeft(s: string): string {
    if s == "" || !IsSpace(s[0]) then s else StripLeft(s[1..])
  }

  function StripRight(s: string): string {
    if s == "" || !IsSpace(s[|s| - 1]) then s else StripRight(s[..|s| - 1])
  }

  function Strip(s: string): string {
    StripRight(StripLeft(s))
  }

  predicate Trimmed(s: string) {
    s == "" || (!IsSpace(s[0]) && !IsSpace(s[|s| - 1]))
  }

  lemma TrimmedIsKept(s: string)
    requires Trimmed(s)
    ensures Strip(s) == s
  {
  }

  predicate Blank(s: string) {
    forall i :: 0 <= i < |s| ==> IsSpace(s[i])
  }

  /** Of the ASCII characters, the blanks are the tab, the line and page breaks, the four separators and the space. */
  lemma BlanksAre(c: char)
    requires c < 128 as char
    ensures IsSpace(c) <==> c in "\t\n\r \U{000B}\U{000C}\U{001C}\U{001D}\U{001E}\U{001F}"
  {
  }

  lemma {:induction false} LeftBlanks(a: string, s: string)
    requires Blank(a)
    ensures StripLeft(a + s) == StripLeft(s)
  {
    if a == "" {
      assert a + s == s;
    } else {
      assert (a + s)[1..] == a[1..] + s;
      LeftBlanks(a[1..], s);
    }
  }

  lemma {:induction false} RightBlanks(s: string, b: string)
    requires Blank(b)
    ensures StripRight(s + b) == StripRight(s)
  {
    if b == "" {
      assert s + b == s;
    } else {
      var n := |b| - 1;
      assert (s + b)[..|s + b| - 1] == s + b[..n] && (s + b)[|s + b| - 1] == b[n];
      RightBlanks(s, b[..n]);
    }
  }

  /** Stripping takes off the blanks on both sides of a text, and nothing else. */
  lemma StripTakesBlanks(a: string, s: string, b: string)
    requires Blank(a) && Trimmed(s) && Blank(b)
    ensures Strip(a + s + b) == s
  {
    assert a + s + b == a + (s + b);
    LeftBlanks(a, s + b);
    if s == "" {
      assert s + b == b;
      LeftBlanks(b, "");
      assert b + "" == b;
    } else {
      assert (s + b)[0] == s[0];
      assert StripLeft(s + b) == s + b;
      RightBlanks(s, b);
    }
  }

  /** The lines of a text file read with universal newlines. A carriage return with a line feed ends two
      lines here, the second of them empty, which the parser skips like any blank line. */
  function Lines(text: string): (lines: seq<string>)
    ensures |lines| > 0
  {
    if text == "" then [""]
    else
      var front, c := Lines(text[..|text| - 1]), text[|text| - 1];
      if c == '\n' || c == '\r' then front + [""]
      else front[..|front| - 1] + [front[|front| - 1] + [c]]
  }

  function ColonAt(s: string): (at: nat)
    ensures at <= |s|
    ensures at < |s| ==> s[at] == ':'
    ensures forall i :: 0 <= i < at ==> s[i] != ':'
  {
    if s == "" || s[0] == ':' then 0 else 1 + ColonAt(s[1..])
  }

  predicate Enclosed(s: string, quote: char) {
    s != "" && s[0] == quote && s[|s| - 1] == quote
  }

  /** Drops the first and the last character of a quoted value; a lone quote is both. */
  function Unquote(s: string): string {
    if Enclosed(s, '"') || Enclosed(s, '\'') then if |s| == 1 then "" else s[1..|s| - 1] else s
  }

  // ---------------------------------------------------------------- the parser

  type Record = map<string, string>

  /** split_kv: None when there is no colon, where Python raises an error. */
  function SplitKv(line: string): Option<(string, string)> {
    var at := ColonAt(line);
    if at == |line| then None else Some((Strip(line[..at]), Unquote(Strip(line[at + 1..]))))
  }

  predicate StartsWith(s: string, prefix: string) {
    prefix <= s
  }

  /** Lines the parser skips. */
  predicate Ignored(line: string) {
    line == "" || StartsWith(line, "#") || StartsWith(line, "version:") || StartsWith(line, "exceptions:")
  }

  predicate StartsItem(raw: string) {
    var line := Strip(raw);
    !Ignored(line) && StartsWith(line, "- ")
  }

  /** What the parser holds: the finished records, and the record it is filling, if it has begun one. */
  datatype State = State(records: seq<Record>, current: Option<Record>)

  function Finish(s: State): seq<Record> {
    if s.current.Some? && s.current.value != map[] then s.records + [s.current.value] else s.records
  }

  /** One line; None when split_kv fails. */
  function Step(s: State, raw: string): Option<State> {
    var line := Strip(raw);
    if Ignored(line) then Some(s)
    else if StartsWith(line, "- ") then
      var item := Strip(line[2..]);
      if item == "" then Some(State(Finish(s), Some(map[])))
      else
        match SplitKv(item)
        case None => None
        case Some(kv) => Some(State(Finish(s), Some(map[kv.0 := kv.1])))
    else if s.current.Some? && ':' in line then
      match SplitKv(line)
      case None => None
      case Some(kv) => Some(s.(current := Some(s.current.value[kv.0 := kv.1])))
    else Some(s)
  }

  /** All lines, up to one that fails. */
  function Scan(s: State, lines: seq<string>): Option<State> {
    if lines == [] then Some(s)
    else
      match Scan(s, lines[..|lines| - 1])
      case None => None
      case Some(t) => Step(t, lines[|lines| - 1])
  }

  const START := State([], None)

  function ParseLines(lines: seq<string>): Option<seq<Record>> {
    match Scan(START, lines)
    case None => None
    case Some(s) => Some(Finish(s))
  }

  /** Reads the exception list line by line. */
  method ParseExceptions(text: string) returns (records: Option<seq<Record>>)
    ensures records == ParseLines(Lines(text))
  {
    hide Step, Finish;
    var lines := Lines(text);
    var exceptions: seq<Record>, current: Option<Record> := [], None;
    for i := 0 to |lines|
      invariant Scan(START, lines[..i]) == Some(State(exceptions, current))
    {
      assert lines[..i + 1][..i] == lines[..i];
      var next := Step(State(exceptions, current), lines[i]);
      if next.None? {
        FailsForGood(START, lines, i + 1);
        return None;
      }
      exceptions, current := next.value.records, next.value.current;
    }
    assert lines[..|lines|] == lines;
    records := Some(Finish(State(exceptions, current)));
  }

  lemma {:induction false} FailsForGood(s: State, lines: seq<string>, i: nat)
    requires i <= |lines| && Scan(s, lines[..i]).None?
    ensures Scan(s, lines).None?
    decreases |lines|
  {
    if i == |lines| {
      assert lines[..i] == lines;
    } else {
      assert lines[..|lines| - 1][..i] == lines[..i];
      FailsForGood(s, lines[..|lines| - 1], i);
    }
  }

  lemma {:induction false} ScanInTwo(s: State, a: seq<string>, b: seq<string>)
    ensures Scan(s, a + b) ==
      match Scan(s, a)
      case None => None
      case Some(t) => Scan(t, b)
    decreases b
  {
    hide Step;
    if b == [] {
      assert a + b == a;
    } else {
      assert (a + b)[..|a + b| - 1] == a + b[..|b| - 1];
      ScanInTwo(s, a, b[..|b| - 1]);
    }
  }

  /** Blank lines, comments, the two headings and lines that are no item and have no colon can stand anywhere and
      change nothing. */
  lemma SkippedAnywhere(a: seq<string>, raw: string, b: seq<string>)
    requires
      var line := Strip(raw);
      || line == "" || StartsWith(line, "#") || StartsWith(line, "version:") || StartsWith(line, "exceptions:")
      || (!StartsWith(line, "- ") && ':' !in line)
    ensures ParseLines(a + [raw] + b) == ParseLines(a + b)
  {
    ScanInTwo(START, a + [raw], b);
    ScanInTwo(START, a, [raw]);
    ScanInTwo(START, a, b);
    if Scan(START, a).Some? { OneLine(Scan(START, a).value, raw); }
  }

  lemma {:induction false} NoItemNoRecord(lines: seq<string>)
    requires forall l :: l in lines ==> !StartsItem(l)
    ensures Scan(START, lines) == Some(START)
  {
    hide Strip, SplitKv;
    if lines != [] {
      var front, last := lines[..|lines| - 1], lines[|lines| - 1];
      assert last in lines && forall l :: l in front ==> l in lines;
      NoItemNoRecord(front);
    }
  }

  /** What comes before the first item does not count. */
  lemma NothingBeforeItems(a: seq<string>, b: seq<string>)
    requires forall l :: l in a ==> !StartsItem(l)
    ensures ParseLines(a + b) == ParseLines(b)
  {
    NoItemNoRecord(a);
    ScanInTwo(START, a, b);
  }

  /** Indentation and blanks at the end of a line do not count. */
  lemma IndentationIgnored(a: seq<string>, left: string, line: string, right: string, b: seq<string>)
    requires Blank(left) && Trimmed(line) && Blank(right)
    ensures ParseLines(a + [left + line + right] + b) == ParseLines(a + [line] + b)
  {
    StripTakesBlanks(left, line, right);
    TrimmedIsKept(line);
    var raw := left + line + right;
    forall s: State
      ensures Step(s, raw) == Step(s, line)
    {
    }
    hide Step, Strip;
    ScanInTwo(START, a + [raw], b);
    ScanInTwo(START, a + [line], b);
    ScanInTwo(START, a, [raw]);
    ScanInTwo(START, a, [line]);
    if Scan(START, a).Some? {
      OneLine(Scan(START, a).value, raw);
      OneLine(Scan(START, a).value, line);
    }
  }

  // ---------------------------------------------------------------- which texts do not parse

  /** A line that starts an item but has no colon to split it at. */
  predicate Unsplittable(raw: string) {
    StartsItem(raw) && ':' !in Strip(raw)
  }

  lemma {:induction false} ColonAtIff(s: string)
    ensures ColonAt(s) < |s| <==> ':' in s
  {
    if ColonAt(s) < |s| {
      assert s[ColonAt(s)] == ':';
    } else {
      assert forall i :: 0 <= i < |s| ==> s[i] != ':';
    }
  }

  lemma {:induction false} StripKeepsColons(s: string)
    ensures ':' in StripLeft(s) <==> ':' in s
    ensures ':' in StripRight(s) <==> ':' in s
    decreases |s|
  {
    if s != "" {
      assert s == [s[0]] + s[1..] && s == s[..|s| - 1] + [s[|s| - 1]];
      StripKeepsColons(s[1..]);
      StripKeepsColons(s[..|s| - 1]);
    }
  }

  lemma ItemHasColon(line: string)
    requires StartsWith(line, "- ")
    ensures ':' in Strip(line[2..]) <==> ':' in line
  {
    assert line == "- " + line[2..];
    StripKeepsColons(line[2..]);
    StripKeepsColons(StripLeft(line[2..]));
  }

  lemma {:induction false} StripEnds(s: string)
    ensures Strip(s) == "" || !IsSpace(Strip(s)[|Strip(s)| - 1])
  {
    StripRightEnds(StripLeft(s));
  }

  lemma {:induction false} StripRightEnds(s: string)
    ensures StripRight(s) == "" || !IsSpace(StripRight(s)[|StripRight(s)| - 1])
  {
    if s != "" && IsSpace(s[|s| - 1]) { StripRightEnds(s[..|s| - 1]); }
  }

  lemma {:induction false} OnlySpacesStrip(s: string)
    requires s != "" && !IsSpace(s[|s| - 1])
    ensures Strip(s) != ""
    decreases |s|
  {
    if IsSpace(s[0]) { OnlySpacesStrip(s[1..]); }
  }

  lemma StepFailsIff(s: State, raw: string)
    ensures Step(s, raw).None? <==> Unsplittable(raw)
  {
    var line := Strip(raw);
    StripEnds(raw);
    assert IsSpace(' ');
    hide Strip, IsSpace;
    if StartsItem(raw) {
      assert line[1] == ' ';
      assert line[2..] != "" && line[2..][|line[2..]| - 1] == line[|line| - 1];
      OnlySpacesStrip(line[2..]);
      ItemHasColon(line);
      ColonAtIff(Strip(line[2..]));
    } else {
      ColonAtIff(line);
    }
  }

  /** Reading the lines fails exactly when one of them starts an item that has no colon. */
  lemma {:induction false} ScanFailsIff(s: State, lines: seq<string>)
    ensures Scan(s, lines).None? <==> exists i :: 0 <= i < |lines| && Unsplittable(lines[i])
  {
    hide Step, Unsplittable;
    if lines != [] {
      var n := |lines| - 1;
      ScanFailsIff(s, lines[..n]);
      if Scan(s, lines[..n]).Some? {
        StepFailsIff(Scan(s, lines[..n]).value, lines[n]);
      } else {
        var i :| 0 <= i < n && Unsplittable(lines[..n][i]);
        assert Unsplittable(lines[i]);
      }
      if i :| 0 <= i < |lines| && Unsplittable(lines[i]) {
        assert i < n ==> Unsplittable(lines[..n][i]);
      }
    }
  }

  // ---------------------------------------------------------------- no empty record

  function ItemLines(lines: seq<string>): nat {
    if lines == [] then 0 else ItemLines(lines[..|lines| - 1]) + if StartsItem(lines[|lines| - 1]) then 1 else 0
  }

  lemma {:induction false} RecordsFromItems(lines: seq<string>)
    requires Scan(START, lines).Some?
    ensures
      var s := Scan(START, lines).value;
      && (forall r :: r in s.records ==> r != map[])
      && |s.records| + (if s.current.Some? then 1 else 0) <= ItemLines(lines)
  {
    hide SplitKv;
    if lines != [] { RecordsFromItems(lines[..|lines| - 1]); }
  }

  /** The parser never returns an empty record, nor more records than lines that start an item. */
  lemma RecordsAreFilled(lines: seq<string>)
    requires ParseLines(lines).Some?
    ensures forall r :: r in ParseLines(lines).value ==> r != map[]
    ensures |ParseLines(lines).value| <= ItemLines(lines)
  {
    RecordsFromItems(lines);
  }

  // ---------------------------------------------------------------- one document after another

  /** Nothing but ignored lines before the first line that starts an item, if there is any. */
  predicate BeginsWithItem(lines: seq<string>) {
    lines == [] || StartsItem(lines[0]) || (Ignored(Strip(lines[0])) && BeginsWithItem(lines[1..]))
  }

  lemma {:induction false} EarlierRecordsStay(t: State, s: State, done: seq<Record>, lines: seq<string>)
    requires t == State(done + s.records, s.current)
    ensures Scan(t, lines) ==
        match Scan(s, lines) case None => None case Some(u) => Some(State(done + u.records, u.current))
  {
    hide Strip, SplitKv, Ignored, StartsWith;
    if lines != [] {
      EarlierRecordsStay(t, s, done, lines[..|lines| - 1]);
      match Scan(s, lines[..|lines| - 1]) {
        case None =>
        case Some(u) =>
          assert Finish(State(done + u.records, u.current)) == done + Finish(u);
      }
    }
  }

  lemma {:induction false} FromItemOn(s: State, lines: seq<string>)
    requires BeginsWithItem(lines)
    ensures
      match Scan(START, lines)
      case None => Scan(s, lines).None?
      case Some(u) => Scan(s, lines).Some? && Finish(Scan(s, lines).value) == Finish(s) + Finish(u)
    decreases lines
  {
    if lines == [] {
    } else {
      assert lines == [lines[0]] + lines[1..];
      ScanInTwo(s, [lines[0]], lines[1..]);
      ScanInTwo(START, [lines[0]], lines[1..]);
      OneLine(s, lines[0]);
      OneLine(START, lines[0]);
      if Ignored(Strip(lines[0])) {
        FromItemOn(s, lines[1..]);
      } else {
        FromFirstItem(s, lines[0], lines[1..]);
      }
    }
  }

  lemma OneLine(s: State, raw: string)
    ensures Scan(s, [raw]) == Step(s, raw)
  {
  }

  lemma FromFirstItem(s: State, raw: string, rest: seq<string>)
    requires StartsItem(raw)
    ensures Step(s, raw).None? <==> Step(START, raw).None?
    ensures Step(s, raw).Some? ==>
      match Scan(Step(START, raw).value, rest)
      case None => Scan(Step(s, raw).value, rest).None?
      case Some(u) =>
        && Scan(Step(s, raw).value, rest).Some?
        && Finish(Scan(Step(s, raw).value, rest).value) == Finish(s) + Finish(u)
  {
    if Step(s, raw).Some? {
      var t, u := Step(s, raw).value, Step(START, raw).value;
      assert t.records == Finish(s) && u.records == [] && t.current == u.current;
      assert Finish(s) + u.records == t.records;
      EarlierRecordsStay(t, u, Finish(s), rest);
    }
  }

  /** Parsing is compositional: if the second document's first significant line starts an item, parsing the
      two after one another gives the records of the first and then those of the second. */
  lemma ParseInTwo(a: seq<string>, b: seq<string>)
    requires BeginsWithItem(b)
    ensures ParseLines(a + b) ==
      if ParseLines(a).None? || ParseLines(b).None? then None else Some(ParseLines(a).value + ParseLines(b).value)
  {
    ScanInTwo(START, a, b);
    if Scan(START, a).Some? { FromItemOn(Scan(START, a).value, b); }
  }
}
