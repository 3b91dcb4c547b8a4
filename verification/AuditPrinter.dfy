/** Printing an exception list in the form the parser reads, and reading it back. */
module AuditPrinter {
  import opened Collections
  import opened AuditParser

  /** How a value is printed: as it is, or in either kind of quotes. */
  datatype Style = Plain | Quoted(quote: char)

  datatype Pair = Pair(key: string, value: string, style: Style)

  /** The keys and values of one record, in the order in which they are printed. */
  type Pairs = seq<Pair>

  predicate NewlineFree(s: string) {
    '\n' !in s && '\r' !in s
  }

  /** A key that can open a record: no colon, no newline, no outer whitespace. */
  predicate FirstKey(key: string) {
    ':' !in key && NewlineFree(key) && Trimmed(key)
  }

  /** A key that can follow: its line must not read as a comment, an item or a heading either. */
  predicate LaterKey(key: string) {
    FirstKey(key) && !StartsWith(key, "#") && !StartsWith(key, "- ") && key != "version" && key != "exceptions"
  }

  /** A value that can be printed in its style: without newlines and, when it is not quoted, without outer blanks and
      not enclosed in quotes of its own. A quote at one end alone does no harm. */
  predicate Writable(p: Pair) {
    && NewlineFree(p.value)
    && match p.style
       case Plain => Trimmed(p.value) && !Enclosed(p.value, '"') && !Enclosed(p.value, '\'')
       case Quoted(quote) => quote == '"' || quote == '\''
  }

  predicate Printable(r: Pairs) {
    && r != []
    && FirstKey(r[0].key)
    && (forall i :: 1 <= i < |r| ==> LaterKey(r[i].key))
    && (forall i :: 0 <= i < |r| ==> Writable(r[i]))
  }

  /** The record the pairs denote; of two pairs with one key, the later counts. */
  function AsRecord(r: Pairs): Record {
    if r == [] then map[] else AsRecord(r[..|r| - 1])[r[|r| - 1].key := r[|r| - 1].value]
  }

  function AsRecords(rs: seq<Pairs>): (records: seq<Record>)
    ensures |records| == |rs| && forall i :: 0 <= i < |rs| ==> records[i] == AsRecord(rs[i])
  {
    seq(|rs|, i requires 0 <= i < |rs| => AsRecord(rs[i]))
  }

  /** What follows the colon. */
  function Written(p: Pair): string {
    match p.style
    case Plain => if p.value == "" then "" else " " + p.value
    case Quoted(quote) => " " + ([quote] + p.value + [quote])
  }

  function Entry(p: Pair): string {
    p.key + ":" + Written(p)
  }

  function PrintRecord(r: Pairs): (lines: seq<string>)
    ensures |lines| == |r|
  {
    if r == [] then []
    else PrintRecord(r[..|r| - 1]) + [(if |r| == 1 then "- " else "  ") + Entry(r[|r| - 1])]
  }

  function PrintLines(rs: seq<Pairs>): seq<string> {
    if rs == [] then [] else PrintLines(rs[..|rs| - 1]) + PrintRecord(rs[|rs| - 1])
  }

  function Join(lines: seq<string>): string {
    if lines == [] then ""
    else if |lines| == 1 then lines[0]
    else Join(lines[..|lines| - 1]) + "\n" + lines[|lines| - 1]
  }

  function Print(rs: seq<Pairs>): string {
    Join(PrintLines(rs))
  }

  // ---------------------------------------------------------------- lines

  function Push(lines: seq<string>, c: char): seq<string>
    requires lines != []
  {
    if c == '\n' || c == '\r' then lines + [""] else lines[..|lines| - 1] + [lines[|lines| - 1] + [c]]
  }

  lemma LinesPush(t: string, c: char)
    ensures Lines(t + [c]) == Push(Lines(t), c)
  {
  }

  lemma PushLast(a: seq<string>, b: seq<string>, c: char)
    requires b != []
    ensures Push(a + b, c) == a + Push(b, c)
  {
  }

  /** Two texts with a line feed or a carriage return between them have the lines of the one and then those of the
      other. */
  lemma {:induction false} LinesInTwo(a: string, newline: char, b: string)
    requires newline == '\n' || newline == '\r'
    ensures Lines(a + [newline] + b) == Lines(a) + Lines(b)
  {
    var n := [newline];
    if b == "" {
      LinesPush(a, newline);
      assert a + n + b == a + n;
    } else {
      var b', c := b[..|b| - 1], b[|b| - 1];
      assert b == b' + [c] && a + n + b == a + n + b' + [c];
      LinesInTwo(a, newline, b');
      LinesPush(a + n + b', c);
      LinesPush(b', c);
      PushLast(Lines(a), Lines(b'), c);
    }
  }

  lemma {:induction false} OneLineText(s: string)
    requires NewlineFree(s)
    ensures Lines(s) == [s]
  {
    if s != "" {
      assert s == s[..|s| - 1] + [s[|s| - 1]];
      OneLineText(s[..|s| - 1]);
    }
  }

  lemma {:induction false} LinesOfJoin(lines: seq<string>)
    requires lines != [] && forall l :: l in lines ==> NewlineFree(l)
    ensures Lines(Join(lines)) == lines
  {
    var front, last := lines[..|lines| - 1], lines[|lines| - 1];
    assert lines == front + [last];
    OneLineText(last);
    if |lines| > 1 {
      LinesOfJoin(front);
      LinesInTwo(Join(front), '\n', last);
      assert "\n" == ['\n'];
    }
  }

  /** Parsing two documents one after the other, as texts. */
  lemma ParseTextsInTwo(a: string, b: string)
    requires BeginsWithItem(Lines(b))
    ensures ParseLines(Lines(a + "\n" + b)) ==
      if ParseLines(Lines(a)).None? || ParseLines(Lines(b)).None? then None
      else Some(ParseLines(Lines(a)).value + ParseLines(Lines(b)).value)
  {
    LinesInTwo(a, '\n', b);
    assert "\n" == ['\n'];
    ParseInTwo(Lines(a), Lines(b));
  }

  // ---------------------------------------------------------------- one printed line

  lemma EntryIsTrimmed(p: Pair)
    requires FirstKey(p.key) && Writable(p)
    ensures Trimmed(Entry(p)) && Entry(p) != "" && ':' in Entry(p)
  {
    var e, w := Entry(p), Written(p);
    assert e[|p.key|] == ':';
    if w != "" {
      assert e[|e| - 1] == w[|w| - 1];
    }
  }

  lemma {:induction false} ColonAfterKey(key: string, rest: string)
    requires ':' !in key
    ensures ColonAt(key + ":" + rest) == |key|
  {
    if key == "" {
      assert (key + ":" + rest)[0] == ':';
    } else {
      assert (key + ":" + rest)[1..] == key[1..] + ":" + rest;
      ColonAfterKey(key[1..], rest);
    }
  }

  /** Either kind of quotes is taken off a value together with the blanks around them. */
  lemma QuotedIsStripped(value: string, quote: char)
    requires quote == '"' || quote == '\''
    ensures
      var quoted := [quote] + value + [quote];
      Strip(" " + quoted) == quoted && Unquote(quoted) == value
  {
    var quoted := [quote] + value + [quote];
    assert quoted[0] == quote && quoted[|quoted| - 1] == quote;
    assert (" " + quoted)[1..] == quoted;
    assert StripLeft(" " + quoted) == StripLeft(quoted) == quoted;
    assert quoted[1..|quoted| - 1] == value;
  }

  /** A value that neither kind of quotes encloses is kept as it is. */
  lemma PlainIsKept(value: string)
    requires Trimmed(value) && !Enclosed(value, '"') && !Enclosed(value, '\'')
    ensures Strip(" " + value) == value && Unquote(value) == value
  {
    assert " " + value == " " + value + "";
    StripTakesBlanks(" ", value, "");
  }

  /** Quotes that enclose a value are taken off it, and nothing else is: a quote at one end alone stays. Of a value
      that is a single quote nothing is left, since it both begins and ends with it. */
  lemma UnquoteIs(value: string)
    ensures |value| < 2 ==> Unquote(value) == if value == "\"" || value == "'" then "" else value
    ensures |value| > 1 ==>
      var inner := value[1..|value| - 1];
      Unquote(value) == if value == "\"" + inner + "\"" || value == "'" + inner + "'" then inner else value
  {
    var inner := if |value| > 1 then value[1..|value| - 1] else "";
    assert |value| > 1 ==> value == [value[0]] + inner + [value[|value| - 1]];
    assert forall q: char :: value == [q] + inner + [q] ==> value[0] == q && value[|value| - 1] == q;
    assert "\"" == ['"'] && "'" == ['\''];
  }

  /** A line splits at its first colon; the blanks around the key and around the value are taken off. */
  lemma LineSplits(left: string, key: string, right: string, a: string, value: string, b: string)
    requires ':' !in key && Trimmed(key) && Blank(left) && Blank(right)
    requires Trimmed(value) && Blank(a) && Blank(b)
    ensures SplitKv(left + key + right + ":" + (a + value + b)) == Some((key, Unquote(value)))
  {
    var front, rest := left + key + right, a + value + b;
    var line := front + ":" + rest;
    ColonAfterKey(front, rest);
    assert line[..|front|] == front && line[|front| + 1..] == rest;
    StripTakesBlanks(left, key, right);
    StripTakesBlanks(a, value, b);
    hide ColonAt, Strip, Unquote;
  }

  /** The same for a key without blanks around it. */
  lemma KeySplits(key: string, a: string, value: string, b: string)
    requires ':' !in key && Trimmed(key) && Blank(a) && Trimmed(value) && Blank(b)
    ensures SplitKv(key + ":" + (a + value + b)) == Some((key, Unquote(value)))
  {
    LineSplits("", key, "", a, value, b);
    assert "" + key + "" == key;
  }

  /** A plain value is read as it stands. */
  lemma PlainSplits(key: string, value: string)
    requires ':' !in key && Trimmed(key) && Trimmed(value) && !Enclosed(value, '"') && !Enclosed(value, '\'')
    ensures SplitKv(key + ": " + value) == Some((key, value))
  {
    KeySplits(key, " ", value, "");
    assert key + ": " + value == key + ":" + (" " + value + "");
    PlainIsKept(value);
  }

  /** The printed entry splits into the key and the value as they were: of a quoted value colons, hashes, quotes and
      outer spaces are preserved, a plain one is kept whole. */
  lemma EntrySplits(p: Pair)
    requires FirstKey(p.key) && Writable(p)
    ensures SplitKv(Entry(p)) == Some((p.key, p.value))
  {
    match p.style {
      case Plain =>
        PlainIsKept(p.value);
        var a := if p.value == "" then "" else " ";
        assert Written(p) == a + p.value + "";
        KeySplits(p.key, a, p.value, "");
      case Quoted(quote) =>
        var quoted := [quote] + p.value + [quote];
        QuotedIsStripped(p.value, quote);
        assert Written(p) == " " + quoted + "";
        assert quoted[0] == quote && quoted[|quoted| - 1] == quote;
        KeySplits(p.key, " ", quoted, "");
    }
  }

  lemma ItemStep(s: State, item: string, kv: (string, string))
    requires item != "" && Trimmed(item) && SplitKv(item) == Some(kv)
    ensures Step(s, "- " + item) == Some(State(Finish(s), Some(map[kv.0 := kv.1])))
  {
    var line := "- " + item;
    assert line[|line| - 1] == item[|item| - 1] && line[0] == '-';
    TrimmedIsKept(line);
    TrimmedIsKept(item);
    assert line[2..] == item && line[..2] == "- ";
    HashOrDash(line);
    hide SplitKv, Strip, Trimmed;
  }

  lemma PairStep(s: State, line: string, kv: (string, string))
    requires Trimmed(line) && ':' in line && !Ignored(line) && !StartsWith(line, "- ") && SplitKv(line) == Some(kv)
    requires s.current.Some?
    ensures Step(s, "  " + line) == Some(s.(current := Some(s.current.value[kv.0 := kv.1])))
  {
    assert "  " + line == "  " + line + "";
    StripTakesBlanks("  ", line, "");
    hide SplitKv, Strip, Trimmed, Ignored, StartsWith;
  }

  /** An opening line starts a new record with its pair. */
  lemma FirstLineRead(s: State, p: Pair)
    requires FirstKey(p.key) && Writable(p)
    ensures Step(s, "- " + Entry(p)) == Some(State(Finish(s), Some(map[p.key := p.value])))
  {
    hide *;
    EntryIsTrimmed(p);
    EntrySplits(p);
    ItemStep(s, Entry(p), (p.key, p.value));
  }

  lemma NotSkipped(p: Pair)
    requires LaterKey(p.key)
    ensures !Ignored(Entry(p)) && !StartsWith(Entry(p), "- ")
  {
    hide Written, Trimmed, NewlineFree;
    var key, e := p.key, Entry(p);
    assert e[|key|] == ':' && e[..|key|] == key;
    HashOrDash(key);
    HashOrDash(e);
    NotHeading(p, "version");
    NotHeading(p, "exceptions");
  }

  lemma HashOrDash(s: string)
    ensures StartsWith(s, "#") <==> s != "" && s[0] == '#'
    ensures StartsWith(s, "- ") <==> |s| >= 2 && s[0] == '-' && s[1] == ' '
  {
  }

  lemma HeadingColon(line: string, heading: string)
    requires ':' !in heading && StartsWith(line, heading + ":")
    ensures line[..ColonAt(line)] == heading
  {
    var rest := line[|heading| + 1..];
    assert line == heading + ":" + rest;
    ColonAfterKey(heading, rest);
  }

  lemma NotHeading(p: Pair, heading: string)
    requires ':' !in p.key && ':' !in heading && p.key != heading
    ensures !StartsWith(Entry(p), heading + ":")
  {
    var e := Entry(p);
    ColonAfterKey(p.key, Written(p));
    assert e[..ColonAt(e)] == p.key;
    if StartsWith(e, heading + ":") { HeadingColon(e, heading); }
  }

  /** A following line adds its pair to the record at hand. */
  lemma LaterLineRead(s: State, p: Pair)
    requires LaterKey(p.key) && Writable(p) && s.current.Some?
    ensures Step(s, "  " + Entry(p)) == Some(s.(current := Some(s.current.value[p.key := p.value])))
  {
    LaterIsFirst(p.key);
    hide *;
    EntryIsTrimmed(p);
    EntrySplits(p);
    NotSkipped(p);
    PairStep(s, Entry(p), (p.key, p.value));
  }

  lemma LaterIsFirst(key: string)
    requires LaterKey(key)
    ensures FirstKey(key)
  {
  }

  // ---------------------------------------------------------------- the round trip

  lemma {:induction false} RecordRead(s: State, r: Pairs)
    requires Printable(r)
    ensures Scan(s, PrintRecord(r)) == Some(State(Finish(s), Some(AsRecord(r))))
    decreases r
  {
    hide Step, Entry, FirstKey, LaterKey;
    var front, last := r[..|r| - 1], r[|r| - 1];
    var line := (if |r| == 1 then "- " else "  ") + Entry(last);
    assert PrintRecord(r)[..|r| - 1] == PrintRecord(front) && PrintRecord(r)[|r| - 1] == line;
    if |r| == 1 {
      FirstLineRead(s, last);
      assert AsRecord(r) == map[last.key := last.value];
    } else {
      RecordRead(s, front);
      LaterLineRead(State(Finish(s), Some(AsRecord(front))), last);
    }
  }

  lemma RecordFinished(done: seq<Record>, r: Pairs)
    requires Printable(r)
    ensures Finish(State(done, Some(AsRecord(r)))) == done + [AsRecord(r)]
  {
    assert r[|r| - 1].key in AsRecord(r);
    hide Printable;
  }

  lemma NoneRead()
    ensures Scan(START, PrintLines([])) == Some(START) && Finish(START) == AsRecords([])
  {
  }

  lemma AsRecordsPlus(rs: seq<Pairs>)
    requires rs != []
    ensures AsRecords(rs) == AsRecords(rs[..|rs| - 1]) + [AsRecord(rs[|rs| - 1])]
  {
    hide *;
    var n := |rs| - 1;
    assert forall i :: 0 <= i < n ==> rs[..n][i] == rs[i];
  }

  lemma PrintLinesPlus(rs: seq<Pairs>)
    requires rs != []
    ensures PrintLines(rs) == PrintLines(rs[..|rs| - 1]) + PrintRecord(rs[|rs| - 1])
  {
  }

  lemma {:induction false} RecordsRead(rs: seq<Pairs>)
    requires forall r :: r in rs ==> Printable(r)
    ensures Scan(START, PrintLines(rs)).Some? && Finish(Scan(START, PrintLines(rs)).value) == AsRecords(rs)
  {
    hide *;
    if rs == [] {
      NoneRead();
    } else {
      var front, last := rs[..|rs| - 1], rs[|rs| - 1];
      RecordsRead(front);
      ScanInTwo(START, PrintLines(front), PrintRecord(last));
      var s := Scan(START, PrintLines(front)).value;
      RecordRead(s, last);
      RecordFinished(Finish(s), last);
      AsRecordsPlus(rs);
      PrintLinesPlus(rs);
    }
  }

  lemma EntryNewlineFree(p: Pair)
    requires FirstKey(p.key) && Writable(p)
    ensures NewlineFree(Entry(p))
  {
    assert NewlineFree(p.key) && NewlineFree(":") && NewlineFree(Written(p));
  }

  lemma {:induction false} PrintedNewlineFree(r: Pairs)
    requires Printable(r)
    ensures forall l :: l in PrintRecord(r) ==> NewlineFree(l)
    decreases r
  {
    var front, last := r[..|r| - 1], r[|r| - 1];
    assert FirstKey(last.key) && Writable(last);
    EntryNewlineFree(last);
    if |r| > 1 { PrintedNewlineFree(front); }
  }

  lemma {:induction false} AllPrintedNewlineFree(rs: seq<Pairs>)
    requires forall r :: r in rs ==> Printable(r)
    ensures forall l :: l in PrintLines(rs) ==> NewlineFree(l)
    ensures rs != [] ==> PrintLines(rs) != []
  {
    if rs != [] {
      AllPrintedNewlineFree(rs[..|rs| - 1]);
      PrintedNewlineFree(rs[|rs| - 1]);
    }
  }

  /** Parsing undoes printing: the same records in the same order, whatever newline-free values they hold. */
  lemma ParseUndoesPrint(rs: seq<Pairs>)
    requires forall r :: r in rs ==> Printable(r)
    ensures ParseLines(Lines(Print(rs))) == Some(AsRecords(rs))
  {
    RecordsRead(rs);
    AllPrintedNewlineFree(rs);
    if rs == [] {
      assert Lines(Print(rs)) == [""];
      assert Scan(START, [""]) == Step(START, "") by { assert [""][..0] == []; }
    } else {
      LinesOfJoin(PrintLines(rs));
    }
  }
}
