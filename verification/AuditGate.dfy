/** The pnpm audit check: the index of exceptions, the findings of a report, and the exit status. */
module AuditGate {
  import opened Collections
  import opened AuditParser

  // ---------------------------------------------------------------- Python values

  /** What json.load returns; a number is known by its truth and its text, an object by its members in order. */
  datatype Json =
    | JNull
    | JBool(b: bool)
    | JNumber(zero: bool, text: string)
    | JString(s: string)
    | JArray(items: seq<Json>)
    | JObject(members: seq<(string, Json)>)

  /** The parts of Python that are taken as given: lower-casing, str() of arrays and objects, and the reading
      of ISO dates as day numbers. */
  datatype Python = Python(lower: string -> string, repr: Json -> string, fromIso: string -> Option<int>)

  predicate Truthy(j: Json) {
    match j
    case JNull => false
    case JBool(b) => b
    case JNumber(zero, _) => !zero
    case JString(s) => s != ""
    case JArray(items) => items != []
    case JObject(members) => members != []
  }

  /** `a or b`. */
  function Or(a: Json, b: Json): Json {
    if Truthy(a) then a else b
  }

  function Str(py: Python, j: Json): string {
    match j
    case JNull => "None"
    case JBool(b) => if b then "True" else "False"
    case JNumber(_, text) => text
    case JString(s) => s
    case JArray(_) | JObject(_) => py.repr(j)
  }

  /** The member with a name, the first of them if there are several. */
  function Lookup(members: seq<(string, Json)>, name: string): (found: Option<Json>)
    ensures found.None? ==> forall i :: 0 <= i < |members| ==> members[i].0 != name
    ensures found.Some? ==> exists i ::
      0 <= i < |members| && members[i] == (name, found.value) && forall k :: 0 <= k < i ==> members[k].0 != name
  {
    if members == [] then None
    else if members[0].0 == name then Some(members[0].1)
    else Lookup(members[1..], name)
  }

  /** `d.get(name, default)`. */
  function Get(members: seq<(string, Json)>, name: string, default: Json): Json {
    match Lookup(members, name) case Some(j) => j case None => default
  }

  // ---------------------------------------------------------------- normalisation

  /** normalize_severity; None when a value that is no string is true, where Python raises an error. */
  function Severity(py: Python, j: Json): Option<string> {
    if !Truthy(j) then Some(py.lower(Strip("")))
    else if j.JString? then Some(py.lower(Strip(j.s)))
    else None
  }

  function Package(py: Python, j: Json): string {
    if j.JNull? then "" else Strip(Str(py, j))
  }

  function Advisory(py: Python, j: Json): string {
    if j.JNull? then "" else py.lower(Strip(Str(py, j)))
  }

  type Key = (string, string)

  /** The values that Python takes for false. */
  lemma FalseValues(j: Json)
    ensures !Truthy(j) <==>
      j in [JNull, JBool(false), JString(""), JArray([]), JObject([])] || (j.JNumber? && j.zero)
  {
  }

  /** Blanks around a text do not count; of a severity and of an advisory the case does not count either, of a
      package it does. */
  lemma NormalisedText(py: Python, a: string, text: string, b: string)
    requires Blank(a) && Trimmed(text) && Blank(b)
    ensures Severity(py, JString(a + text + b)) == Some(py.lower(text))
    ensures Package(py, JString(a + text + b)) == text
    ensures Advisory(py, JString(a + text + b)) == py.lower(text)
  {
    StripTakesBlanks(a, text, b);
  }

  /** A number counts as its text, a missing value as no text; a missing severity is none, and a true one that is no
      string stops the check. */
  lemma NormalisedOther(py: Python, zero: bool, text: string)
    ensures Package(py, JNumber(zero, text)) == Package(py, JString(text))
    ensures Advisory(py, JNumber(zero, text)) == Advisory(py, JString(text))
    ensures Package(py, JNull) == Advisory(py, JNull) == ""
    ensures Severity(py, JNull) == Severity(py, JString(""))
    ensures Severity(py, JNumber(zero, text)) == if zero then Severity(py, JString("")) else None
    ensures Package(py, JBool(true)) == "True" && Package(py, JBool(false)) == "False"
    ensures Advisory(py, JBool(true)) == py.lower("True") && Advisory(py, JBool(false)) == py.lower("False")
  {
  }

  // ---------------------------------------------------------------- the exceptions

  const REQUIRED: seq<string> := ["package", "advisory", "severity", "mitigation", "expires_on"]

  predicate Complete(exc: Record) {
    forall f :: f in REQUIRED ==> f in exc && exc[f] != ""
  }

  function Field(exc: Record, name: string): string {
    if name in exc then exc[name] else ""
  }

  function KeyOf(py: Python, exc: Record): Key {
    (Package(py, JString(Field(exc, "package"))), Advisory(py, JString(Field(exc, "advisory"))))
  }

  datatype Entry = Entry(severity: string, expires: int)

  /** What an exception puts in the index; None unless it is complete, dated, and has a package and an
      advisory to go by. */
  function Slot(py: Python, exc: Record): Option<(Key, Entry)> {
    var key := KeyOf(py, exc);
    if !Complete(exc) then None
    else
      match py.fromIso(Field(exc, "expires_on"))
      case None => None
      case Some(day) =>
        if key.0 == "" || key.1 == "" then None else Some((key, Entry(py.lower(Strip(Field(exc, "severity"))), day)))
  }

  function Slots(py: Python, excs: seq<Record>): (slots: seq<Option<(Key, Entry)>>)
    ensures |slots| == |excs| && forall i :: 0 <= i < |excs| ==> slots[i] == Slot(py, excs[i])
  {
    seq(|excs|, i requires 0 <= i < |excs| => Slot(py, excs[i]))
  }

  /** The index and the number of exceptions refused: of two with one key, the earlier gets in. */
  datatype Indexing = Indexing(index: map<Key, Entry>, refused: nat)

  function Take(x: Indexing, slot: Option<(Key, Entry)>): Indexing {
    if slot.None? || slot.value.0 in x.index then x.(refused := x.refused + 1)
    else x.(index := x.index[slot.value.0 := slot.value.1])
  }

  function IndexOf(slots: seq<Option<(Key, Entry)>>): Indexing {
    if slots == [] then Indexing(map[], 0) else Take(IndexOf(slots[..|slots| - 1]), slots[|slots| - 1])
  }

  /** An exception that can be used: its five fields are filled in, its date can be read, and its package and its
      advisory are more than blanks. */
  ghost predicate Usable(py: Python, exc: Record) {
    && "package" in exc && exc["package"] != "" && "advisory" in exc && exc["advisory"] != ""
    && "severity" in exc && exc["severity"] != "" && "mitigation" in exc && exc["mitigation"] != ""
    && "expires_on" in exc && exc["expires_on"] != "" && py.fromIso(exc["expires_on"]).Some?
    && Package(py, JString(exc["package"])) != "" && Advisory(py, JString(exc["advisory"])) != ""
  }

  ghost predicate IsFor(py: Python, exc: Record, package: string, advisory: string) {
    && "package" in exc && Package(py, JString(exc["package"])) == package
    && "advisory" in exc && Advisory(py, JString(exc["advisory"])) == advisory
  }

  /** The severity and the date of an exception, as the index holds them. */
  ghost predicate Holds(py: Python, exc: Record, entry: Entry) {
    && "severity" in exc && Severity(py, JString(exc["severity"])) == Some(entry.severity)
    && "expires_on" in exc && py.fromIso(exc["expires_on"]) == Some(entry.expires)
  }

  lemma SlotIs(py: Python, exc: Record)
    ensures Slot(py, exc).Some? <==> Usable(py, exc)
    ensures Slot(py, exc).Some? ==>
      var slot := Slot(py, exc).value;
      IsFor(py, exc, slot.0.0, slot.0.1) && Holds(py, exc, slot.1)
  {
    CompleteIs(exc);
    hide Strip, Complete, REQUIRED;
  }

  lemma CompleteIs(exc: Record)
    ensures Complete(exc) <==>
      && "package" in exc && exc["package"] != "" && "advisory" in exc && exc["advisory"] != ""
      && "severity" in exc && exc["severity"] != "" && "mitigation" in exc && exc["mitigation"] != ""
      && "expires_on" in exc && exc["expires_on"] != ""
  {
    assert "package" in REQUIRED && "advisory" in REQUIRED && "severity" in REQUIRED && "mitigation" in REQUIRED &&
      "expires_on" in REQUIRED;
  }

  /** Every entry of the index is that of an exception with its key. */
  lemma IndexHolds(py: Python, excs: seq<Record>)
    ensures
      var index := IndexOf(Slots(py, excs)).index;
      forall k :: k in index ==>
        exists exc :: exc in excs && Usable(py, exc) && IsFor(py, exc, k.0, k.1) && Holds(py, exc, index[k])
  {
    var slots := Slots(py, excs);
    var index := IndexOf(slots).index;
    hide Slot, IndexOf, Usable, IsFor, Holds;
    forall k | k in index
      ensures exists exc :: exc in excs && Usable(py, exc) && IsFor(py, exc, k.0, k.1) && Holds(py, exc, index[k])
    {
      var i := FirstSlot(slots, k);
      FirstIsIndexed(slots, i);
      SlotIs(py, excs[i]);
      assert excs[i] in excs;
    }
  }

  lemma FirstSlot(slots: seq<Option<(Key, Entry)>>, k: Key) returns (i: nat)
    requires k in IndexOf(slots).index
    ensures i < |slots| && slots[i].Some? && slots[i].value.0 == k
    ensures forall j :: 0 <= j < i && slots[j].Some? ==> slots[j].value.0 != k
  {
    IndexedKeys(slots);
    hide IndexOf;
    i := 0;
    while !(slots[i].Some? && slots[i].value.0 == k)
      invariant i < |slots|
      invariant forall j :: 0 <= j < i && slots[j].Some? ==> slots[j].value.0 != k
      decreases |slots| - i
    {
      i := i + 1;
    }
  }

  /** All exceptions can be used, and no two have the same key. */
  ghost predicate Distinct(py: Python, excs: seq<Record>) {
    && (forall exc :: exc in excs ==> Usable(py, exc))
    && forall i, j :: 0 <= i < j < |excs| ==> !SameKey(py, excs[i], excs[j])
  }

  ghost predicate SameKey(py: Python, a: Record, b: Record) {
    exists package, advisory :: IsFor(py, a, package, advisory) && IsFor(py, b, package, advisory)
  }

  lemma DistinctIs(py: Python, excs: seq<Record>)
    ensures Distinct(py, excs) <==> AllDistinct(Slots(py, excs))
  {
    forall i | 0 <= i < |excs|
      ensures Usable(py, excs[i]) <==> Slot(py, excs[i]).Some?
      ensures excs[i] in excs
    {
      SlotIs(py, excs[i]);
    }
    forall i, j | 0 <= i < j < |excs| && Slot(py, excs[i]).Some? && Slot(py, excs[j]).Some?
      ensures SameKey(py, excs[i], excs[j]) <==> Slot(py, excs[i]).value.0 == Slot(py, excs[j]).value.0
    {
      SlotIs(py, excs[i]);
      SlotIs(py, excs[j]);
      KeyOnce(py, excs[i]);
      KeyOnce(py, excs[j]);
      hide Slot, IsFor;
    }
    hide Slot, Usable, SameKey;
  }

  lemma KeyOnce(py: Python, exc: Record)
    ensures forall p, a, q, b :: IsFor(py, exc, p, a) && IsFor(py, exc, q, b) ==> p == q && a == b
  {
  }

  /** Builds the index, and counts the exceptions that are reported instead. */
  method IndexExceptions(py: Python, excs: seq<Record>) returns (index: map<Key, Entry>, errors: nat)
    ensures Indexing(index, errors) == IndexOf(Slots(py, excs))
    ensures errors == 0 <==> Distinct(py, excs)
    ensures forall k :: k in index ==>
      exists exc :: exc in excs && Usable(py, exc) && IsFor(py, exc, k.0, k.1) && Holds(py, exc, index[k])
  {
    NoneRefusedIff(Slots(py, excs));
    DistinctIs(py, excs);
    IndexHolds(py, excs);
    hide Distinct, Usable, IsFor, Holds;
    hide Complete, Strip, Package, Advisory;
    index, errors := map[], 0;
    ghost var slots := Slots(py, excs);
    for n := 0 to |excs|
      invariant Indexing(index, errors) == IndexOf(slots[..n])
    {
      assert slots[..n + 1][..n] == slots[..n];
      var exc := excs[n];
      if !Complete(exc) {
        errors := errors + 1;
        continue;
      }
      var day := py.fromIso(Field(exc, "expires_on"));
      if day.None? {
        errors := errors + 1;
        continue;
      }
      var key := KeyOf(py, exc);
      if key.0 == "" || key.1 == "" {
        errors := errors + 1;
        continue;
      }
      if key in index {
        errors := errors + 1;
        continue;
      }
      index := index[key := Entry(py.lower(Strip(Field(exc, "severity"))), day.value)];
    }
    assert slots[..|excs|] == slots;
  }

  /** All exceptions are usable and no two have the same key. */
  ghost predicate AllDistinct(slots: seq<Option<(Key, Entry)>>) {
    && (forall i :: 0 <= i < |slots| ==> slots[i].Some?)
    && forall i, j :: 0 <= i < j < |slots| ==> slots[i].value.0 != slots[j].value.0
  }

  lemma {:induction false} IndexedKeys(slots: seq<Option<(Key, Entry)>>)
    ensures forall k :: k in IndexOf(slots).index <==>
        exists i :: 0 <= i < |slots| && slots[i].Some? && slots[i].value.0 == k
  {
    if slots != [] {
      var front, last := slots[..|slots| - 1], slots[|slots| - 1];
      IndexedKeys(front);
      forall k
        ensures k in IndexOf(slots).index <==> exists i :: 0 <= i < |slots| && slots[i].Some? && slots[i].value.0 == k
      {
        if k in IndexOf(front).index {
          var i :| 0 <= i < |front| && front[i].Some? && front[i].value.0 == k;
          assert slots[i] == front[i];
        }
        if i :| 0 <= i < |slots| && slots[i].Some? && slots[i].value.0 == k {
          if i < |front| { assert front[i] == slots[i]; }
        }
        if last.Some? && last.value.0 == k { assert slots[|slots| - 1] == last; }
      }
    }
  }

  /** The first exception with a key is the one the index holds. */
  lemma {:induction false} FirstIsIndexed(slots: seq<Option<(Key, Entry)>>, i: nat)
    requires i < |slots| && slots[i].Some?
    requires forall j :: 0 <= j < i && slots[j].Some? ==> slots[j].value.0 != slots[i].value.0
    ensures slots[i].value.0 in IndexOf(slots).index && IndexOf(slots).index[slots[i].value.0] == slots[i].value.1
    decreases |slots|
  {
    var front := slots[..|slots| - 1];
    if i < |front| {
      FirstIsIndexed(front, i);
    } else {
      IndexedKeys(front);
    }
  }

  /** Nothing is refused exactly when all exceptions are usable and their keys distinct. */
  lemma {:induction false} NoneRefusedIff(slots: seq<Option<(Key, Entry)>>)
    ensures IndexOf(slots).refused == 0 <==> AllDistinct(slots)
  {
    if slots != [] {
      var front, last := slots[..|slots| - 1], slots[|slots| - 1];
      NoneRefusedIff(front);
      IndexedKeys(front);
      if AllDistinct(slots) {
        assert AllDistinct(front);
        assert last.value.0 !in IndexOf(front).index;
      }
      if IndexOf(slots).refused == 0 {
        assert AllDistinct(front) && last.Some?;
        forall i | 0 <= i < |front|
          ensures slots[i].value.0 != last.value.0
        {
          assert front[i] == slots[i];
        }
      }
    }
  }
}
