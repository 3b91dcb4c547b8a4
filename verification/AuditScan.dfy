/** The scan of the findings against the index, and the exit status of the check. */
module AuditScan {
  import opened Collections
  import opened AuditParser
  import opened AuditGate
  import opened AuditReport

  predicate High(severity: string) {
    severity == "high" || severity == "critical"
  }

  /** A finding that counts: high or critical, and named. */
  predicate Relevant(py: Python, f: Finding) {
    Severity(py, f.severity).Some? && High(Severity(py, f.severity).value) && Truthy(f.name)
  }

  function FindingKey(py: Python, f: Finding): Key {
    (Package(py, f.name), Advisory(py, f.advisory))
  }

  /** A finding that is looked up in the index. */
  predicate Keyed(py: Python, f: Finding) {
    Relevant(py, f) && FindingKey(py, f).1 != ""
  }

  predicate Missing(py: Python, index: map<Key, Entry>, f: Finding) {
    FindingKey(py, f) !in index
  }

  predicate Expired(py: Python, index: map<Key, Entry>, today: int, f: Finding) {
    FindingKey(py, f) in index && index[FindingKey(py, f)].expires < today
  }

  predicate Mismatched(py: Python, index: map<Key, Entry>, f: Finding) {
    && FindingKey(py, f) in index
    && index[FindingKey(py, f)].severity != ""
    && Some(index[FindingKey(py, f)].severity) != Severity(py, f.severity)
  }

  /** The keys of the findings that are looked up. */
  function KeysSeen(py: Python, fs: seq<Finding>): set<Key> {
    set f | f in fs && Keyed(py, f) :: FindingKey(py, f)
  }

  /** The looked-up findings with repetitions of a key left out: the first occurrences, in order. */
  function Firsts(py: Python, fs: seq<Finding>): (firsts: seq<Finding>)
    ensures forall f :: f in firsts ==> f in fs && Keyed(py, f)
  {
    if fs == [] then []
    else
      var front, last := fs[..|fs| - 1], fs[|fs| - 1];
      assert fs == front + [last];
      Firsts(py, front) + if Keyed(py, last) && FindingKey(py, last) !in KeysSeen(py, front) then [last] else []
  }

  function Nameless(py: Python): Finding -> bool {
    f => Relevant(py, f) && FindingKey(py, f).1 == ""
  }

  function MissingFrom(py: Python, index: map<Key, Entry>): Finding -> bool {
    f => Missing(py, index, f)
  }

  function MismatchedIn(py: Python, index: map<Key, Entry>): Finding -> bool {
    f => Mismatched(py, index, f)
  }

  function ExpiredIn(py: Python, index: map<Key, Entry>, today: int): Finding -> bool {
    f => Expired(py, index, today, f)
  }

  function Unidentified(py: Python, fs: seq<Finding>): seq<Finding> {
    Filter(fs, Nameless(py))
  }

  /** What the scan reports. */
  datatype Reports = Reports(unidentified: nat, missing: seq<Finding>, mismatched: nat, expired: seq<Finding>)

  function ReportsOf(py: Python, index: map<Key, Entry>, today: int, fs: seq<Finding>): Reports {
    Reports(
      |Unidentified(py, fs)|,
      Filter(Firsts(py, fs), MissingFrom(py, index)),
      |Filter(Firsts(py, fs), MismatchedIn(py, index))|,
      Filter(Firsts(py, fs), ExpiredIn(py, index, today)))
  }

  predicate Readable(py: Python, fs: seq<Finding>) {
    forall f :: f in fs ==> Severity(py, f.severity).Some?
  }

  lemma SeenOneMore(py: Python, fs: seq<Finding>, i: nat)
    requires i < |fs|
    ensures fs[..i + 1][..i] == fs[..i] && fs[..i + 1][i] == fs[i]
    ensures KeysSeen(py, fs[..i + 1]) ==
            KeysSeen(py, fs[..i]) + if Keyed(py, fs[i]) then {FindingKey(py, fs[i])} else {}
  {
    hide Keyed, FindingKey;
    assert fs[..i + 1] == fs[..i] + [fs[i]];
    forall k
      ensures k in KeysSeen(py, fs[..i + 1]) <==>
        k in KeysSeen(py, fs[..i]) || (Keyed(py, fs[i]) && k == FindingKey(py, fs[i]))
    {
      KeysSeenAre(py, fs[..i + 1], k);
      KeysSeenAre(py, fs[..i], k);
      hide KeysSeen;
    }
  }

  lemma KeysSeenAre(py: Python, fs: seq<Finding>, k: Key)
    ensures k in KeysSeen(py, fs) <==> exists f :: f in fs && Keyed(py, f) && FindingKey(py, f) == k
  {
    hide Keyed, FindingKey;
  }

  lemma FirstsStep(py: Python, front: seq<Finding>, last: Finding)
    ensures Firsts(py, front + [last]) ==
            if Keyed(py, last) && FindingKey(py, last) !in KeysSeen(py, front) then Firsts(py, front) + [last]
            else Firsts(py, front)
  {
    hide Keyed, FindingKey, KeysSeen;
    assert (front + [last])[..|front|] == front;
  }

  lemma ReportsOneMore(py: Python, index: map<Key, Entry>, today: int, fs: seq<Finding>, i: nat)
    requires i < |fs|
    ensures
      var f, r := fs[i], ReportsOf(py, index, today, fs[..i]);
      var first := Keyed(py, f) && FindingKey(py, f) !in KeysSeen(py, fs[..i]);
      ReportsOf(py, index, today, fs[..i + 1]) == Reports(
        r.unidentified + (if Relevant(py, f) && FindingKey(py, f).1 == "" then 1 else 0),
        if first && Missing(py, index, f) then r.missing + [f] else r.missing,
        r.mismatched + (if first && Mismatched(py, index, f) then 1 else 0),
        if first && Expired(py, index, today, f) then r.expired + [f] else r.expired)
  {
    var front, f := fs[..i], fs[i];
    var firsts := Firsts(py, front);
    assert fs[..i + 1] == front + [f];
    AppliedTo(py, index, today, f);
    FirstsStep(py, front, f);
    ReportsParts(py, index, today, front);
    ReportsParts(py, index, today, front + [f]);
    hide *;
    FilterOneMore(front, f, Nameless(py));
    FilterOneMore(firsts, f, MissingFrom(py, index));
    FilterOneMore(firsts, f, MismatchedIn(py, index));
    FilterOneMore(firsts, f, ExpiredIn(py, index, today));
  }

  lemma AppliedTo(py: Python, index: map<Key, Entry>, today: int, f: Finding)
    ensures Nameless(py)(f) == (Relevant(py, f) && FindingKey(py, f).1 == "")
    ensures MissingFrom(py, index)(f) == Missing(py, index, f)
    ensures MismatchedIn(py, index)(f) == Mismatched(py, index, f)
    ensures ExpiredIn(py, index, today)(f) == Expired(py, index, today, f)
  {
    hide FindingKey, Missing, Mismatched, Expired, Relevant;
  }

  lemma ReportsParts(py: Python, index: map<Key, Entry>, today: int, fs: seq<Finding>)
    ensures ReportsOf(py, index, today, fs) == Reports(
      |Filter(fs, Nameless(py))|,
      Filter(Firsts(py, fs), MissingFrom(py, index)),
      |Filter(Firsts(py, fs), MismatchedIn(py, index))|,
      Filter(Firsts(py, fs), ExpiredIn(py, index, today)))
  {
  }

  /** Looks every finding up once; None where a severity cannot be normalised. */
  method Scan(py: Python, index: map<Key, Entry>, today: int, fs: seq<Finding>) returns (r: Option<Reports>)
    ensures r == if Readable(py, fs) then Some(ReportsOf(py, index, today, fs)) else None
  {
    hide ReportsOf, Severity, Package, Advisory, Truthy, KeysSeen;
    var unidentified: nat, missing: seq<Finding>, mismatched: nat, expired: seq<Finding> := 0, [], 0, [];
    var seen: set<Key> := {};
    NothingReported(py, index, today, fs);
    for i := 0 to |fs|
      invariant Readable(py, fs[..i])
      invariant seen == KeysSeen(py, fs[..i])
      invariant Reports(unidentified, missing, mismatched, expired) == ReportsOf(py, index, today, fs[..i])
    {
      var f := fs[i];
      SeenOneMore(py, fs, i);
      ReportsOneMore(py, index, today, fs, i);
      assert fs[..i + 1] == fs[..i] + [f];
      var sev := Severity(py, f.severity);
      if sev.None? {
        assert f in fs;
        return None;
      }
      if !High(sev.value) || !Truthy(f.name) {
        continue;
      }
      var key := FindingKey(py, f);
      if key.1 == "" {
        unidentified := unidentified + 1;
        continue;
      }
      if key in seen {
        continue;
      }
      seen := seen + {key};
      if key !in index {
        missing := missing + [f];
        continue;
      }
      if index[key].severity != "" && index[key].severity != sev.value {
        mismatched := mismatched + 1;
      }
      if index[key].expires < today {
        expired := expired + [f];
      }
    }
    assert fs[..|fs|] == fs;
    r := Some(Reports(unidentified, missing, mismatched, expired));
  }

  lemma NothingReported(py: Python, index: map<Key, Entry>, today: int, fs: seq<Finding>)
    ensures KeysSeen(py, fs[..0]) == {} && ReportsOf(py, index, today, fs[..0]) == Reports(0, [], 0, [])
  {
  }

  // ---------------------------------------------------------------- what leaving out repetitions loses

  /** Every key that is looked up has exactly one first occurrence, and the first occurrences come in order. */
  lemma {:induction false} OneFirstPerKey(py: Python, fs: seq<Finding>)
    ensures forall i, j :: 0 <= i < j < |Firsts(py, fs)| ==>
        FindingKey(py, Firsts(py, fs)[i]) != FindingKey(py, Firsts(py, fs)[j])
    ensures forall k :: k in KeysSeen(py, fs) <==> exists f :: f in Firsts(py, fs) && FindingKey(py, f) == k
  {
    hide Keyed, FindingKey;
    if fs != [] {
      var front, last := fs[..|fs| - 1], fs[|fs| - 1];
      OneFirstPerKey(py, front);
      SeenOneMore(py, fs, |fs| - 1);
      assert fs[..|fs|] == fs;
      hide KeysSeen;
      forall i | 0 <= i < |Firsts(py, front)|
        ensures FindingKey(py, Firsts(py, front)[i]) in KeysSeen(py, front)
      {
        assert Firsts(py, front)[i] in Firsts(py, front);
      }
      if Keyed(py, last) && FindingKey(py, last) !in KeysSeen(py, front) {
        assert last in Firsts(py, fs);
      }
      forall f | f in Firsts(py, front)
        ensures f in Firsts(py, fs)
      {
      }
    }
  }

  /** An advisory that a report carries in both layouts is looked up under one key, so once. */
  lemma BothLayoutsOneKey(py: Python, m: Members, name: string, severity: Json)
    requires Truthy(At(m, "github_advisory_id")) || Truthy(At(m, "url"))
    requires Or(At(m, "module_name"), At(m, "name")) == JString(name)
    ensures
      var a, v := AdvisoryFinding(py, JObject(m)), Finding(JString(name), severity, ViaItem(JObject(m)).value.0);
      a.Some? && FindingKey(py, a.value) == FindingKey(py, v)
  {
    LayoutsIdentifyAlike(py, m);
    hide PickAdvisoryId, ViaItem;
  }

  /** The place of the first looked-up finding with a key. */
  function FirstWith(py: Python, fs: seq<Finding>, k: Key): (i: nat)
    ensures i <= |fs|
    ensures i < |fs| ==> Keyed(py, fs[i]) && FindingKey(py, fs[i]) == k
    ensures forall j :: 0 <= j < i ==> !(Keyed(py, fs[j]) && FindingKey(py, fs[j]) == k)
  {
    if fs == [] || (Keyed(py, fs[0]) && FindingKey(py, fs[0]) == k) then 0 else 1 + FirstWith(py, fs[1..], k)
  }

  lemma {:induction false} FirstsAreFirst(py: Python, fs: seq<Finding>)
    ensures forall f :: f in Firsts(py, fs) ==>
      FirstWith(py, fs, FindingKey(py, f)) < |fs| && fs[FirstWith(py, fs, FindingKey(py, f))] == f
    ensures forall k :: FirstWith(py, fs, k) < |fs| ==> fs[FirstWith(py, fs, k)] in Firsts(py, fs)
  {
    if fs == [] {
    } else {
      var n := |fs| - 1;
      var front, last := fs[..n], fs[n];
      FirstsAreFirst(py, front);
      assert fs == front + [last];
      FirstsStep(py, front, last);
      hide Keyed, FindingKey, Firsts, FirstWith, KeysSeen;
      forall f | f in Firsts(py, fs)
        ensures FirstWith(py, fs, FindingKey(py, f)) < |fs| && fs[FirstWith(py, fs, FindingKey(py, f))] == f
      {
        FirstInFront(py, fs, n, FindingKey(py, f));
      }
      forall k | FirstWith(py, fs, k) < |fs|
        ensures fs[FirstWith(py, fs, k)] in Firsts(py, fs)
      {
        FirstInFront(py, fs, n, k);
      }
    }
  }

  lemma FirstInFront(py: Python, fs: seq<Finding>, n: nat, k: Key)
    requires n < |fs|
    ensures
      var front, last := fs[..n], fs[n];
      && (FirstWith(py, front, k) < n ==> FirstWith(py, fs, k) == FirstWith(py, front, k))
      && (FirstWith(py, front, k) == n <==> k !in KeysSeen(py, front))
      && (FirstWith(py, front, k) == n && Keyed(py, last) && FindingKey(py, last) == k ==> FirstWith(py, fs, k) == n)
      && (FirstWith(py, fs, k) < n ==> FirstWith(py, front, k) < n)
  {
    hide Keyed, FindingKey;
    var front := fs[..n];
    var a, b := FirstWith(py, front, k), FirstWith(py, fs, k);
    assert forall j :: 0 <= j < n ==> front[j] == fs[j];
    if a < n {
      assert Keyed(py, fs[a]) && FindingKey(py, fs[a]) == k && front[a] in front;
    }
    if k in KeysSeen(py, front) {
      var f :| f in front && Keyed(py, f) && FindingKey(py, f) == k;
      var j :| 0 <= j < n && front[j] == f;
      assert a <= j;
    }
    assert b < n ==> front[b] == fs[b];
  }

  function Rank(py: Python, fs: seq<Finding>): Finding -> int {
    f => FirstWith(py, fs, FindingKey(py, f))
  }

  lemma {:induction false} FirstsInOrder(py: Python, fs: seq<Finding>)
    ensures Ascending(Firsts(py, fs), Rank(py, fs))
  {
    if fs == [] {
    } else {
      var n := |fs| - 1;
      var front, last := fs[..n], fs[n];
      assert fs == front + [last];
      FirstsInOrder(py, front);
      FirstsAreFirst(py, front);
      FirstsStep(py, front, last);
      hide Keyed, FindingKey, Firsts, FirstWith, KeysSeen, Ascending;
      forall f | f in Firsts(py, front)
        ensures Rank(py, fs)(f) == Rank(py, front)(f) < n
      {
        FirstInFront(py, fs, n, FindingKey(py, f));
      }
      FirstInFront(py, fs, n, FindingKey(py, last));
      AscendingPlus(Firsts(py, front), last, Rank(py, front), Rank(py, fs));
    }
  }

  ghost predicate Lists(py: Python, fs: seq<Finding>, listed: seq<Finding>, offends: Finding -> bool) {
    && (forall f :: f in listed ==> f in fs && Keyed(py, f) && offends(f))
    && (forall f :: f in fs && Keyed(py, f) && offends(f) ==>
      exists g :: g in listed && FindingKey(py, g) == FindingKey(py, f))
    && (forall i, j :: 0 <= i < j < |listed| ==> FindingKey(py, listed[i]) != FindingKey(py, listed[j]))
    && Ascending(listed, Rank(py, fs))
  }

  lemma ListedOnce(py: Python, fs: seq<Finding>, offends: Finding -> bool)
    requires forall f, g :: FindingKey(py, f) == FindingKey(py, g) ==> offends(f) == offends(g)
    ensures Lists(py, fs, Filter(Firsts(py, fs), offends), offends)
  {
    hide Keyed, FindingKey, Firsts, FirstWith;
    var listed := Filter(Firsts(py, fs), offends);
    var rank := Rank(py, fs);
    FirstsInOrder(py, fs);
    FilterKeepsAscending(Firsts(py, fs), offends, rank);
    OneFirstPerKey(py, fs);
    forall f | f in fs && Keyed(py, f) && offends(f)
      ensures exists g :: g in listed && FindingKey(py, g) == FindingKey(py, f)
    {
      assert FindingKey(py, f) in KeysSeen(py, fs);
      var g :| g in Firsts(py, fs) && FindingKey(py, g) == FindingKey(py, f);
      assert g in listed;
    }
    forall i, j | 0 <= i < j < |listed|
      ensures FindingKey(py, listed[i]) != FindingKey(py, listed[j])
    {
      assert rank(listed[i]) < rank(listed[j]);
    }
  }

  /** Leaving out repetitions loses no missing and no expired finding: each list has exactly one entry per
      offending key, in the order of first occurrence. */
  lemma RepetitionsLoseNothing(py: Python, index: map<Key, Entry>, today: int, fs: seq<Finding>)
    ensures
      var r := ReportsOf(py, index, today, fs);
      && Lists(py, fs, r.missing, MissingFrom(py, index))
      && Lists(py, fs, r.expired, ExpiredIn(py, index, today))
  {
    hide Lists, Firsts, FindingKey;
    ListedOnce(py, fs, MissingFrom(py, index));
    ListedOnce(py, fs, ExpiredIn(py, index, today));
  }

  lemma EveryFirst(py: Python, fs: seq<Finding>, f: Finding)
    requires f in fs && Keyed(py, f)
    ensures FirstWith(py, fs, FindingKey(py, f)) < |fs|
    ensures fs[FirstWith(py, fs, FindingKey(py, f))] in Firsts(py, fs)
  {
    hide Keyed, FindingKey;
    var i :| 0 <= i < |fs| && fs[i] == f;
    FirstsAreFirst(py, fs);
  }

  /** A severity that does not match its exception goes unreported exactly when the finding repeats a key whose
      first occurrence does match: a repetition is not compared. */
  lemma MismatchIsLostIff(py: Python, index: map<Key, Entry>, fs: seq<Finding>, f: Finding)
    requires f in fs && Keyed(py, f) && Mismatched(py, index, f)
    ensures
      var first := FirstWith(py, fs, FindingKey(py, f));
      && first < |fs|
      && ((forall g :: g in Firsts(py, fs) && FindingKey(py, g) == FindingKey(py, f) ==> !Mismatched(py, index, g)) <==>
          Severity(py, fs[first].severity) == Some(index[FindingKey(py, f)].severity))
  {
    EveryFirst(py, fs, f);
    FirstsAreFirst(py, fs);
    hide Keyed, FindingKey, Firsts, FirstWith, Severity;
  }

  lemma TwoFindings(py: Python, f: Finding, g: Finding)
    requires Keyed(py, f) && Keyed(py, g) && FindingKey(py, f) == FindingKey(py, g)
    ensures Firsts(py, [f, g]) == [f]
  {
    hide Keyed, FindingKey;
    assert [f, g][..1] == [f] && [f][..0] == [];
    assert Firsts(py, [f]) == [f];
    assert FindingKey(py, f) in KeysSeen(py, [f]);
  }

  /** So the order in which two findings with one key come decides whether the mismatch of one is reported. */
  lemma OrderDecides(py: Python, index: map<Key, Entry>, today: int, f: Finding, g: Finding)
    requires Keyed(py, f) && Keyed(py, g) && FindingKey(py, f) == FindingKey(py, g) && FindingKey(py, f) in index
    requires !Mismatched(py, index, f) && Mismatched(py, index, g)
    ensures ReportsOf(py, index, today, [f, g]).mismatched == 0
    ensures ReportsOf(py, index, today, [g, f]).mismatched == 1
  {
    TwoFindings(py, f, g);
    TwoFindings(py, g, f);
    hide Keyed, FindingKey, Firsts, Mismatched;
    assert [f] == [] + [f] && [g] == [] + [g];
    FilterOneMore([], f, MismatchedIn(py, index));
    FilterOneMore([], g, MismatchedIn(py, index));
  }

  /** A Python that is given lower-case text alone. */
  function Lowercase(): Python {
    Python((s: string) => s, (j: Json) => "", (s: string) => None)
  }

  lemma WordsStay()
    ensures forall w :: w in ["p", "a", "high", "critical"] ==> Strip(w) == w && Lowercase().lower(w) == w
  {
  }

  lemma OfOnePackage(severity: string, index: map<Key, Entry>, today: int)
    requires severity in ["high", "critical"] && index == map[("p", "a") := Entry("high", today)]
    ensures
      var py, f := Lowercase(), Finding(JString("p"), JString(severity), JString("a"));
      && Keyed(py, f) && FindingKey(py, f) == ("p", "a") && FindingKey(py, f) in index
      && (Mismatched(py, index, f) <==> severity == "critical")
  {
    WordsStay();
    hide Strip, Lowercase;
  }

  /** One advisory of a package, found first as high and then as critical, against an exception for high: no
      mismatch is reported; found in the other order, it is. */
  lemma OrderMatters(index: map<Key, Entry>, f: Finding, g: Finding, today: int)
    requires index == map[("p", "a") := Entry("high", today)]
    requires f == Finding(JString("p"), JString("high"), JString("a"))
    requires g == Finding(JString("p"), JString("critical"), JString("a"))
    ensures ReportsOf(Lowercase(), index, today, [f, g]).mismatched == 0
    ensures ReportsOf(Lowercase(), index, today, [g, f]).mismatched == 1
  {
    hide *;
    OfOnePackage("high", index, today);
    OfOnePackage("critical", index, today);
    OrderDecides(Lowercase(), index, today, f, g);
  }

  // ---------------------------------------------------------------- the gate

  datatype Exit = Passed | Refused | Crashed

  /** A severity that is true and no string, which normalize_severity cannot strip. */
  predicate BadSeverity(j: Json) {
    Truthy(j) && !j.JString?
  }

  /** A via item of the entry has a true identifier, so the entry yields a finding. */
  ghost predicate Yields(vuln: Json) {
    vuln.JObject? &&
    match At(vuln.members, "via")
    case JArray(items) => exists item, id :: item in items && Identified(item, id)
    case JString(s) => s != ""
    case _ => false
  }

  /** Every entry of the report can be read, and the severity of every entry that yields a finding too. */
  ghost predicate ReportReads(data: Json) {
    && data.JObject?
    && (forall e :: e in Under(data, "advisories") ==>
          AdvisoryReads(e.1) && !BadSeverity(At(e.1.members, "severity")))
    && (forall e :: e in Under(data, "vulnerabilities") ==>
          VulnerabilityReads(e.1) && (Yields(e.1) ==> !BadSeverity(At(e.1.members, "severity"))))
  }

  /** Python stops with an error: a line of the list starts an item without a colon, or the report cannot be read. */
  ghost predicate Stops(text: string, data: Json) {
    || (exists i :: 0 <= i < |Lines(text)| && Unsplittable(Lines(text)[i]))
    || !ReportReads(data)
  }

  /** Some exception covers a key today, for a finding of the given severity. */
  ghost predicate Covered(slots: seq<Option<(Key, Entry)>>, k: Key, severity: Option<string>, today: int) {
    exists i :: 0 <= i < |slots| && slots[i].Some? && slots[i].value.0 == k && today <= slots[i].value.1.expires &&
      (slots[i].value.1.severity == "" || Some(slots[i].value.1.severity) == severity)
  }

  /** The index accounts for the findings: every relevant one has an advisory, and its key is covered today, for the
      severity with which the key first occurs. */
  ghost predicate IndexAccepts(py: Python, excs: seq<Record>, fs: seq<Finding>, today: int) {
    && AllDistinct(Slots(py, excs))
    && (forall f :: f in fs && Relevant(py, f) ==> FindingKey(py, f).1 != "")
    && (forall f :: f in fs && Keyed(py, f) ==>
          var first := FirstWith(py, fs, FindingKey(py, f));
          first < |fs| && Covered(Slots(py, excs), FindingKey(py, f), Severity(py, fs[first].severity), today))
  }

  /** A finding that counts: named, and high or critical. */
  ghost predicate Grave(py: Python, f: Finding) {
    (Severity(py, f.severity) == Some("high") || Severity(py, f.severity) == Some("critical")) && Truthy(f.name)
  }

  /** An exception excuses a finding: it is for its package and its advisory, has not expired, and has no severity
      or that of the finding. */
  ghost predicate Excuses(py: Python, exc: Record, f: Finding, today: int) {
    && IsFor(py, exc, Package(py, f.name), Advisory(py, f.advisory))
    && "expires_on" in exc && py.fromIso(exc["expires_on"]).Some? && today <= py.fromIso(exc["expires_on"]).value
    && "severity" in exc
    && (Severity(py, JString(exc["severity"])) == Some("") ||
        Severity(py, JString(exc["severity"])) == Severity(py, f.severity))
  }

  /** No earlier grave finding has the package and the advisory of the i-th. */
  ghost predicate FirstGrave(py: Python, fs: seq<Finding>, i: nat)
    requires i < |fs|
  {
    forall k :: 0 <= k < i && Grave(py, fs[k]) ==>
      Package(py, fs[k].name) != Package(py, fs[i].name) || Advisory(py, fs[k].advisory) != Advisory(py, fs[i].advisory)
  }

  /** The exceptions can be used and are for different keys; every grave finding has an advisory; and where a package
      and an advisory occur first, some exception excuses the finding. */
  ghost predicate Accepts(py: Python, excs: seq<Record>, fs: seq<Finding>, today: int) {
    && Distinct(py, excs)
    && (forall i :: 0 <= i < |fs| && Grave(py, fs[i]) ==> Advisory(py, fs[i].advisory) != "")
    && (forall i :: 0 <= i < |fs| && Grave(py, fs[i]) && FirstGrave(py, fs, i) ==>
          exists exc :: exc in excs && Excuses(py, exc, fs[i], today))
  }

  lemma GraveIs(py: Python, f: Finding)
    ensures Grave(py, f) <==> Relevant(py, f)
  {
    hide Severity;
  }

  lemma CoveredByRecord(py: Python, excs: seq<Record>, f: Finding, today: int)
    requires Distinct(py, excs)
    ensures Covered(Slots(py, excs), FindingKey(py, f), Severity(py, f.severity), today) <==>
      exists exc :: exc in excs && Excuses(py, exc, f, today)
  {
    hide Severity, Package, Advisory, Usable, Slot;
    var slots := Slots(py, excs);
    forall i | 0 <= i < |excs|
      ensures excs[i] in excs && slots[i].Some?
      ensures Excuses(py, excs[i], f, today) <==>
        slots[i].value.0 == FindingKey(py, f) && today <= slots[i].value.1.expires &&
        (slots[i].value.1.severity == "" || Some(slots[i].value.1.severity) == Severity(py, f.severity))
    {
      assert excs[i] in excs;
      SlotIs(py, excs[i]);
    }
    hide Excuses, FindingKey;
  }

  lemma FirstIs(py: Python, fs: seq<Finding>, i: nat)
    requires i < |fs| && forall k :: 0 <= k < |fs| && Grave(py, fs[k]) ==> Advisory(py, fs[k].advisory) != ""
    requires Grave(py, fs[i])
    ensures Keyed(py, fs[i]) && (FirstGrave(py, fs, i) <==> FirstWith(py, fs, FindingKey(py, fs[i])) == i)
  {
    forall k | 0 <= k < |fs|
      ensures Grave(py, fs[k]) <==> Keyed(py, fs[k])
    {
      GraveIs(py, fs[k]);
    }
    hide Grave, Keyed, FirstWith, Package, Advisory;
  }

  /** What the scan finds in the index is what can be said of the exceptions themselves. */
  lemma AcceptsIff(py: Python, excs: seq<Record>, fs: seq<Finding>, today: int)
    ensures Accepts(py, excs, fs, today) <==> IndexAccepts(py, excs, fs, today)
  {
    DistinctIs(py, excs);
    forall f
      ensures Grave(py, f) <==> Relevant(py, f)
      ensures FindingKey(py, f).1 == Advisory(py, f.advisory)
    {
      GraveIs(py, f);
    }
    forall f
      ensures Keyed(py, f) <==> Relevant(py, f) && FindingKey(py, f).1 != ""
    {
    }
    assert forall i :: 0 <= i < |fs| ==> fs[i] in fs;
    hide Grave, Relevant, FindingKey, Covered, FirstGrave, FirstWith, Distinct, AllDistinct, Excuses, Keyed, Severity,
         Package, Advisory, Slots;
    if Distinct(py, excs) && forall f :: f in fs && Relevant(py, f) ==> Advisory(py, f.advisory) != "" {
      forall i | 0 <= i < |fs| && Grave(py, fs[i])
        ensures Keyed(py, fs[i]) && (FirstGrave(py, fs, i) <==> FirstWith(py, fs, FindingKey(py, fs[i])) == i)
        ensures Covered(Slots(py, excs), FindingKey(py, fs[i]), Severity(py, fs[i].severity), today) <==>
          exists exc :: exc in excs && Excuses(py, exc, fs[i], today)
      {
        FirstIs(py, fs, i);
        CoveredByRecord(py, excs, fs[i], today);
      }
      FirstsCover(py, excs, fs, today);
    }
  }

  /** To look at the first occurrences of keys is to look at the first occurrence for every finding. */
  lemma FirstsCover(py: Python, excs: seq<Record>, fs: seq<Finding>, today: int)
    ensures
      (forall f :: f in fs && Keyed(py, f) ==>
         var first := FirstWith(py, fs, FindingKey(py, f));
         first < |fs| && Covered(Slots(py, excs), FindingKey(py, f), Severity(py, fs[first].severity), today)) <==>
      (forall i :: 0 <= i < |fs| && Keyed(py, fs[i]) && FirstWith(py, fs, FindingKey(py, fs[i])) == i ==>
         Covered(Slots(py, excs), FindingKey(py, fs[i]), Severity(py, fs[i].severity), today))
  {
    hide Keyed, FindingKey, Covered, Severity, Slots, FirstWith;
    assert forall i :: 0 <= i < |fs| ==> fs[i] in fs;
    forall f | f in fs && Keyed(py, f)
      ensures
        var first := FirstWith(py, fs, FindingKey(py, f));
        && first < |fs| && Keyed(py, fs[first]) && FindingKey(py, fs[first]) == FindingKey(py, f)
    {
      EveryFirst(py, fs, f);
    }
  }

  lemma CoveredIff(slots: seq<Option<(Key, Entry)>>, k: Key, severity: Option<string>, today: int)
    requires AllDistinct(slots)
    ensures
      var index := IndexOf(slots).index;
      Covered(slots, k, severity, today) <==>
        k in index && today <= index[k].expires && (index[k].severity == "" || Some(index[k].severity) == severity)
  {
    var index := IndexOf(slots).index;
    IndexedKeys(slots);
    forall i | 0 <= i < |slots|
      ensures slots[i].value.0 in index && index[slots[i].value.0] == slots[i].value.1
    {
      FirstIsIndexed(slots, i);
    }
    if k in index {
      var i :| 0 <= i < |slots| && slots[i].Some? && slots[i].value.0 == k;
      assert index[k] == slots[i].value.1;
    }
  }

  lemma NothingKept<T(!new)>(xs: seq<T>, keep: T -> bool)
    ensures Filter(xs, keep) == [] <==> forall x :: x in xs ==> !keep(x)
  {
  }

  lemma NoReportsByIndex(py: Python, excs: seq<Record>, fs: seq<Finding>, today: int)
    requires AllDistinct(Slots(py, excs))
    ensures ReportsOf(py, IndexOf(Slots(py, excs)).index, today, fs) == Reports(0, [], 0, []) <==>
        IndexAccepts(py, excs, fs, today)
  {
    var slots := Slots(py, excs);
    var index, firsts := IndexOf(slots).index, Firsts(py, fs);
    FirstsAreFirst(py, fs);
    NothingKept(fs, Nameless(py));
    NothingKept(firsts, MissingFrom(py, index));
    NothingKept(firsts, MismatchedIn(py, index));
    NothingKept(firsts, ExpiredIn(py, index, today));
    hide Firsts, FindingKey, FirstWith, Slots, IndexOf, Severity, Covered, AllDistinct, Filter;
    forall f | f in fs && Keyed(py, f)
      ensures
        var first := FirstWith(py, fs, FindingKey(py, f));
        && first < |fs| && fs[first] in firsts
        && (Covered(slots, FindingKey(py, f), Severity(py, fs[first].severity), today) <==>
            && !Missing(py, index, fs[first]) && !Mismatched(py, index, fs[first])
            && !Expired(py, index, today, fs[first]))
    {
      EveryFirst(py, fs, f);
      var first := FirstWith(py, fs, FindingKey(py, f));
      CoveredIff(slots, FindingKey(py, f), Severity(py, fs[first].severity), today);
    }
    forall g | g in firsts
      ensures fs[FirstWith(py, fs, FindingKey(py, g))] == g
    {
    }
  }

  /** No report of the scan against the index is the same as every finding being accounted for. */
  lemma NoReportsIff(py: Python, excs: seq<Record>, fs: seq<Finding>, today: int)
    requires Distinct(py, excs)
    ensures ReportsOf(py, IndexOf(Slots(py, excs)).index, today, fs) == Reports(0, [], 0, []) <==>
        Accepts(py, excs, fs, today)
  {
    hide *;
    DistinctIs(py, excs);
    NoReportsByIndex(py, excs, fs, today);
    AcceptsIff(py, excs, fs, today);
  }

  /** The check as a whole: it passes exactly when the exceptions account for the report, and stops with an
      error exactly when an input does not have the expected shape. */
  method CheckAudit(py: Python, text: string, data: Json, today: int) returns (exit: Exit)
    ensures exit.Crashed? <==> Stops(text, data)
    ensures
      var excs, fs := ParseLines(Lines(text)), Findings(py, data);
      exit.Passed? <==> !Stops(text, data) && excs.Some? && fs.Some? && Accepts(py, excs.value, fs.value, today)
  {
    hide *;
    var excs := ParseExceptions(text);
    if excs.None? {
      StopsWhen(py, text, data);
      return Crashed;
    }
    var index, errors := IndexExceptions(py, excs.value);
    var found := IterVulns(py, data);
    StopsWhen(py, text, data);
    if found.None? {
      return Crashed;
    }
    var r := Scan(py, index, today, found.value);
    if r.None? {
      return Crashed;
    }
    OnlyDistinct(py, excs.value, found.value, today);
    if errors == 0 {
      NoReportsIff(py, excs.value, found.value, today);
    }
    exit := if errors == 0 && r.value == Reports(0, [], 0, []) then Passed else Refused;
  }

  lemma AdvisorySeverity(py: Python, f: Finding, advisory: Json)
    requires OfAdvisory(py, f, advisory)
    ensures advisory.JObject? && f.severity == At(advisory.members, "severity")
  {
    hide At, Chosen;
  }

  lemma VulnerabilitySeverity(f: Finding, name: string, vuln: Json)
    requires OfVulnerability(f, name, vuln)
    ensures Yields(vuln) && vuln.JObject? && f.severity == At(vuln.members, "severity")
  {
    hide At, Identified;
  }

  lemma SomeAdvisory(py: Python, advisory: Json) returns (f: Finding)
    requires AdvisoryReads(advisory)
    ensures OfAdvisory(py, f, advisory)
  {
    hide *;
    AdvisoryReadIff(py, advisory);
    f := AdvisoryFinding(py, advisory).value;
    AdvisoryHolds(py, f, advisory);
  }

  lemma SomeIdentified(name: string, vuln: Json) returns (f: Finding)
    requires Yields(vuln)
    ensures OfVulnerability(f, name, vuln)
  {
    hide At, Identified;
    var severity := At(vuln.members, "severity");
    match At(vuln.members, "via") {
      case JArray(items) =>
        var item, id :| item in items && Identified(item, id);
        f := Finding(JString(name), severity, id);
      case JString(s) =>
        f := Finding(JString(name), severity, JString(s));
    }
  }

  lemma SeverityReads(py: Python, j: Json)
    ensures Severity(py, j).Some? <==> !BadSeverity(j)
  {
  }

  /** The severities of all findings can be normalised exactly when no entry with a finding has a bad one. */
  lemma ReadableIff(py: Python, data: Json)
    requires Findings(py, data).Some?
    ensures data.JObject?
    ensures Readable(py, Findings(py, data).value) <==>
      && (forall e :: e in Under(data, "advisories") ==> e.1.JObject? && !BadSeverity(At(e.1.members, "severity")))
      && (forall e :: e in Under(data, "vulnerabilities") ==>
            e.1.JObject? && (Yields(e.1) ==> !BadSeverity(At(e.1.members, "severity"))))
  {
    var fs := Findings(py, data).value;
    FindingsAre(py, data);
    ReportReadIff(py, data);
    EntriesAreObjects(py, data);
    hide Findings, Under, At, BadSeverity, Severity, OfAdvisory, OfVulnerability, Yields, AdvisoryReads,
         VulnerabilityReads;
    forall e | e in Under(data, "advisories")
      ensures Readable(py, fs) ==> !BadSeverity(At(e.1.members, "severity"))
    {
      var f := SomeAdvisory(py, e.1);
      AdvisorySeverity(py, f, e.1);
      SeverityReads(py, f.severity);
    }
    forall e | e in Under(data, "vulnerabilities") && Yields(e.1)
      ensures Readable(py, fs) ==> !BadSeverity(At(e.1.members, "severity"))
    {
      var f := SomeIdentified(e.0, e.1);
      VulnerabilitySeverity(f, e.0, e.1);
      SeverityReads(py, f.severity);
    }
    forall f | f in fs
      ensures Severity(py, f.severity).Some? <==> !BadSeverity(f.severity)
      ensures
        || (exists e :: e in Under(data, "advisories") && f.severity == At(e.1.members, "severity"))
        || (exists e :: e in Under(data, "vulnerabilities") && Yields(e.1) && f.severity == At(e.1.members, "severity"))
    {
      SeverityReads(py, f.severity);
      if e :| e in Under(data, "advisories") && OfAdvisory(py, f, e.1) {
        AdvisorySeverity(py, f, e.1);
      } else {
        var e :| e in Under(data, "vulnerabilities") && OfVulnerability(f, e.0, e.1);
        VulnerabilitySeverity(f, e.0, e.1);
      }
    }
  }

  lemma EntriesAreObjects(py: Python, data: Json)
    requires Findings(py, data).Some?
    ensures data.JObject?
    ensures forall e :: e in Under(data, "advisories") ==> e.1.JObject? && AdvisoryReads(e.1)
    ensures forall e :: e in Under(data, "vulnerabilities") ==> e.1.JObject?
  {
    ReportReadIff(py, data);
    hide Findings, Under, At;
  }

  /** The conditions on the text and on the report are those under which a part of the check fails. */
  lemma ReportReadsIff(py: Python, data: Json)
    ensures ReportReads(data) <==> Findings(py, data).Some? && Readable(py, Findings(py, data).value)
  {
    ReportReadIff(py, data);
    if Findings(py, data).Some? { ReadableIff(py, data); }
    hide Findings, Readable, Under, At, AdvisoryReads, VulnerabilityReads, BadSeverity, Yields;
  }

  lemma StopsWhen(py: Python, text: string, data: Json)
    ensures Stops(text, data) <==>
      ParseLines(Lines(text)).None? || Findings(py, data).None? || !Readable(py, Findings(py, data).value)
  {
    ScanFailsIff(START, Lines(text));
    ReportReadsIff(py, data);
    hide Lines, Unsplittable, AuditParser.Scan, Finish, Findings, Readable, ReportReads;
  }

  lemma OnlyDistinct(py: Python, excs: seq<Record>, fs: seq<Finding>, today: int)
    ensures Accepts(py, excs, fs, today) ==> Distinct(py, excs)
  {
  }
}
