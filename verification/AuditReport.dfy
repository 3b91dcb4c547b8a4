/** The findings of a pnpm audit report, in both of its layouts. */
module AuditReport {
  import opened Collections
  import opened AuditGate

  datatype Finding = Finding(name: Json, severity: Json, advisory: Json)

  type Members = seq<(string, Json)>

  function At(m: Members, name: string): Json {
    Get(m, name, JNull)
  }

  /** `(cves or [None])[0]`; None where indexing with 0 raises an error. */
  function FirstCve(cves: Json): Option<Json> {
    if !Truthy(cves) then Some(JNull)
    else
      match cves
      case JArray(items) => Some(items[0])
      case JString(s) => Some(JString([s[0]]))
      case _ => None
  }

  /** pick_advisory_id: the first true identifier; None where Python raises an error. */
  function PickAdvisoryId(py: Python, m: Members): Option<Json> {
    if Truthy(At(m, "github_advisory_id")) then Some(At(m, "github_advisory_id"))
    else if Truthy(At(m, "url")) then Some(At(m, "url"))
    else
      match FirstCve(At(m, "cves"))
      case None => None
      case Some(cve) =>
        var id := if At(m, "id").JNull? then JNull else JString(Str(py, At(m, "id")));
        Some(Or(cve, Or(id, Or(At(m, "title"), Or(At(m, "advisory"), At(m, "overview"))))))
  }

  /** The finding of one entry under "advisories"; None when the entry is no object. */
  function AdvisoryFinding(py: Python, advisory: Json): Option<Finding> {
    if !advisory.JObject? then None
    else
      var m := advisory.members;
      match PickAdvisoryId(py, m)
      case None => None
      case Some(id) => Some(Finding(Or(At(m, "module_name"), At(m, "name")), At(m, "severity"), id))
  }

  /** The identifier and the title of one item of "via"; items that are neither objects nor strings are
      passed over. */
  function ViaItem(item: Json): Option<(Json, Json)> {
    match item
    case JObject(m) => Some((
      Or(At(m, "github_advisory_id"), Or(At(m, "url"), Or(At(m, "source"), Or(At(m, "title"), At(m, "name"))))),
      Or(At(m, "title"), Or(At(m, "url"), Or(At(m, "advisory"), At(m, "source"))))))
    case JString(_) => Some((item, item))
    case _ => None
  }

  function ViaItems(items: seq<Json>): seq<(Json, Json)> {
    if items == [] then []
    else
      ViaItems(items[..|items| - 1]) +
      match ViaItem(items[|items| - 1]) case None => [] case Some(x) => [x]
  }

  function ViaPairs(via: Json): seq<(Json, Json)> {
    match via
    case JArray(items) => ViaItems(items)
    case JString(_) => [(via, via)]
    case _ => []
  }

  /** Joining the titles fails on a true title that is no string. */
  predicate TitlesJoin(pairs: seq<(Json, Json)>) {
    forall p :: p in pairs && Truthy(p.1) ==> p.1.JString?
  }

  function PairFindings(name: string, severity: Json, pairs: seq<(Json, Json)>): seq<Finding> {
    if pairs == [] then []
    else
      PairFindings(name, severity, pairs[..|pairs| - 1]) +
      if Truthy(pairs[|pairs| - 1].0) then [Finding(JString(name), severity, pairs[|pairs| - 1].0)] else []
  }

  /** The findings of one entry under "vulnerabilities". */
  function VulnerabilityFindings(name: string, vuln: Json): Option<seq<Finding>> {
    if !vuln.JObject? then None
    else
      var pairs := ViaPairs(Get(vuln.members, "via", JArray([])));
      if TitlesJoin(pairs) then Some(PairFindings(name, At(vuln.members, "severity"), pairs)) else None
  }

  function AdvisoriesFindings(py: Python, m: Members): Option<seq<Finding>> {
    if m == [] then Some([])
    else
      match (AdvisoriesFindings(py, m[..|m| - 1]), AdvisoryFinding(py, m[|m| - 1].1))
      case (Some(fs), Some(f)) => Some(fs + [f])
      case _ => None
  }

  function VulnerabilitiesFindings(m: Members): Option<seq<Finding>> {
    if m == [] then Some([])
    else
      match (VulnerabilitiesFindings(m[..|m| - 1]), VulnerabilityFindings(m[|m| - 1].0, m[|m| - 1].1))
      case (Some(fs), Some(gs)) => Some(fs + gs)
      case _ => None
  }

  /** iter_vulns: everything it yields, or None where it raises an error. */
  function Findings(py: Python, data: Json): Option<seq<Finding>> {
    if !data.JObject? then None
    else
      var advisories, vulnerabilities := At(data.members, "advisories"), At(data.members, "vulnerabilities");
      match (if advisories.JObject? then AdvisoriesFindings(py, advisories.members) else Some([]),
             if vulnerabilities.JObject? then VulnerabilitiesFindings(vulnerabilities.members) else Some([]))
      case (Some(fs), Some(gs)) => Some(fs + gs)
      case _ => None
  }

  // ---------------------------------------------------------------- as it runs

  method Via(via: Json) returns (advisories: seq<Json>, titles: seq<Json>)
    ensures |advisories| == |titles| == |ViaPairs(via)|
    ensures forall i :: 0 <= i < |advisories| ==> ViaPairs(via)[i] == (advisories[i], titles[i])
  {
    advisories, titles := [], [];
    match via {
      case JArray(items) =>
        for i := 0 to |items|
          invariant |advisories| == |titles| == |ViaItems(items[..i])|
          invariant forall k :: 0 <= k < |advisories| ==> ViaItems(items[..i])[k] == (advisories[k], titles[k])
        {
          assert items[..i + 1][..i] == items[..i];
          var x := ViaItem(items[i]);
          if x.Some? {
            advisories, titles := advisories + [x.value.0], titles + [x.value.1];
          }
        }
        assert items[..|items|] == items;
      case JString(_) =>
        advisories, titles := [via], [via];
      case _ =>
    }
  }

  method Vulnerability(name: string, vuln: Json) returns (found: Option<seq<Finding>>)
    ensures found == VulnerabilityFindings(name, vuln)
  {
    if !vuln.JObject? {
      return None;
    }
    var severity := At(vuln.members, "severity");
    var advisories, titles := Via(Get(vuln.members, "via", JArray([])));
    ghost var pairs := ViaPairs(Get(vuln.members, "via", JArray([])));
    for i := 0 to |titles|
      invariant forall k :: 0 <= k < i && Truthy(titles[k]) ==> titles[k].JString?
    {
      if Truthy(titles[i]) && !titles[i].JString? {
        assert pairs[i] in pairs;
        return None;
      }
    }
    var fs: seq<Finding> := [];
    for i := 0 to |advisories|
      invariant fs == PairFindings(name, severity, pairs[..i])
    {
      assert pairs[..i + 1][..i] == pairs[..i];
      if Truthy(advisories[i]) {
        fs := fs + [Finding(JString(name), severity, advisories[i])];
      }
    }
    assert pairs[..|advisories|] == pairs;
    found := Some(fs);
  }

  lemma {:induction false} AdvisoriesFail(py: Python, m: Members, i: nat)
    requires i <= |m| && AdvisoriesFindings(py, m[..i]).None?
    ensures AdvisoriesFindings(py, m).None?
    decreases |m|
  {
    if i == |m| {
      assert m[..i] == m;
    } else {
      assert m[..|m| - 1][..i] == m[..i];
      AdvisoriesFail(py, m[..|m| - 1], i);
    }
  }

  lemma {:induction false} VulnerabilitiesFail(m: Members, i: nat)
    requires i <= |m| && VulnerabilitiesFindings(m[..i]).None?
    ensures VulnerabilitiesFindings(m).None?
    decreases |m|
  {
    if i == |m| {
      assert m[..i] == m;
    } else {
      assert m[..|m| - 1][..i] == m[..i];
      VulnerabilitiesFail(m[..|m| - 1], i);
    }
  }

  /** The first loop of iter_vulns, over the "advisories" of the report. */
  method IterAdvisories(py: Python, m: Members) returns (found: Option<seq<Finding>>)
    ensures found == AdvisoriesFindings(py, m)
  {
    hide AdvisoryFinding;
    var fs: seq<Finding> := [];
    for i := 0 to |m|
      invariant AdvisoriesFindings(py, m[..i]) == Some(fs)
    {
      assert m[..i + 1][..i] == m[..i];
      var f := AdvisoryFinding(py, m[i].1);
      if f.None? {
        AdvisoriesFail(py, m, i + 1);
        return None;
      }
      fs := fs + [f.value];
    }
    assert m[..|m|] == m;
    found := Some(fs);
  }

  /** The second loop, over its "vulnerabilities". */
  method IterVulnerabilities(m: Members) returns (found: Option<seq<Finding>>)
    ensures found == VulnerabilitiesFindings(m)
  {
    hide VulnerabilityFindings;
    var fs: seq<Finding> := [];
    for i := 0 to |m|
      invariant VulnerabilitiesFindings(m[..i]) == Some(fs)
    {
      assert m[..i + 1][..i] == m[..i];
      var more := Vulnerability(m[i].0, m[i].1);
      if more.None? {
        VulnerabilitiesFail(m, i + 1);
        return None;
      }
      fs := fs + more.value;
    }
    assert m[..|m|] == m;
    found := Some(fs);
  }

  /** Goes through both layouts of the report. */
  method IterVulns(py: Python, data: Json) returns (found: Option<seq<Finding>>)
    ensures found == Findings(py, data)
  {
    if !data.JObject? {
      return None;
    }
    hide AdvisoryFinding, VulnerabilityFindings, Lookup;
    var advisories, vulnerabilities := At(data.members, "advisories"), At(data.members, "vulnerabilities");
    var fs := IterAdvisories(py, if advisories.JObject? then advisories.members else []);
    if fs.None? {
      return None;
    }
    var gs := IterVulnerabilities(if vulnerabilities.JObject? then vulnerabilities.members else []);
    found := if gs.Some? then Some(fs.value + gs.value) else None;
  }

  // ---------------------------------------------------------------- what the layouts share

  /** An advisory with a GHSA identifier or an URL is identified alike in both layouts; without them the
      layouts go by different members. */
  lemma LayoutsIdentifyAlike(py: Python, m: Members)
    requires Truthy(At(m, "github_advisory_id")) || Truthy(At(m, "url"))
    ensures PickAdvisoryId(py, m) == Some(ViaItem(JObject(m)).value.0)
    ensures Truthy(ViaItem(JObject(m)).value.0)
  {
  }

  /** The identifiers that the entries of one vulnerability yield are exactly the true ones of its via items. */
  lemma {:induction false} PairsYield(name: string, severity: Json, pairs: seq<(Json, Json)>)
    ensures forall f :: f in PairFindings(name, severity, pairs) <==>
      && f.name == JString(name) && f.severity == severity && Truthy(f.advisory)
      && exists p :: p in pairs && p.0 == f.advisory
  {
    if pairs != [] {
      assert pairs == pairs[..|pairs| - 1] + [pairs[|pairs| - 1]];
      PairsYield(name, severity, pairs[..|pairs| - 1]);
    }
  }

  // ---------------------------------------------------------------- where the report is not read

  /** Numbers under "source" are foreseen by the normalisation, but an item whose title can only be taken from
      a numeric source stops the check with an error. */
  lemma NumericSourceStops(py: Python, name: string, severity: Json, text: string)
    ensures
      var item := JObject([("source", JNumber(false, text))]);
      VulnerabilityFindings(name, JObject([("severity", severity), ("via", JArray([item]))])).None?
  {
    var item := JObject([("source", JNumber(false, text))]);
    ViaAlone([item], severity);
    SourceOnly(item.members);
    hide Lookup, At, Get;
    ReadIff(name, JObject([("severity", severity), ("via", JArray([item]))]));
    assert BadTitle(item) && item in [item];
  }

  lemma SourceOnly(m: Members)
    requires |m| == 1 && m[0].0 == "source"
    ensures At(m, "title") == At(m, "url") == At(m, "advisory") == JNull && At(m, "source") == m[0].1
  {
    assert |"source"| == 6 && |"title"| == 5 && |"url"| == 3 && |"advisory"| == 8;
    assert m[1..] == [];
    assert forall name :: name != m[0].0 ==> Lookup(m, name) == Lookup(m[1..], name);
  }

  lemma ViaAlone(items: seq<Json>, severity: Json)
    ensures Get([("severity", severity), ("via", JArray(items))], "via", JArray([])) == JArray(items)
  {
    var m := [("severity", severity), ("via", JArray(items))];
    assert |"severity"| == 8 && |"via"| == 3;
    assert m[1..] == [("via", JArray(items))];
    assert Lookup(m, "via") == Lookup(m[1..], "via");
  }

  /** The first true one of some values. */
  ghost predicate FirstTrue(js: seq<Json>, j: Json) {
    exists i :: 0 <= i < |js| && js[i] == j && Truthy(j) && forall k :: 0 <= k < i ==> !Truthy(js[k])
  }

  /** What a chain of `or` gives: the first true value, or else the last. */
  ghost predicate Chosen(js: seq<Json>, j: Json) {
    FirstTrue(js, j) || (js != [] && j == js[|js| - 1] && forall k :: 0 <= k < |js| ==> !Truthy(js[k]))
  }

  lemma ChosenOnce(js: seq<Json>, a: Json, b: Json)
    requires Chosen(js, a) && Chosen(js, b)
    ensures a == b
  {
    hide Truthy;
  }

  lemma OrChosen(a: Json, js: seq<Json>, j: Json)
    requires Chosen(js, j)
    ensures Chosen([a] + js, Or(a, j))
  {
    hide Truthy;
    var all := [a] + js;
    assert all[0] == a;
    if Truthy(a) {
      assert FirstTrue(all, a);
    } else if FirstTrue(js, j) {
      var i :| 0 <= i < |js| && js[i] == j && Truthy(j) && forall k :: 0 <= k < i ==> !Truthy(js[k]);
      TrueLater(a, js, i);
    } else {
      assert all[|all| - 1] == j;
      assert forall k :: 1 <= k < |all| ==> all[k] == js[k - 1];
    }
  }

  lemma TrueLater(a: Json, js: seq<Json>, i: nat)
    requires i < |js| && !Truthy(a) && Truthy(js[i]) && forall k :: 0 <= k < i ==> !Truthy(js[k])
    ensures FirstTrue([a] + js, js[i])
  {
    hide Truthy;
    var all := [a] + js;
    assert all[i + 1] == js[i];
    forall k | 0 <= k < i + 1
      ensures !Truthy(all[k])
    {
      assert k > 0 ==> all[k] == js[k - 1];
    }
  }

  lemma AloneChosen(j: Json)
    ensures Chosen([j], j)
  {
    assert [j][0] == j;
  }

  /** A title is the first true one of four members of the item. */
  ghost predicate Titled(item: Json, title: Json) {
    item.JObject? &&
    var m := item.members;
    FirstTrue([At(m, "title"), At(m, "url"), At(m, "advisory"), At(m, "source")], title)
  }

  /** An identifier is a string, or the first true one of five members of the item. */
  ghost predicate Identified(item: Json, id: Json) {
    match item
    case JString(s) => s != "" && id == item
    case JObject(m) =>
      FirstTrue([At(m, "github_advisory_id"), At(m, "url"), At(m, "source"), At(m, "title"), At(m, "name")], id)
    case _ => false
  }

  lemma TitleIs(item: Json, title: Json)
    requires item.JObject?
    ensures Titled(item, title) <==> Truthy(title) && ViaItem(item).value.1 == title
  {
    var m := item.members;
    var a, b, c, d := At(m, "title"), At(m, "url"), At(m, "advisory"), At(m, "source");
    assert ViaItem(item).value.1 == Or(a, Or(b, Or(c, d)));
    hide *;
    FourChosen(a, b, c, d);
    TitledIs(item, title);
    FirstOrNone([a, b, c, d], Or(a, Or(b, Or(c, d))), title);
  }

  lemma TitledIs(item: Json, title: Json)
    requires item.JObject?
    ensures
      var m := item.members;
      Titled(item, title) <==>
        FirstTrue([At(m, "title"), At(m, "url"), At(m, "advisory"), At(m, "source")], title)
  {
  }

  lemma FourChosen(a: Json, b: Json, c: Json, d: Json)
    ensures Chosen([a, b, c, d], Or(a, Or(b, Or(c, d))))
  {
    hide Or, Chosen;
    AloneChosen(d);
    OrChosen(c, [d], d);
    OrChosen(b, [c] + [d], Or(c, d));
    OrChosen(a, [b] + ([c] + [d]), Or(b, Or(c, d)));
    assert [a] + ([b] + ([c] + [d])) == [a, b, c, d];
  }

  lemma FirstOrNone(js: seq<Json>, chosen: Json, j: Json)
    requires Chosen(js, chosen)
    ensures FirstTrue(js, j) <==> Truthy(j) && j == chosen
  {
    hide Truthy;
    if FirstTrue(js, j) { ChosenOnce(js, chosen, j); }
  }

  lemma IdentifierIs(item: Json, id: Json)
    ensures Identified(item, id) <==> ViaItem(item).Some? && Truthy(id) && ViaItem(item).value.0 == id
  {
    if item.JObject? {
      var m := item.members;
      var a, b, c, d, e :=
        At(m, "github_advisory_id"), At(m, "url"), At(m, "source"), At(m, "title"), At(m, "name");
      assert ViaItem(item).value.0 == Or(a, Or(b, Or(c, Or(d, e))));
      assert ViaItem(item).Some?;
      hide *;
      FourChosen(b, c, d, e);
      OrChosen(a, [b, c, d, e], Or(b, Or(c, Or(d, e))));
      assert [a] + [b, c, d, e] == [a, b, c, d, e];
      IdentifiedIs(item, id);
      FirstOrNone([a, b, c, d, e], Or(a, Or(b, Or(c, Or(d, e)))), id);
    }
  }

  lemma IdentifiedIs(item: Json, id: Json)
    requires item.JObject?
    ensures
      var m := item.members;
      Identified(item, id) <==>
        FirstTrue([At(m, "github_advisory_id"), At(m, "url"), At(m, "source"), At(m, "title"), At(m, "name")], id)
  {
  }

  /** An item of "via" whose title is true and no string. */
  ghost predicate BadTitle(item: Json) {
    exists title :: Titled(item, title) && !title.JString?
  }

  lemma BadTitleIs(item: Json)
    ensures BadTitle(item) <==>
      ViaItem(item).Some? && Truthy(ViaItem(item).value.1) && !ViaItem(item).value.1.JString?
  {
    if item.JObject? {
      TitleIs(item, ViaItem(item).value.1);
      forall title | Titled(item, title)
        ensures title == ViaItem(item).value.1 && Truthy(title)
      {
        TitleIs(item, title);
      }
      hide At, Titled, Or;
    }
  }

  /** An entry under "vulnerabilities" that can be read: an object with no bad title in its "via". */
  ghost predicate VulnerabilityReads(vuln: Json) {
    vuln.JObject? &&
    match At(vuln.members, "via")
    case JArray(items) => forall x :: x in items ==> !BadTitle(x)
    case _ => true
  }

  /** Whether "via" is missing or an empty list makes no difference. */
  lemma ViaOrNone(m: Members)
    ensures ViaPairs(Get(m, "via", JArray([]))) == ViaPairs(At(m, "via"))
  {
    hide Lookup;
  }

  lemma TitlesJoinIff(items: seq<Json>)
    ensures TitlesJoin(ViaItems(items)) <==> forall x :: x in items ==> !BadTitle(x)
  {
    ViaItemsAre(items);
    forall x | x in items
      ensures BadTitle(x) <==> ViaItem(x).Some? && Truthy(ViaItem(x).value.1) && !ViaItem(x).value.1.JString?
    {
      BadTitleIs(x);
    }
    hide ViaItem, ViaItems, BadTitle, Truthy;
    assert forall x :: x in items && ViaItem(x).Some? ==> ViaItem(x).value in ViaItems(items);
  }

  /** An entry under "vulnerabilities" is read exactly when it is an object and, if its "via" is a list, every true
      title in the list is a string. */
  lemma ReadIff(name: string, vuln: Json)
    ensures VulnerabilityFindings(name, vuln).Some? <==> VulnerabilityReads(vuln)
  {
    if vuln.JObject? {
      ViaOrNone(vuln.members);
      match At(vuln.members, "via") {
        case JArray(items) =>
          TitlesJoinIff(items);
        case _ =>
      }
    }
  }

  /** An entry under "advisories" that can be read: an object that is identified before its list of CVEs is looked
      at, or in which that is false, a list or a string. */
  predicate AdvisoryReads(advisory: Json) {
    advisory.JObject? &&
    var m := advisory.members;
    || Truthy(At(m, "github_advisory_id")) || Truthy(At(m, "url"))
    || !Truthy(At(m, "cves")) || At(m, "cves").JArray? || At(m, "cves").JString?
  }

  /** An entry under "advisories" is read exactly when it is an object that has a GHSA identifier or an URL, or a
      list of CVEs that can be indexed. */
  lemma AdvisoryReadIff(py: Python, advisory: Json)
    ensures AdvisoryFinding(py, advisory).Some? <==> AdvisoryReads(advisory)
  {
    hide Lookup;
  }

  /** The members of an object under a key of the report; none when there is no object. */
  function Under(data: Json, name: string): Members
    requires data.JObject?
  {
    var j := At(data.members, name);
    if j.JObject? then j.members else []
  }

  /** What is found under a name, of several members the first: the value there or, when there is none, the default;
      and, of a part of the report, its members if it is an object. */
  lemma {:induction false} MemberIs(m: Members, name: string, default: Json, i: nat)
    requires i <= |m| && (forall k :: 0 <= k < i ==> m[k].0 != name) && (i < |m| ==> m[i].0 == name)
    ensures Get(m, name, default) == (if i < |m| then m[i].1 else default)
    ensures At(m, name) == (if i < |m| then m[i].1 else JNull)
    ensures Under(JObject(m), name) == if i < |m| && m[i].1.JObject? then m[i].1.members else []
  {
    if 0 < i {
      assert forall k :: 0 <= k < i - 1 ==> m[1..][k] == m[k + 1];
      MemberIs(m[1..], name, default, i - 1);
    }
  }

  lemma {:induction false} AdvisoriesReadIff(py: Python, m: Members)
    ensures AdvisoriesFindings(py, m).Some? <==> forall e :: e in m ==> AdvisoryReads(e.1)
  {
    hide AdvisoryFinding, AdvisoryReads;
    if m != [] {
      assert m == m[..|m| - 1] + [m[|m| - 1]];
      AdvisoriesReadIff(py, m[..|m| - 1]);
      AdvisoryReadIff(py, m[|m| - 1].1);
    }
  }

  lemma {:induction false} VulnerabilitiesReadIff(m: Members)
    ensures VulnerabilitiesFindings(m).Some? <==> forall e :: e in m ==> VulnerabilityReads(e.1)
  {
    hide VulnerabilityFindings, VulnerabilityReads;
    if m != [] {
      assert m == m[..|m| - 1] + [m[|m| - 1]];
      VulnerabilitiesReadIff(m[..|m| - 1]);
      ReadIff(m[|m| - 1].0, m[|m| - 1].1);
    }
  }

  /** A report is read exactly when it is an object and every entry of both layouts can be read. */
  lemma ReportReadIff(py: Python, data: Json)
    ensures Findings(py, data).Some? <==>
      && data.JObject?
      && (forall e :: e in Under(data, "advisories") ==> AdvisoryReads(e.1))
      && (forall e :: e in Under(data, "vulnerabilities") ==> VulnerabilityReads(e.1))
  {
    if data.JObject? {
      AdvisoriesReadIff(py, Under(data, "advisories"));
      VulnerabilitiesReadIff(Under(data, "vulnerabilities"));
      FindingsParts(py, data);
      hide *;
    }
  }

  lemma FindingsParts(py: Python, data: Json)
    requires data.JObject?
    ensures
      var fs := AdvisoriesFindings(py, Under(data, "advisories"));
      var gs := VulnerabilitiesFindings(Under(data, "vulnerabilities"));
      Findings(py, data) == if fs.Some? && gs.Some? then Some(fs.value + gs.value) else None
  {
    hide Lookup, Get, AdvisoryFinding, VulnerabilityFindings;
  }

  // ---------------------------------------------------------------- which findings a report has

  /** The finding of an entry under "advisories": its name and its identifier are the first true ones of the members
      that may hold them, or else what the last of these holds. */
  ghost predicate OfAdvisory(py: Python, f: Finding, advisory: Json) {
    advisory.JObject? &&
    var m := advisory.members;
    && f.severity == At(m, "severity")
    && Chosen([At(m, "module_name"), At(m, "name")], f.name)
    && Chosen([At(m, "github_advisory_id"), At(m, "url"), Cve(At(m, "cves")), IdText(py, At(m, "id")), At(m, "title"),
               At(m, "advisory"), At(m, "overview")], f.advisory)
  }

  /** The first CVE of a list; of a string, its first character. */
  function Cve(cves: Json): Json {
    match cves
    case JArray(items) => if items == [] then JNull else items[0]
    case JString(s) => if s == "" then JNull else JString([s[0]])
    case _ => JNull
  }

  /** An id counts as a text, also one that is false; only a missing one does not count. */
  function IdText(py: Python, id: Json): Json {
    match id
    case JNull => JNull
    case _ => JString(Str(py, id))
  }

  /** A finding of an entry under "vulnerabilities", with the entry's name and severity: an identifier of one of the
      items of its "via", or that itself when it is a string. */
  ghost predicate OfVulnerability(f: Finding, name: string, vuln: Json) {
    && vuln.JObject? && f.name == JString(name) && f.severity == At(vuln.members, "severity")
    && match At(vuln.members, "via")
       case JArray(items) => exists item :: item in items && Identified(item, f.advisory)
       case JString(s) => s != "" && f.advisory == JString(s)
       case _ => false
  }

  lemma SevenChosen(a: Json, b: Json, c: Json, d: Json, e: Json, f: Json, g: Json)
    ensures Chosen([a, b, c, d, e, f, g], Or(a, Or(b, Or(c, Or(d, Or(e, Or(f, g)))))))
  {
    hide Or, Chosen;
    FourChosen(d, e, f, g);
    OrChosen(c, [d, e, f, g], Or(d, Or(e, Or(f, g))));
    OrChosen(b, [c] + [d, e, f, g], Or(c, Or(d, Or(e, Or(f, g)))));
    OrChosen(a, [b] + ([c] + [d, e, f, g]), Or(b, Or(c, Or(d, Or(e, Or(f, g))))));
    assert [a] + ([b] + ([c] + [d, e, f, g])) == [a, b, c, d, e, f, g];
  }

  lemma PickIsOr(py: Python, m: Members)
    requires PickAdvisoryId(py, m).Some?
    ensures PickAdvisoryId(py, m).value ==
      Or(At(m, "github_advisory_id"), Or(At(m, "url"), Or(Cve(At(m, "cves")), Or(IdText(py, At(m, "id")),
        Or(At(m, "title"), Or(At(m, "advisory"), At(m, "overview")))))))
  {
    hide At, Str;
  }

  /** The identifier of an advisory is the first true one of seven, whenever Python gets as far. */
  lemma PickIs(py: Python, m: Members, id: Json)
    requires PickAdvisoryId(py, m).Some?
    ensures PickAdvisoryId(py, m).value == id <==>
      Chosen([At(m, "github_advisory_id"), At(m, "url"), Cve(At(m, "cves")), IdText(py, At(m, "id")), At(m, "title"),
              At(m, "advisory"), At(m, "overview")], id)
  {
    hide *;
    var a, b, c, d := At(m, "github_advisory_id"), At(m, "url"), Cve(At(m, "cves")), IdText(py, At(m, "id"));
    var e, f, g := At(m, "title"), At(m, "advisory"), At(m, "overview");
    PickIsOr(py, m);
    SevenChosen(a, b, c, d, e, f, g);
    var picked := PickAdvisoryId(py, m).value;
    if Chosen([a, b, c, d, e, f, g], id) {
      ChosenOnce([a, b, c, d, e, f, g], id, picked);
    }
  }

  lemma NameIs(m: Members, name: Json)
    ensures Or(At(m, "module_name"), At(m, "name")) == name <==> Chosen([At(m, "module_name"), At(m, "name")], name)
  {
    var a, b := At(m, "module_name"), At(m, "name");
    hide *;
    AloneChosen(b);
    OrChosen(a, [b], b);
    assert [a] + [b] == [a, b];
    if Chosen([a, b], name) {
      ChosenOnce([a, b], name, Or(a, b));
    }
  }

  lemma AdvisoryHolds(py: Python, f: Finding, advisory: Json)
    requires AdvisoryFinding(py, advisory).Some?
    ensures AdvisoryFinding(py, advisory) == Some(f) <==> OfAdvisory(py, f, advisory)
  {
    AdvisoryParts(py, advisory);
    PickIs(py, advisory.members, f.advisory);
    NameIs(advisory.members, f.name);
    hide Chosen, At, PickAdvisoryId, Or, Cve, IdText, AdvisoryFinding;
  }

  lemma AdvisoryParts(py: Python, advisory: Json)
    requires AdvisoryFinding(py, advisory).Some?
    ensures advisory.JObject? && PickAdvisoryId(py, advisory.members).Some?
    ensures
      var m := advisory.members;
      AdvisoryFinding(py, advisory).value ==
        Finding(Or(At(m, "module_name"), At(m, "name")), At(m, "severity"), PickAdvisoryId(py, m).value)
  {
    hide PickAdvisoryId, At;
  }

  lemma {:induction false} AdvisoriesHold(py: Python, m: Members)
    requires AdvisoriesFindings(py, m).Some?
    ensures forall f :: f in AdvisoriesFindings(py, m).value <==> exists e :: e in m && OfAdvisory(py, f, e.1)
  {
    hide AdvisoryFinding, OfAdvisory;
    if m != [] {
      var front, last := m[..|m| - 1], m[|m| - 1];
      assert m == front + [last];
      AdvisoriesHold(py, front);
      forall f
        ensures AdvisoryFinding(py, last.1) == Some(f) <==> OfAdvisory(py, f, last.1)
      {
        AdvisoryHolds(py, f, last.1);
      }
    }
  }

  lemma VulnerabilityHolds(name: string, vuln: Json)
    requires VulnerabilityFindings(name, vuln).Some?
    ensures forall f :: f in VulnerabilityFindings(name, vuln).value <==> OfVulnerability(f, name, vuln)
  {
    var severity, via := At(vuln.members, "severity"), At(vuln.members, "via");
    ViaOrNone(vuln.members);
    PairsYield(name, severity, ViaPairs(via));
    hide PairFindings, Get, At, Identified, ViaItem, ViaItems;
    if via.JArray? {
      ViaItemsAre(via.items);
      forall item, id
        ensures Identified(item, id) <==> ViaItem(item).Some? && Truthy(id) && ViaItem(item).value.0 == id
      {
        IdentifierIs(item, id);
      }
    }
  }

  lemma {:induction false} VulnerabilitiesHold(m: Members)
    requires VulnerabilitiesFindings(m).Some?
    ensures forall f :: f in VulnerabilitiesFindings(m).value <==> exists e :: e in m && OfVulnerability(f, e.0, e.1)
  {
    hide VulnerabilityFindings, OfVulnerability;
    if m != [] {
      assert m == m[..|m| - 1] + [m[|m| - 1]];
      VulnerabilitiesHold(m[..|m| - 1]);
      VulnerabilityHolds(m[|m| - 1].0, m[|m| - 1].1);
    }
  }

  /** The findings of a report are exactly those of its entries under "advisories", one each, and those of the true
      identifiers of its entries under "vulnerabilities". */
  lemma FindingsAre(py: Python, data: Json)
    requires Findings(py, data).Some?
    ensures data.JObject?
    ensures forall f :: f in Findings(py, data).value <==>
      || (exists e :: e in Under(data, "advisories") && OfAdvisory(py, f, e.1))
      || (exists e :: e in Under(data, "vulnerabilities") && OfVulnerability(f, e.0, e.1))
  {
    FindingsParts(py, data);
    AdvisoriesHold(py, Under(data, "advisories"));
    VulnerabilitiesHold(Under(data, "vulnerabilities"));
    hide *;
  }

  lemma {:induction false} ViaItemsAre(items: seq<Json>)
    ensures forall p :: p in ViaItems(items) <==> exists x :: x in items && ViaItem(x) == Some(p)
  {
    if items != [] {
      assert items == items[..|items| - 1] + [items[|items| - 1]];
      ViaItemsAre(items[..|items| - 1]);
    }
  }

  // ---------------------------------------------------------------- in which order they come

  /** The advisories come first, in the order of the report, each with one finding; then the vulnerabilities. */
  lemma FindingsInOrder(py: Python, data: Json)
    requires Findings(py, data).Some?
    ensures data.JObject?
    ensures
      var entries, fs := Under(data, "advisories"), Findings(py, data).value;
      var rest := VulnerabilitiesFindings(Under(data, "vulnerabilities"));
      && rest.Some? && |fs| == |entries| + |rest.value|
      && (forall i :: 0 <= i < |entries| ==> OfAdvisory(py, fs[i], entries[i].1))
      && fs[|entries|..] == rest.value
  {
    FindingsParts(py, data);
    ReportReadIff(py, data);
    hide Findings, Under, OfAdvisory;
    AdvisoriesInOrder(py, Under(data, "advisories"));
  }

  lemma {:induction false} AdvisoriesInOrder(py: Python, m: Members)
    requires AdvisoriesFindings(py, m).Some?
    ensures |AdvisoriesFindings(py, m).value| == |m|
    ensures forall i :: 0 <= i < |m| ==> OfAdvisory(py, AdvisoriesFindings(py, m).value[i], m[i].1)
  {
    hide AdvisoryFinding, OfAdvisory;
    if m != [] {
      var front, last := m[..|m| - 1], m[|m| - 1];
      AdvisoriesInOrder(py, front);
      AdvisoryHolds(py, AdvisoryFinding(py, last.1).value, last.1);
    }
  }

  /** Of two vulnerabilities, the findings of the earlier come first. */
  lemma {:induction false} VulnerabilitiesInTwo(a: Members, b: Members)
    ensures VulnerabilitiesFindings(a + b) ==
      match (VulnerabilitiesFindings(a), VulnerabilitiesFindings(b))
      case (Some(fs), Some(gs)) => Some(fs + gs)
      case _ => None
  {
    hide VulnerabilityFindings;
    if b == [] {
      assert a + b == a;
      assert forall fs: seq<Finding> :: fs + [] == fs;
    } else {
      var front, last := b[..|b| - 1], b[|b| - 1];
      assert (a + b)[..|a + b| - 1] == a + front && (a + b)[|a + b| - 1] == last;
      VulnerabilitiesInTwo(a, front);
      var fs, gs, hs :=
        VulnerabilitiesFindings(a), VulnerabilitiesFindings(front), VulnerabilityFindings(last.0, last.1);
      if fs.Some? && gs.Some? && hs.Some? {
        assert fs.value + gs.value + hs.value == fs.value + (gs.value + hs.value);
      }
    }
  }

  /** What a list under "via" yields. */
  function ListFindings(name: string, severity: Json, items: seq<Json>): seq<Finding> {
    PairFindings(name, severity, ViaItems(items))
  }

  /** A vulnerability on its own: the findings of its list. */
  lemma OneVulnerability(name: string, vuln: Json, items: seq<Json>)
    requires VulnerabilityReads(vuln) && At(vuln.members, "via") == JArray(items)
    ensures VulnerabilitiesFindings([(name, vuln)]) == Some(ListFindings(name, At(vuln.members, "severity"), items))
  {
    ViaOrNone(vuln.members);
    ReadIff(name, vuln);
    var fs := ListFindings(name, At(vuln.members, "severity"), items);
    assert VulnerabilityFindings(name, vuln) == Some(fs) && [] + fs == fs;
    hide VulnerabilityFindings, ListFindings, At;
    assert [(name, vuln)][..0] == [];
    assert VulnerabilitiesFindings([]) == Some([]);
  }

  lemma {:induction false} ViaItemsInTwo(xs: seq<Json>, ys: seq<Json>)
    ensures ViaItems(xs + ys) == ViaItems(xs) + ViaItems(ys)
  {
    hide ViaItem;
    if ys == [] {
      assert xs + ys == xs;
    } else {
      assert (xs + ys)[..|xs + ys| - 1] == xs + ys[..|ys| - 1];
      ViaItemsInTwo(xs, ys[..|ys| - 1]);
    }
  }

  lemma {:induction false} PairsInTwo(name: string, severity: Json, a: seq<(Json, Json)>, b: seq<(Json, Json)>)
    ensures PairFindings(name, severity, a + b) == PairFindings(name, severity, a) + PairFindings(name, severity, b)
  {
    hide Truthy;
    if b == [] {
      assert a + b == a;
    } else {
      assert (a + b)[..|a + b| - 1] == a + b[..|b| - 1];
      PairsInTwo(name, severity, a, b[..|b| - 1]);
    }
  }

  /** Of two items of a list, the finding of the earlier comes first. */
  lemma ItemsInTwo(name: string, severity: Json, xs: seq<Json>, ys: seq<Json>)
    ensures ListFindings(name, severity, xs + ys) == ListFindings(name, severity, xs) + ListFindings(name, severity, ys)
  {
    ViaItemsInTwo(xs, ys);
    PairsInTwo(name, severity, ViaItems(xs), ViaItems(ys));
  }

  lemma OneItemList(name: string, severity: Json, item: Json)
    ensures
      var x := ViaItem(item);
      ListFindings(name, severity, [item]) ==
        if x.Some? && Truthy(x.value.0) then [Finding(JString(name), severity, x.value.0)] else []
  {
    hide ViaItem, Truthy;
    assert [item][..0] == [];
    var x := ViaItem(item);
    assert ViaItems([item]) == if x.Some? then [x.value] else [];
    if x.Some? {
      PairAlone(name, severity, x.value);
    }
  }

  lemma PairAlone(name: string, severity: Json, pair: (Json, Json))
    ensures PairFindings(name, severity, [pair]) ==
      if Truthy(pair.0) then [Finding(JString(name), severity, pair.0)] else []
  {
    assert [pair][..0] == [];
    assert PairFindings(name, severity, []) == [];
  }

  /** An item yields one finding for its identifier, and none when it has none. */
  lemma OneItem(name: string, severity: Json, item: Json)
    ensures forall id :: Identified(item, id) ==>
      ListFindings(name, severity, [item]) == [Finding(JString(name), severity, id)]
    ensures (forall id :: !Identified(item, id)) ==> ListFindings(name, severity, [item]) == []
  {
    var x := ViaItem(item);
    hide *;
    OneItemList(name, severity, item);
    if x.Some? {
      IdentifierIs(item, x.value.0);
    }
    forall id | Identified(item, id)
      ensures x.Some? && Truthy(id) && x.value.0 == id
    {
      IdentifierIs(item, id);
    }
  }
}
