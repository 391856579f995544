/** Evidence packages: how they are put together, and when the runtime accepts one. */
module Evidence {
  import opened Text

  datatype Origin = FromGrill | FromDeepRetrieval | FromHumanPremise

  datatype EvidenceItem = EvidenceItem(evidenceId: string, origin: Origin)

  datatype Finding = Finding(statement: string, evidenceIds: seq<string>)

  datatype Decision = Decision(decisionId: string, statement: string, evidenceIds: seq<string>)

  datatype Limitation = Limitation(statement: string, blocking: bool)

  datatype Level = Exploratory | BlackBoxVerified | SpecVerified

  datatype SpecGap = SpecGap(
    target: string, version: Option<string>, environment: Option<string>, scenarios: Option<seq<string>>,
    verifiedAt: Option<string>, reason: string, missingEvidence: seq<string>, impact: string)

  datatype EvidencePackage = EvidencePackage(
    knowledgeSummary: string,
    evidence: seq<EvidenceItem>,
    evidenceIds: seq<string>,
    decisions: seq<Decision>,
    findings: seq<Finding>,
    limitations: seq<Limitation>,
    verificationLevel: Option<Level>,
    specGap: Option<SpecGap>)

  const MAX_ITEMS := 50
  const MAX_CODE_POINTS := 4000
  const INFERENCE := "\U{63A8}\U{8AD6}\U{FF1A}"

  // ----- When a package is acceptable -----

  predicate Present(text: Option<string>) { text.Some? && !Blank(text.value) }

  predicate AbsentOrPresent(text: Option<string>) { text.None? || !Blank(text.value) }

  predicate SpecGapComplete(gap: SpecGap) {
    && !Blank(gap.target) && !Blank(gap.reason) && !Blank(gap.impact)
    && AbsentOrPresent(gap.version) && AbsentOrPresent(gap.environment) && AbsentOrPresent(gap.verifiedAt)
    && gap.missingEvidence != [] && forall m | m in gap.missingEvidence :: !Blank(m)
  }

  predicate BlackBoxComplete(gap: SpecGap) {
    && Present(gap.version) && Present(gap.environment) && Present(gap.verifiedAt)
    && gap.scenarios.Some? && gap.scenarios.value != [] && forall s | s in gap.scenarios.value :: !Blank(s)
  }

  /** The level is backed by a complete gap; `spec_verified` is refused whatever comes with it. */
  predicate LevelSupported(p: EvidencePackage) {
    && (p.verificationLevel.Some? || p.specGap.Some? ==> p.specGap.Some? && SpecGapComplete(p.specGap.value))
    && (p.verificationLevel == Some(BlackBoxVerified) ==> BlackBoxComplete(p.specGap.value))
    && p.verificationLevel != Some(SpecVerified)
  }

  function Ids(items: seq<EvidenceItem>): (ids: seq<string>)
    ensures |ids| == |items| && forall i | 0 <= i < |items| :: ids[i] == items[i].evidenceId
  {
    seq(|items|, i requires 0 <= i < |items| => items[i].evidenceId)
  }

  predicate DistinctIds(ids: seq<string>) {
    forall i, j | 0 <= i < j < |ids| :: ids[i] != ids[j]
  }

  predicate SizesFit(p: EvidencePackage) {
    && |Trim(p.knowledgeSummary)| <= MAX_CODE_POINTS
    && |p.decisions| <= MAX_ITEMS && |p.findings| <= MAX_ITEMS && |p.limitations| <= MAX_ITEMS
    && (forall d | d in p.decisions :: |d.statement| <= MAX_CODE_POINTS)
    && (forall f | f in p.findings :: |f.statement| <= MAX_CODE_POINTS)
    && (forall l | l in p.limitations :: |l.statement| <= MAX_CODE_POINTS)
  }

  /** The first cited id that names no evidence of the package. */
  function FirstUnknown(cited: seq<string>, known: set<string>): (r: Option<string>)
    ensures r.None? <==> forall id | id in cited :: id in known
    ensures r.Some? ==> r.value in cited && r.value !in known
  {
    if cited == [] then None
    else if cited[0] !in known then Some(cited[0])
    else FirstUnknown(cited[1..], known)
  }

  /** A citation list passes when no unknown id is found, or when the first one found is the empty string, which the
      code takes for "nothing found". */
  predicate CitationsPass(cited: seq<string>, known: set<string>) {
    var unknown := FirstUnknown(cited, known);
    unknown.None? || unknown.value == ""
  }

  predicate CitesOnlyPremises(cited: seq<string>, evidence: seq<EvidenceItem>) {
    forall id | id in cited :: exists e :: e in evidence && e.evidenceId == id && e.origin == FromHumanPremise
  }

  predicate FindingPasses(f: Finding, p: EvidencePackage, known: set<string>) {
    && f.evidenceIds != [] && CitationsPass(f.evidenceIds, known)
    && (CitesOnlyPremises(f.evidenceIds, p.evidence) ==> INFERENCE <= f.statement)
  }

  function KnownIds(p: EvidencePackage): set<string> {
    set id | id in Ids(p.evidence)
  }

  predicate Accepted(p: EvidencePackage) {
    && !Blank(p.knowledgeSummary)
    && LevelSupported(p)
    && SizesFit(p)
    && p.evidenceIds == Ids(p.evidence)
    && DistinctIds(p.evidenceIds)
    && (forall f | f in p.findings :: FindingPasses(f, p, KnownIds(p)))
    && (forall d | d in p.decisions :: CitationsPass(d.evidenceIds, KnownIds(p)))
    && DistinctIds(DecisionIds(p.decisions))
    && (forall l | l in p.limitations :: !l.blocking)
  }

  function DecisionIds(decisions: seq<Decision>): (ids: seq<string>)
    ensures |ids| == |decisions| && forall i | 0 <= i < |decisions| :: ids[i] == decisions[i].decisionId
  {
    seq(|decisions|, i requires 0 <= i < |decisions| => decisions[i].decisionId)
  }

  // ----- The validator -----

  /** Collecting the ids of the evidence, refusing the first that comes back. */
  method CollectIds(ids: seq<string>) returns (ok: bool, seen: set<string>)
    ensures ok <==> DistinctIds(ids)
    ensures ok ==> seen == set id | id in ids
  {
    seen := {};
    var i := 0;
    while i < |ids|
      invariant 0 <= i <= |ids|
      invariant DistinctIds(ids[..i])
      invariant seen == set id | id in ids[..i]
    {
      if ids[i] in seen {
        var k :| 0 <= k < i && ids[..i][k] == ids[i];
        assert ids[k] == ids[i];
        return false, seen;
      }
      seen := seen + {ids[i]};
      assert ids[..i + 1] == ids[..i] + [ids[i]];
      i := i + 1;
    }
    assert ids[..i] == ids;
    ok := true;
  }

  /** `cited.find(id => !known.has(id))` */
  method FindUnknown(cited: seq<string>, known: set<string>) returns (unknown: Option<string>)
    ensures unknown == FirstUnknown(cited, known)
  {
    var i := 0;
    while i < |cited|
      invariant 0 <= i <= |cited|
      invariant FirstUnknown(cited, known) == FirstUnknown(cited[i..], known)
    {
      if cited[i] !in known {
        return Some(cited[i]);
      }
      i := i + 1;
    }
    unknown := None;
  }

  /** Every cited id is that of a human premise; ids are looked up in the map the evidence loop filled. */
  method OnlyPremises(cited: seq<string>, origins: map<string, Origin>) returns (only: bool)
    ensures only <==> forall id | id in cited :: id in origins && origins[id] == FromHumanPremise
  {
    var i := 0;
    while i < |cited|
      invariant 0 <= i <= |cited|
      invariant forall id | id in cited[..i] :: id in origins && origins[id] == FromHumanPremise
    {
      if cited[i] !in origins || origins[cited[i]] != FromHumanPremise {
        return false;
      }
      i := i + 1;
    }
    assert cited[..i] == cited;
    only := true;
  }

  /** The origin of each id. */
  method CollectOrigins(evidence: seq<EvidenceItem>) returns (origins: map<string, Origin>)
    requires DistinctIds(Ids(evidence))
    ensures forall e | e in evidence :: e.evidenceId in origins && origins[e.evidenceId] == e.origin
    ensures forall id | id in origins :: EvidenceItem(id, origins[id]) in evidence
  {
    origins := map[];
    var i := 0;
    while i < |evidence|
      invariant 0 <= i <= |evidence|
      invariant forall k | 0 <= k < i :: evidence[k].evidenceId in origins && origins[evidence[k].evidenceId] == evidence[k].origin
      invariant forall id | id in origins :: EvidenceItem(id, origins[id]) in evidence
    {
      assert forall k | 0 <= k < i :: Ids(evidence)[k] != Ids(evidence)[i];
      origins := origins[evidence[i].evidenceId := evidence[i].origin];
      i := i + 1;
    }
  }

  method FindingsPass(p: EvidencePackage, known: set<string>) returns (ok: bool)
    requires known == KnownIds(p) && DistinctIds(Ids(p.evidence))
    ensures ok <==> forall f | f in p.findings :: FindingPasses(f, p, known)
  {
    var origins := CollectOrigins(p.evidence);
    var i := 0;
    while i < |p.findings|
      invariant 0 <= i <= |p.findings|
      invariant forall f | f in p.findings[..i] :: FindingPasses(f, p, known)
    {
      var f := p.findings[i];
      assert f in p.findings;
      if f.evidenceIds == [] {
        return false;
      }
      var unknown := FindUnknown(f.evidenceIds, known);
      if unknown.Some? && unknown.value != "" {
        return false;
      }
      var only := OnlyPremises(f.evidenceIds, origins);
      OriginsDecide(f.evidenceIds, p.evidence, origins);
      if only && !(INFERENCE <= f.statement) {
        return false;
      }
      assert p.findings[..i + 1] == p.findings[..i] + [f];
      i := i + 1;
    }
    assert p.findings[..i] == p.findings;
    ok := true;
  }

  lemma OriginsDecide(cited: seq<string>, evidence: seq<EvidenceItem>, origins: map<string, Origin>)
    requires forall e | e in evidence :: e.evidenceId in origins && origins[e.evidenceId] == e.origin
    requires forall id | id in origins :: EvidenceItem(id, origins[id]) in evidence
    ensures CitesOnlyPremises(cited, evidence) <==>
            forall id | id in cited :: id in origins && origins[id] == FromHumanPremise
  {
    forall id | id in cited && id in origins && origins[id] == FromHumanPremise
      ensures exists e :: e in evidence && e.evidenceId == id && e.origin == FromHumanPremise
    {
      assert EvidenceItem(id, origins[id]) in evidence;
    }
  }

  method DecisionsPass(decisions: seq<Decision>, known: set<string>) returns (ok: bool)
    ensures ok <==> forall d | d in decisions :: CitationsPass(d.evidenceIds, known)
  {
    var i := 0;
    while i < |decisions|
      invariant 0 <= i <= |decisions|
      invariant forall d | d in decisions[..i] :: CitationsPass(d.evidenceIds, known)
    {
      var unknown := FindUnknown(decisions[i].evidenceIds, known);
      if unknown.Some? && unknown.value != "" {
        return false;
      }
      assert decisions[..i + 1] == decisions[..i] + [decisions[i]];
      i := i + 1;
    }
    assert decisions[..i] == decisions;
    ok := true;
  }

  method ValidateEvidencePackage(p: EvidencePackage) returns (ok: bool)
    ensures ok <==> Accepted(p)
  {
    if Blank(p.knowledgeSummary) || !LevelSupported(p) || !SizesFit(p) || p.evidenceIds != Ids(p.evidence) {
      return false;
    }
    var distinct, known := CollectIds(Ids(p.evidence));
    if !distinct {
      return false;
    }
    var findings := FindingsPass(p, known);
    if !findings {
      return false;
    }
    var decisions := DecisionsPass(p.decisions, known);
    if !decisions {
      return false;
    }
    var decided, _ := CollectIds(DecisionIds(p.decisions));
    ok := decided && forall l | l in p.limitations :: !l.blocking;
  }

  // ----- What acceptance means -----

  /** Every citation of the package names evidence of the package. */
  predicate CitationsKnown(p: EvidencePackage) {
    && (forall f | f in p.findings :: forall id | id in f.evidenceIds :: id in KnownIds(p))
    && (forall d | d in p.decisions :: forall id | id in d.evidenceIds :: id in KnownIds(p))
  }

  predicate CitesEmptyId(p: EvidencePackage) {
    || (exists f :: f in p.findings && "" in f.evidenceIds)
    || (exists d :: d in p.decisions && "" in d.evidenceIds)
  }

  /** An accepted package cites only its own evidence exactly when it does not cite an unknown empty id. */
  lemma {:induction false} AcceptedCitations(p: EvidencePackage)
    requires Accepted(p)
    ensures CitationsKnown(p) <==> (CitesEmptyId(p) ==> "" in KnownIds(p))
  {
    if CitesEmptyId(p) ==> "" in KnownIds(p) {
      forall f | f in p.findings
        ensures forall id | id in f.evidenceIds :: id in KnownIds(p)
      {
        assert FindingPasses(f, p, KnownIds(p));
      }
      forall d | d in p.decisions
        ensures forall id | id in d.evidenceIds :: id in KnownIds(p)
      {
        assert CitationsPass(d.evidenceIds, KnownIds(p));
      }
    }
  }

  /** An accepted package may cite evidence that does not exist: an unknown id hides behind an empty one. */
  lemma {:induction false} EmptyIdHidesUnknown() returns (p: EvidencePackage)
    ensures Accepted(p) && !CitationsKnown(p)
    ensures exists f, id :: f in p.findings && id in f.evidenceIds && id != "" && id !in KnownIds(p)
  {
    var f := Finding("s", ["", "missing"]);
    p := EvidencePackage("summary", [], [], [], [f], [], None, None);
    assert TrimStart("summary") == "summary" && TrimEnd("summary") == "summary";
    assert FirstUnknown(f.evidenceIds, {}) == Some("");
    assert "" in f.evidenceIds by { assert f.evidenceIds[0] == ""; }
    assert "missing" in f.evidenceIds by { assert f.evidenceIds[1] == "missing"; }
    assert KnownIds(p) == {};
    assert FindingPasses(f, p, {});
    assert f in p.findings && "missing" in f.evidenceIds && "missing" != "" && "missing" !in KnownIds(p);
  }

  // ----- Putting a package together -----

  function Tagged(ids: seq<string>, origin: Origin): (items: seq<EvidenceItem>)
    ensures Ids(items) == ids
    ensures forall e | e in items :: e.origin == origin
  {
    var items := seq(|ids|, i requires 0 <= i < |ids| => EvidenceItem(ids[i], origin));
    assert Ids(items) == ids;
    items
  }

  function CreateEvidencePackage(inherited: seq<string>, supplemental: seq<string>, premises: seq<string>,
                                 draft: EvidencePackage): EvidencePackage
  {
    var evidence := Tagged(inherited, FromGrill) + Tagged(supplemental, FromDeepRetrieval) + Tagged(premises, FromHumanPremise);
    draft.(evidence := evidence, evidenceIds := Ids(evidence))
  }

  /** A created package lists the given ids in order, so it is accepted or refused on its other merits and on whether
      the three sources share an id. */
  lemma CreatedPackage(inherited: seq<string>, supplemental: seq<string>, premises: seq<string>, draft: EvidencePackage)
    ensures
      var p := CreateEvidencePackage(inherited, supplemental, premises, draft);
      && p.evidenceIds == inherited + supplemental + premises
      && (Accepted(p) ==> DistinctIds(inherited + supplemental + premises))
      && (forall f | f in p.findings && Accepted(p) && !(INFERENCE <= f.statement) ::
            exists id :: id in f.evidenceIds && id !in premises)
  {
    var p := CreateEvidencePackage(inherited, supplemental, premises, draft);
    assert p.evidenceIds == inherited + supplemental + premises;
    forall id | id in premises
      ensures EvidenceItem(id, FromHumanPremise) in p.evidence
    {
      var items := Tagged(premises, FromHumanPremise);
      var k :| 0 <= k < |premises| && premises[k] == id;
      assert Ids(items)[k] == items[k].evidenceId && items[k] in items;
    }
    forall f | f in p.findings && Accepted(p) && !(INFERENCE <= f.statement)
      ensures exists id :: id in f.evidenceIds && id !in premises
    {
      assert FindingPasses(f, p, KnownIds(p));
    }
  }
}
