/** The candidates a model proposes from an evidence package, a glossary or a set of decisions, and their validators. */
module Candidates {
  import opened Text

  datatype GlossaryEntry = GlossaryEntry(term: string, definition: string, evidenceIds: seq<string>)

  datatype ContextCandidate = ContextCandidate(glossary: seq<GlossaryEntry>)

  datatype Ambiguity = Ambiguity(
    decisionId: string, question: string, options: seq<string>, recommendation: string, evidenceIds: seq<string>)

  datatype AdrRecord = AdrRecord(
    decision: string, rationale: string, consequences: seq<string>, citations: seq<string>)

  /** `looksSecret` is the verdict of the secret patterns on the hand-off's text. */
  datatype Handoff = Handoff(
    summary: string, nextSessionFocus: string, references: seq<string>, suggestedSkills: seq<string>,
    looksSecret: bool)

  datatype AdrCandidate = AdrCandidate(records: seq<AdrRecord>, handoff: Handoff)

  datatype Complaint =
    | EmptyTerm | EmptyDefinition | EntryWithoutEvidence(term: string) | UnknownEvidence(id: string)
    | EmptyDecisionId | EmptyQuestion | TooFewOptions | BadRecommendation | AmbiguityWithoutEvidence
    | NoRecords | EmptyDecision | EmptyRationale | NoConsequence(decision: string) | NoCitation(decision: string)
    | EmptySummary | EmptyFocus | MissingReferences | NoSkill | SecretInHandoff

  predicate AnyBlank(texts: seq<string>) { exists t | t in texts :: Blank(t) }

  // ----- What a sound candidate is -----

  /** At least one citation, and none but of known evidence. */
  predicate CitesKnown(cited: seq<string>, known: seq<string>) {
    cited != [] && forall id | id in cited :: id in known
  }

  predicate RecordSound(r: AdrRecord, known: seq<string>) {
    && !Blank(r.decision) && !Blank(r.rationale)
    && r.consequences != [] && !AnyBlank(r.consequences)
    && CitesKnown(r.citations, known)
  }

  predicate HandoffSound(h: Handoff) {
    && !Blank(h.summary) && !Blank(h.nextSessionFocus)
    && "Documents/CONTEXT.md" in h.references && "Documents/ADR.md" in h.references
    && h.suggestedSkills != [] && !AnyBlank(h.suggestedSkills) && !h.looksSecret
  }

  predicate AdrSound(candidate: AdrCandidate, known: seq<string>) {
    && candidate.records != []
    && (forall r | r in candidate.records :: RecordSound(r, known))
    && HandoffSound(candidate.handoff)
  }

  predicate EntrySound(e: GlossaryEntry, known: seq<string>) {
    !Blank(e.term) && !Blank(e.definition) && CitesKnown(e.evidenceIds, known)
  }

  predicate GlossarySound(candidate: ContextCandidate, known: seq<string>) {
    forall e | e in candidate.glossary :: EntrySound(e, known)
  }

  predicate AmbiguitySound(a: Ambiguity, known: seq<string>) {
    && !Blank(a.decisionId) && !Blank(a.question)
    && 2 <= |a.options| && !AnyBlank(a.options)
    && !Blank(a.recommendation) && a.recommendation in a.options
    && CitesKnown(a.evidenceIds, known)
  }

  // ----- The validators: they collect every complaint, and stay silent exactly on sound candidates -----

  /** One more complaint, if there is reason for it. */
  function Complain(errors: seq<Complaint>, bad: bool, complaint: Complaint): (r: seq<Complaint>)
    ensures r == [] <==> errors == [] && !bad
    ensures errors <= r
  {
    if bad then errors + [complaint] else errors
  }

  function Joined(errors: seq<Complaint>, more: seq<Complaint>): (r: seq<Complaint>)
    ensures r == [] <==> errors == [] && more == []
  {
    errors + more
  }

  ghost predicate AllHold<T(!new)>(holds: T -> bool, items: seq<T>) {
    forall x | x in items :: holds(x)
  }

  lemma OneMoreHolds<T(!new)>(holds: T -> bool, items: seq<T>, i: nat)
    requires i < |items|
    ensures AllHold(holds, items[..i + 1]) <==> AllHold(holds, items[..i]) && holds(items[i])
  {
    assert items[..i + 1] == items[..i] + [items[i]];
  }

  method CheckCitations(cited: seq<string>, known: seq<string>) returns (errors: seq<Complaint>)
    ensures forall c | c in errors :: c.UnknownEvidence? && c.id in cited && c.id !in known
    ensures forall id | id in cited && id !in known :: UnknownEvidence(id) in errors
  {
    errors := [];
    var i := 0;
    while i < |cited|
      invariant 0 <= i <= |cited|
      invariant forall c | c in errors :: c.UnknownEvidence? && c.id in cited && c.id !in known
      invariant forall id | id in cited[..i] && id !in known :: UnknownEvidence(id) in errors
    {
      if cited[i] !in known {
        errors := errors + [UnknownEvidence(cited[i])];
      }
      i := i + 1;
    }
    assert cited[..i] == cited;
  }

  lemma SilentOnKnown(cited: seq<string>, known: seq<string>, errors: seq<Complaint>)
    requires forall c | c in errors :: c.UnknownEvidence? && c.id in cited && c.id !in known
    requires forall id | id in cited && id !in known :: UnknownEvidence(id) in errors
    ensures errors == [] <==> forall id | id in cited :: id in known
  {
    if errors != [] {
      assert errors[0] in errors;
    }
  }

  method CheckRecord(r: AdrRecord, known: seq<string>) returns (errors: seq<Complaint>)
    ensures errors == [] <==> RecordSound(r, known)
  {
    errors := Complain([], Blank(r.decision), EmptyDecision);
    errors := Complain(errors, Blank(r.rationale), EmptyRationale);
    errors := Complain(errors, r.consequences == [] || AnyBlank(r.consequences), NoConsequence(r.decision));
    if r.citations == [] {
      errors := Complain(errors, true, NoCitation(r.decision));
    } else {
      var unknown := CheckCitations(r.citations, known);
      SilentOnKnown(r.citations, known, unknown);
      errors := Joined(errors, unknown);
    }
  }

  method ValidateAdrBuildCandidate(candidate: AdrCandidate, known: seq<string>) returns (errors: seq<Complaint>)
    ensures errors == [] <==> AdrSound(candidate, known)
  {
    var records := CheckRecords(candidate.records, known);
    var last := CheckHandoff(candidate.handoff);
    errors := Joined(Complain([], candidate.records == [], NoRecords), Joined(records, last));
  }

  method CheckRecords(records: seq<AdrRecord>, known: seq<string>) returns (errors: seq<Complaint>)
    ensures errors == [] <==> forall r | r in records :: RecordSound(r, known)
  {
    ghost var sound := r => RecordSound(r, known);
    errors := [];
    var i := 0;
    while i < |records|
      invariant 0 <= i <= |records|
      invariant errors == [] <==> AllHold(sound, records[..i])
    {
      var more := CheckRecord(records[i], known);
      OneMoreHolds(sound, records, i);
      errors := Joined(errors, more);
      i := i + 1;
    }
    assert records[..i] == records;
  }

  method CheckHandoff(h: Handoff) returns (errors: seq<Complaint>)
    ensures errors == [] <==> HandoffSound(h)
  {
    errors := Complain([], Blank(h.summary), EmptySummary);
    errors := Complain(errors, Blank(h.nextSessionFocus), EmptyFocus);
    errors := Complain(
      errors, !("Documents/CONTEXT.md" in h.references && "Documents/ADR.md" in h.references), MissingReferences);
    errors := Complain(errors, h.suggestedSkills == [] || AnyBlank(h.suggestedSkills), NoSkill);
    errors := Complain(errors, h.looksSecret, SecretInHandoff);
  }

  method CheckEntry(e: GlossaryEntry, known: seq<string>) returns (errors: seq<Complaint>)
    ensures errors == [] <==> EntrySound(e, known)
  {
    errors := Complain([], Blank(e.term), EmptyTerm);
    errors := Complain(errors, Blank(e.definition), EmptyDefinition);
    if e.evidenceIds == [] {
      return Complain(errors, true, EntryWithoutEvidence(e.term));
    }
    var unknown := CheckCitations(e.evidenceIds, known);
    SilentOnKnown(e.evidenceIds, known, unknown);
    errors := Joined(errors, unknown);
  }

  method ValidateContextCandidate(candidate: ContextCandidate, known: seq<string>) returns (errors: seq<Complaint>)
    ensures errors == [] <==> GlossarySound(candidate, known)
  {
    var glossary := candidate.glossary;
    ghost var sound := e => EntrySound(e, known);
    errors := [];
    var i := 0;
    while i < |glossary|
      invariant 0 <= i <= |glossary|
      invariant errors == [] <==> AllHold(sound, glossary[..i])
    {
      var more := CheckEntry(glossary[i], known);
      OneMoreHolds(sound, glossary, i);
      errors := Joined(errors, more);
      i := i + 1;
    }
    assert glossary[..i] == glossary;
  }

  method ValidateContextAmbiguity(a: Ambiguity, known: seq<string>) returns (errors: seq<Complaint>)
    ensures errors == [] <==> AmbiguitySound(a, known)
  {
    errors := Complain([], Blank(a.decisionId), EmptyDecisionId);
    errors := Complain(errors, Blank(a.question), EmptyQuestion);
    errors := Complain(errors, |a.options| < 2 || AnyBlank(a.options), TooFewOptions);
    errors := Complain(errors, Blank(a.recommendation) || a.recommendation !in a.options, BadRecommendation);
    if a.evidenceIds == [] {
      errors := Complain(errors, true, AmbiguityWithoutEvidence);
    } else {
      var unknown := CheckCitations(a.evidenceIds, known);
      SilentOnKnown(a.evidenceIds, known, unknown);
      errors := Joined(errors, unknown);
    }
  }
}
