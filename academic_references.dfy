/**
 * Reference selection of services/academic_reference_system.py: the topic a
 * ToR is about, the references chosen for it, the bibliography of every
 * citation on file, and the theory explanations. The reference and source
 * databases are data: the model takes them as parameters.
 */
module AcademicReferences {
  import opened Wrappers
  import opened PyStr
  import opened JsonValue

  // ---------------------------------------------------------------------------
  // _detect_project_topic
  // ---------------------------------------------------------------------------

  const GovernanceWords: seq<string> := ["governance", "democracy", "participation", "citizen"]
  const EconomicWords: seq<string> := ["economic", "livelihood", "income", "employment"]
  const ClimateWords: seq<string> := ["climate", "disaster", "resilience", "adaptation"]

  /** The four topics the reference mapping knows. */
  const Topics: set<string> := {"community_development", "governance", "economic_development", "climate_resilience"}

  /** `any(word in text for word in words)`. */
  predicate MentionsAny(text: string, words: seq<string>) {
    exists i :: 0 <= i < |words| && Contains(text, words[i])
  }

  /**
   * The topic of a ToR: keyword groups checked in the order governance,
   * economic development, climate resilience on the lower-cased text, with
   * community development as the fallback.
   */
  function DetectProjectTopic(torContent: string): (topic: string)
    ensures topic in Topics
  {
    var content := Lower(torContent);
    if MentionsAny(content, GovernanceWords) then "governance"
    else if MentionsAny(content, EconomicWords) then "economic_development"
    else if MentionsAny(content, ClimateWords) then "climate_resilience"
    else "community_development"
  }

  lemma LowerCharIdempotent(c: char)
    ensures LowerChar(LowerChar(c)) == LowerChar(c)
  {
  }

  lemma LowerIdempotent(s: string)
    ensures Lower(Lower(s)) == Lower(s)
  {
    forall i | 0 <= i < |s|
      ensures Lower(Lower(s))[i] == Lower(s)[i]
    {
      LowerCharIdempotent(s[i]);
    }
  }

  /**
   * The topic depends only on the lower-cased text, a keyword of an earlier
   * group wins over any later one, and the fallback is taken exactly when
   * no keyword occurs.
   */
  lemma DetectProjectTopicSpec(torContent: string)
    ensures DetectProjectTopic(Lower(torContent)) == DetectProjectTopic(torContent)
    ensures MentionsAny(Lower(torContent), GovernanceWords) ==> DetectProjectTopic(torContent) == "governance"
    ensures DetectProjectTopic(torContent) == "economic_development" <==>
      !MentionsAny(Lower(torContent), GovernanceWords) && MentionsAny(Lower(torContent), EconomicWords)
    ensures DetectProjectTopic(torContent) == "climate_resilience" <==>
      !MentionsAny(Lower(torContent), GovernanceWords) && !MentionsAny(Lower(torContent), EconomicWords) &&
      MentionsAny(Lower(torContent), ClimateWords)
    ensures DetectProjectTopic(torContent) == "community_development" <==>
      !MentionsAny(Lower(torContent), GovernanceWords) && !MentionsAny(Lower(torContent), EconomicWords) &&
      !MentionsAny(Lower(torContent), ClimateWords)
  {
    LowerIdempotent(torContent);
  }

  // ---------------------------------------------------------------------------
  // generate_contextualized_references
  // ---------------------------------------------------------------------------

  /** One entry of `topic_mapping`: database names to look up, by kind. */
  datatype TopicRefs = TopicRefs(
    theories: seq<string>,
    methods: seq<string>,
    evals: seq<string>,
    frameworks: seq<string>,
    sectors: seq<string>)

  const CommunityDevelopmentRefs := TopicRefs(
    ["capability_approach", "asset_based_development", "social_capital"],
    ["participatory_development", "theory_of_change"],
    ["most_significant_change", "outcome_harvesting"],
    ["SDGs"],
    ["education", "health", "agriculture"])

  /** `topic_mapping`. */
  function TopicMapping(topic: string): Option<TopicRefs> {
    if topic == "community_development" then Some(CommunityDevelopmentRefs)
    else if topic == "governance" then
      Some(TopicRefs(["social_capital"], ["participatory_development"],
        ["most_significant_change", "developmental_evaluation"], ["SDGs"], ["education"]))
    else if topic == "economic_development" then
      Some(TopicRefs(["capability_approach"], ["results_based_management", "theory_of_change"],
        ["outcome_harvesting"], ["SDGs"], ["agriculture", "education"]))
    else if topic == "climate_resilience" then
      Some(TopicRefs(["asset_based_development"], ["participatory_development", "results_based_management"],
        ["outcome_harvesting"], ["Paris_Agreement", "Sendai_Framework"], ["agriculture"]))
    else None
  }

  /** `topic_mapping.get(topic, topic_mapping["community_development"])`. */
  function TopicRefsFor(topic: string): TopicRefs {
    TopicMapping(topic).GetOr(CommunityDevelopmentRefs)
  }

  /** Every detected topic has its own mapping entry: the fallback entry is reached only through the fallback topic. */
  lemma DetectedTopicIsMapped(torContent: string)
    ensures TopicMapping(DetectProjectTopic(torContent)).Some?
    ensures TopicRefsFor(DetectProjectTopic(torContent)) == TopicMapping(DetectProjectTopic(torContent)).value
  {
  }

  /** `reference_database`, one catalogue per category, each by name. */
  datatype ReferenceDatabase = ReferenceDatabase(
    internationalFrameworks: map<string, Value>,
    developmentTheories: map<string, Value>,
    methodologicalApproaches: map<string, Value>,
    evaluationMethods: map<string, Value>)

  /** `guatemala_data_sources`, one catalogue per category, each by name. */
  datatype GuatemalaSources = GuatemalaSources(
    nationalStatistics: map<string, Value>,
    academicInstitutions: map<string, Value>,
    internationalPresence: map<string, Value>,
    sectorSpecific: map<string, Value>)

  datatype SectorData = SectorData(sector: string, data: Value)

  /** The result of `generate_contextualized_references`, one list per key. */
  datatype RelevantRefs = RelevantRefs(
    internationalFrameworks: seq<Value>,
    theoreticalFoundations: seq<Value>,
    methodologicalApproaches: seq<Value>,
    evaluationMethods: seq<Value>,
    guatemalaContext: seq<Value>,
    sectorSpecific: seq<SectorData>,
    dataSources: seq<Value>)

  /** The catalogue entries of the names found in it, in the order of the names. */
  function Present(names: seq<string>, catalogue: map<string, Value>): (r: seq<Value>)
    ensures |r| <= |names|
  {
    if names == [] then []
    else
      var n := names[|names| - 1];
      Present(names[..|names| - 1], catalogue) + if n in catalogue then [catalogue[n]] else []
  }

  /**
   * An entry is chosen exactly when some mapped name is in the catalogue
   * with that entry; when every name is found, the entries come one per
   * name, in order.
   */
  lemma {:induction false} PresentSpec(names: seq<string>, catalogue: map<string, Value>)
    ensures forall x :: x in Present(names, catalogue) <==>
      exists i :: 0 <= i < |names| && names[i] in catalogue && catalogue[names[i]] == x
    ensures (forall i :: 0 <= i < |names| ==> names[i] in catalogue) ==>
      Present(names, catalogue) == seq(|names|, i requires 0 <= i < |names| => catalogue[names[i]])
  {
    if names != [] {
      var init := names[..|names| - 1];
      PresentSpec(init, catalogue);
      forall x
        ensures x in Present(names, catalogue) <==>
          exists i :: 0 <= i < |names| && names[i] in catalogue && catalogue[names[i]] == x
      {
        if x in Present(names, catalogue) && x !in Present(init, catalogue) {
          assert names[|names| - 1] in catalogue && catalogue[names[|names| - 1]] == x;
        }
        if exists i :: 0 <= i < |names| && names[i] in catalogue && catalogue[names[i]] == x {
          var i :| 0 <= i < |names| && names[i] in catalogue && catalogue[names[i]] == x;
          if i < |names| - 1 {
            assert init[i] == names[i];
          }
        }
      }
    }
  }

  /** The sector entries found in the sector catalogue, in order, each with its name. */
  function PresentSectors(sectors: seq<string>, catalogue: map<string, Value>): (r: seq<SectorData>)
    ensures |r| <= |sectors|
    ensures forall i :: 0 <= i < |r| ==> r[i].sector in catalogue && r[i].data == catalogue[r[i].sector]
  {
    if sectors == [] then []
    else
      var s := sectors[|sectors| - 1];
      PresentSectors(sectors[..|sectors| - 1], catalogue) + if s in catalogue then [SectorData(s, catalogue[s])] else []
  }

  /** One of the lookup loops: the entries of the names found in the catalogue. */
  method AppendPresent(names: seq<string>, catalogue: map<string, Value>) returns (refs: seq<Value>)
    ensures refs == Present(names, catalogue)
  {
    refs := [];
    for i := 0 to |names|
      invariant refs == Present(names[..i], catalogue)
    {
      assert names[..i + 1][..i] == names[..i];
      if names[i] in catalogue {
        refs := refs + [catalogue[names[i]]];
      } else {
        assert refs + [] == refs;
      }
    }
    assert names[..|names|] == names;
  }

  /** The sector loop. */
  method AppendSectors(sectors: seq<string>, catalogue: map<string, Value>) returns (refs: seq<SectorData>)
    ensures refs == PresentSectors(sectors, catalogue)
  {
    refs := [];
    for i := 0 to |sectors|
      invariant refs == PresentSectors(sectors[..i], catalogue)
    {
      assert sectors[..i + 1][..i] == sectors[..i];
      if sectors[i] in catalogue {
        refs := refs + [SectorData(sectors[i], catalogue[sectors[i]])];
      } else {
        assert refs + [] == refs;
      }
    }
    assert sectors[..|sectors|] == sectors;
  }

  /** The four fixed national sources `guatemala_context` reads by key. */
  predicate HasContextSources(g: GuatemalaSources) {
    "INE" in g.nationalStatistics && "SEGEPLAN" in g.nationalStatistics &&
    "FLACSO_Guatemala" in g.academicInstitutions && "UNDP_Guatemala" in g.internationalPresence
  }

  /**
   * `generate_contextualized_references`: the references mapped to the
   * topic detected in the ToR (the `topicArea` and `geographicFocus`
   * arguments are not read), the four national context sources (KeyError
   * when one is missing), the sectors on file, and no data sources.
   */
  method GenerateContextualizedReferences(
    db: ReferenceDatabase, sources: GuatemalaSources, torContent: string,
    topicArea: string, geographicFocus: Option<string>)
    returns (r: Result<RelevantRefs>)
    ensures r.Err? <==> !HasContextSources(sources)
    ensures r.Err? ==> r.error == "KeyError"
    ensures r.Ok? ==>
      var refs := TopicRefsFor(DetectProjectTopic(torContent));
      && r.value.internationalFrameworks == Present(refs.frameworks, db.internationalFrameworks)
      && r.value.theoreticalFoundations == Present(refs.theories, db.developmentTheories)
      && r.value.methodologicalApproaches == Present(refs.methods, db.methodologicalApproaches)
      && r.value.evaluationMethods == Present(refs.evals, db.evaluationMethods)
      && r.value.guatemalaContext == [
           sources.nationalStatistics["INE"], sources.nationalStatistics["SEGEPLAN"],
           sources.academicInstitutions["FLACSO_Guatemala"], sources.internationalPresence["UNDP_Guatemala"]]
      && r.value.sectorSpecific == PresentSectors(refs.sectors, sources.sectorSpecific)
      && r.value.dataSources == []
  {
    var topic := DetectProjectTopic(torContent);
    var refs := TopicRefsFor(topic);
    var frameworks := AppendPresent(refs.frameworks, db.internationalFrameworks);
    var theories := AppendPresent(refs.theories, db.developmentTheories);
    var methods := AppendPresent(refs.methods, db.methodologicalApproaches);
    var evals := AppendPresent(refs.evals, db.evaluationMethods);
    if !HasContextSources(sources) {
      return Err("KeyError");
    }
    var context := [
      sources.nationalStatistics["INE"], sources.nationalStatistics["SEGEPLAN"],
      sources.academicInstitutions["FLACSO_Guatemala"], sources.internationalPresence["UNDP_Guatemala"]];
    var sectors := AppendSectors(refs.sectors, sources.sectorSpecific);
    r := Ok(RelevantRefs(frameworks, theories, methods, evals, context, sectors, []));
  }

  // ---------------------------------------------------------------------------
  // _generate_theory_explanation
  // ---------------------------------------------------------------------------

  /** `s.replace(a, b)` for single characters. */
  function ReplaceChar(s: string, a: char, b: char): (r: string)
    ensures |r| == |s|
    ensures forall i :: 0 <= i < |s| ==> r[i] == if s[i] == a then b else s[i]
  {
    if s == [] then [] else [if s[0] == a then b else s[0]] + ReplaceChar(s[1..], a, b)
  }

  /** The lookup key made of a name: spaces to '_', then lower case. */
  function ExplanationKey(name: string): (key: string)
    ensures |key| == |name|
  {
    Lower(ReplaceChar(name, ' ', '_'))
  }

  const TheoryExplanations: map<string, string> := map[
    "capability_approach" := "el desarrollo debe enfocarse en expandir las capacidades humanas y las libertades reales de las personas",
    "asset_based_development" := "las comunidades poseen activos y capacidades internas que deben ser identificados y movilizados",
    "social_capital" := "las redes sociales, la confianza y la reciprocidad son recursos fundamentales para el desarrollo"
  ]

  const DefaultTheoryExplanation := "proporciona un marco conceptual sólido para el desarrollo comunitario"

  /**
   * `_generate_theory_explanation` as written: the key is made of the
   * entry's "theory" field; `.replace` on a non-string raises.
   */
  function TheoryExplanation(theory: Value): (r: Result<string>)
    ensures r.Ok? ==> r.value == DefaultTheoryExplanation || r.value in TheoryExplanations.Values
  {
    if !theory.Obj? then Err("AttributeError")
    else
      var name := if "theory" in theory.fields then theory.fields["theory"] else Str("");
      if !name.Str? then Err("AttributeError")
      else
        var key := ExplanationKey(name.s);
        Ok(if key in TheoryExplanations then TheoryExplanations[key] else DefaultTheoryExplanation)
  }

  /** The "theory" fields of the three development theories on file, by database name. */
  const ShippedTheoryNames: map<string, string> := map[
    "capability_approach" := "Capability Approach to Development",
    "asset_based_development" := "Asset-Based Community Development (ABCD)",
    "social_capital" := "Social Capital Theory"
  ]

  /**
   * As written, none of the theories on file gets its explanation: their
   * "theory" fields make keys of 34, 40 and 21 characters, while the
   * explanations are filed under the database names, of 19, 23 and 14.
   */
  lemma TheoryExplanationMissesShipped(name: string)
    requires name in ShippedTheoryNames
    ensures TheoryExplanation(Obj(map["theory" := Str(ShippedTheoryNames[name])])) == Ok(DefaultTheoryExplanation)
  {
    var theory := ShippedTheoryNames[name];
    assert |theory| in {34, 40, 21};
    KeyNotFiled(theory);
  }

  /** No name of a length other than those of the filed keys finds an explanation. */
  lemma KeyNotFiled(theory: string)
    requires |theory| !in {19, 23, 14}
    ensures TheoryExplanation(Obj(map["theory" := Str(theory)])) == Ok(DefaultTheoryExplanation)
  {
  }

  /** The explanation looked up by the theory's database name, as the table is keyed. */
  function TheoryExplanationByName(name: string): (r: string)
    ensures r == DefaultTheoryExplanation || r in TheoryExplanations.Values
  {
    if name in TheoryExplanations then TheoryExplanations[name] else DefaultTheoryExplanation
  }

  /** Looked up by database name, every theory on file gets its own explanation, never the default. */
  lemma TheoryExplanationByNameShipped(name: string)
    requires name in ShippedTheoryNames
    ensures TheoryExplanationByName(name) == TheoryExplanations[name]
    ensures TheoryExplanationByName(name) != DefaultTheoryExplanation
  {
  }

  // ---------------------------------------------------------------------------
  // generate_bibliography
  // ---------------------------------------------------------------------------

  /** Python's `<` on strings: code point by code point, a proper prefix first. */
  predicate StrLess(a: string, b: string)
    decreases |a|
  {
    if a == [] then b != []
    else b != [] && (a[0] < b[0] || (a[0] == b[0] && StrLess(a[1..], b[1..])))
  }

  lemma {:induction false} StrLessIrreflexive(a: string)
    ensures !StrLess(a, a)
    decreases |a|
  {
    if a != [] {
      StrLessIrreflexive(a[1..]);
    }
  }

  lemma {:induction false} StrLessTransitive(a: string, b: string, c: string)
    requires StrLess(a, b) && StrLess(b, c)
    ensures StrLess(a, c)
    decreases |a|
  {
    if a != [] && a[0] == b[0] && b[0] == c[0] {
      StrLessTransitive(a[1..], b[1..], c[1..]);
    }
  }

  lemma {:induction false} StrLessTotal(a: string, b: string)
    requires a != b
    ensures StrLess(a, b) || StrLess(b, a)
    decreases |a|
  {
    if a != [] && b != [] && a[0] == b[0] {
      assert a == [a[0]] + a[1..] && b == [b[0]] + b[1..];
      StrLessTotal(a[1..], b[1..]);
    }
  }

  /** A finite non-empty set of strings has a least element. */
  lemma {:induction false} LeastExists(s: set<string>)
    requires s != {}
    ensures exists m :: m in s && forall x :: x in s && x != m ==> StrLess(m, x)
    decreases |s|
  {
    var x :| x in s;
    var rest := s - {x};
    if rest == {} {
      assert forall y :: y in s && y != x ==> y in rest;
    } else {
      LeastExists(rest);
      var m :| m in rest && forall y :: y in rest && y != m ==> StrLess(m, y);
      StrLessTotal(x, m);
      if StrLess(x, m) {
        forall y | y in s && y != x
          ensures StrLess(x, y)
        {
          if y != m {
            StrLessTransitive(x, m, y);
          }
        }
      } else {
        assert forall y :: y in s && y != m ==> StrLess(m, y);
      }
    }
  }

  /** Strictly increasing: sorted with no repeats. */
  predicate Increasing(r: seq<string>) {
    forall i, j :: 0 <= i < j < |r| ==> StrLess(r[i], r[j])
  }

  /** `sorted(set(...))`: the strings of the set, each once, in increasing order. */
  method SortCitations(s: set<string>) returns (r: seq<string>)
    ensures Increasing(r)
    ensures forall c :: c in r <==> c in s
  {
    r := [];
    var rest := s;
    while rest != {}
      invariant rest <= s
      invariant Increasing(r)
      invariant forall c :: c in r <==> c in s && c !in rest
      invariant forall i, c :: 0 <= i < |r| && c in rest ==> StrLess(r[i], c)
      decreases rest
    {
      LeastExists(rest);
      var m :| m in rest && forall x :: x in rest && x != m ==> StrLess(m, x);
      r := r + [m];
      rest := rest - {m};
    }
  }

  /** There is one increasing order of a set: two increasing sequences with the same strings are equal. */
  lemma {:induction false} IncreasingUnique(a: seq<string>, b: seq<string>)
    requires Increasing(a) && Increasing(b)
    requires forall c :: c in a <==> c in b
    ensures a == b
    decreases |a|
  {
    if a != [] {
      assert a[0] in a;
    }
    if b != [] {
      assert b[0] in b;
    }
    if a != [] && b != [] {
      if a[0] != b[0] {
        var j :| 0 <= j < |b| && b[j] == a[0];
        var k :| 0 <= k < |a| && a[k] == b[0];
        assert StrLess(b[0], a[0]);
        assert StrLess(a[0], b[0]);
        StrLessTransitive(a[0], b[0], a[0]);
        StrLessIrreflexive(a[0]);
      }
      forall c
        ensures c in a[1..] ==> c in b[1..]
        ensures c in b[1..] ==> c in a[1..]
      {
        StrLessIrreflexive(c);
        if c in a[1..] {
          var i :| 0 <= i < |a| - 1 && a[1..][i] == c;
          assert a[i + 1] == c && StrLess(a[0], c);
          assert c in b;
          var j :| 0 <= j < |b| && b[j] == c;
          assert j != 0;
          assert b[1..][j - 1] == c;
        }
        if c in b[1..] {
          var i :| 0 <= i < |b| - 1 && b[1..][i] == c;
          assert b[i + 1] == c && StrLess(b[0], c);
          assert c in a;
          var j :| 0 <= j < |a| && a[j] == c;
          assert j != 0;
          assert a[1..][j - 1] == c;
        }
      }
      IncreasingUnique(a[1..], b[1..]);
      assert a == [a[0]] + a[1..] && b == [b[0]] + b[1..];
    }
  }

  /** The citation of an entry: a dict whose "citation" is a non-empty string. */
  function CitationOf(v: Value): Option<string> {
    if v.Obj? && "citation" in v.fields && v.fields["citation"].Str? && v.fields["citation"].s != []
    then Some(v.fields["citation"].s) else None
  }

  /** The citations of the entries of one catalogue. */
  function CatalogueCitations(m: map<string, Value>): set<string> {
    set n | n in m && CitationOf(m[n]).Some? :: CitationOf(m[n]).value
  }

  /** The citations of one source category: a source's own, else those of its sub-sources. */
  function SourceCitations(m: map<string, Value>): set<string> {
    CatalogueCitations(m) +
    set n, sub | n in m && m[n].Obj? && CitationOf(m[n]).None? && sub in m[n].fields &&
      CitationOf(m[n].fields[sub]).Some? :: CitationOf(m[n].fields[sub]).value
  }

  /** Every citation `generate_bibliography` collects. */
  function CollectedCitations(db: ReferenceDatabase, g: GuatemalaSources): set<string> {
    CatalogueCitations(db.internationalFrameworks) + CatalogueCitations(db.developmentTheories) +
    CatalogueCitations(db.methodologicalApproaches) + CatalogueCitations(db.evaluationMethods) +
    SourceCitations(g.nationalStatistics) + SourceCitations(g.academicInstitutions) +
    SourceCitations(g.internationalPresence) + SourceCitations(g.sectorSpecific)
  }

  const BibliographyHeader := "\n## REFERENCIAS BIBLIOGRÁFICAS\n\n"

  /** One bullet per citation, each followed by a blank line. */
  function Entries(cs: seq<string>): string {
    if cs == [] then "" else Entries(cs[..|cs| - 1]) + "• " + cs[|cs| - 1] + "\n\n"
  }

  /**
   * `generate_bibliography`: the header, then every collected citation once,
   * in increasing order. `referencesUsed` is not read.
   */
  method GenerateBibliography(db: ReferenceDatabase, sources: GuatemalaSources, referencesUsed: seq<string>)
    returns (bibliography: string)
    ensures exists cs ::
      (Increasing(cs) && (forall c :: c in cs <==> c in CollectedCitations(db, sources)) &&
       bibliography == BibliographyHeader + Entries(cs))
  {
    bibliography := BibliographyHeader;
    var unique := SortCitations(CollectedCitations(db, sources));
    for i := 0 to |unique|
      invariant bibliography == BibliographyHeader + Entries(unique[..i])
    {
      assert unique[..i + 1][..i] == unique[..i];
      bibliography := bibliography + "• " + unique[i] + "\n\n";
    }
    assert unique[..|unique|] == unique;
  }
}
