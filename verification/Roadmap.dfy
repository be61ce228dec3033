/**
 * `PdfGeneratorService`: the roadmap document as the ordered paragraphs
 * `generateRoadmapPdf` adds, before the renderer turns them into bytes,
 * and `fetchResourcesForSkill`, which never fails but may find nothing.
 */
module Roadmap {
  import opened Wrappers
  import opened JavaText
  import opened Records
  import opened Http
  import OpenAi

  const SkillsHeading: string := "\nSkills:"
  const ResourcesHeading: string := "\nLearning Resources:"
  const NoResources: string := "No resources available."
  const Separator: string := "\n"
  const SkillPrefix: string := "Skill: "

  /** A skill together with the outcome of its resource lookup (`None`: failed or null). */
  datatype Entry = Entry(skill: Skill, lookup: Option<seq<Resource>>)

  function TitleLine(topic: string): string {
    "Roadmap for: " + topic
  }

  function SkillLine(s: Skill): string {
    SkillPrefix + Show(s.name)
  }

  function DescriptionLine(s: Skill): string {
    "Description: " + Show(s.description)
  }

  function ResourceLine(r: Resource): string {
    " - " + Show(r.title) + " (" + Show(r.kind) + ")"
  }

  function UrlLine(r: Resource): string {
    "   URL: " + Show(r.url)
  }

  /** The lookup found at least one resource. */
  predicate Found(lookup: Option<seq<Resource>>) {
    lookup.Some? && |lookup.value| > 0
  }

  /** Paragraphs per section: three heading lines, the listing, the separator. */
  function SectionSize(e: Entry): nat {
    4 + (if Found(e.lookup) then 2 * |e.lookup.value| else 1)
  }

  /** Paragraphs of all sections: the sum of their sizes. */
  function Count(es: seq<Entry>): nat {
    if |es| == 0 then 0 else SectionSize(es[0]) + Count(es[1..])
  }

  /** Two paragraphs per resource, title line then URL line, in list order. */
  function ResourceLines(rs: seq<Resource>): (lines: seq<string>)
    ensures |lines| == 2 * |rs|
    ensures forall i :: 0 <= i < |rs| ==> lines[2 * i] == ResourceLine(rs[i]) && lines[2 * i + 1] == UrlLine(rs[i])
  {
    if |rs| == 0 then []
    else
      var rest := ResourceLines(rs[1..]);
      assert forall i :: 1 <= i < |rs| ==> rs[i] == rs[1..][i - 1];
      [ResourceLine(rs[0]), UrlLine(rs[0])] + rest
  }

  /** The paragraphs the loop body adds for one skill. */
  function Section(e: Entry): (sec: seq<string>)
    ensures |sec| == SectionSize(e)
    ensures sec[..3] == [SkillLine(e.skill), DescriptionLine(e.skill), ResourcesHeading]
    ensures sec[|sec| - 1] == Separator
    ensures Found(e.lookup) ==> sec[3 .. |sec| - 1] == ResourceLines(e.lookup.value)
    ensures !Found(e.lookup) ==> sec == [SkillLine(e.skill), DescriptionLine(e.skill), ResourcesHeading, NoResources, Separator]
  {
    var listing := if Found(e.lookup) then ResourceLines(e.lookup.value) else [NoResources];
    var sec := [SkillLine(e.skill), DescriptionLine(e.skill), ResourcesHeading] + listing + [Separator];
    assert sec[3 .. |sec| - 1] == listing;
    sec
  }

  /** The sections of every skill, one after another in input order. */
  function Sections(es: seq<Entry>): (doc: seq<string>)
    ensures |doc| == Count(es)
  {
    if |es| == 0 then [] else Section(es[0]) + Sections(es[1..])
  }

  /** `generateRoadmapPdf`'s paragraphs: the title, the skills heading, then the sections. */
  function Paragraphs(topic: string, es: seq<Entry>): (doc: seq<string>)
    ensures |doc| == 2 + Count(es)
    ensures doc[0] == TitleLine(topic) && doc[1] == SkillsHeading
    ensures doc[2..] == Sections(es)
  {
    [TitleLine(topic), SkillsHeading] + Sections(es)
  }

  /** Sections of a concatenation are the concatenated sections. */
  lemma {:induction false} SectionsAppend(a: seq<Entry>, b: seq<Entry>)
    ensures Sections(a + b) == Sections(a) + Sections(b)
    decreases |a|
  {
    if |a| > 0 {
      assert (a + b)[0] == a[0];
      assert (a + b)[1..] == a[1..] + b;
      SectionsAppend(a[1..], b);
    } else {
      assert a + b == b;
    }
  }

  /** The document splits at skill `k` into what comes before, its section, and what comes after. */
  lemma SplitAt(topic: string, es: seq<Entry>, k: int)
    requires 0 <= k < |es|
    ensures Paragraphs(topic, es) == Paragraphs(topic, es[..k]) + Section(es[k]) + Sections(es[k + 1..])
  {
    var tail := [es[k]] + es[k + 1..];
    assert es == es[..k] + tail;
    SectionsAppend(es[..k], tail);
    assert tail[0] == es[k] && tail[1..] == es[k + 1..];
    var front, pre, sec, post := [TitleLine(topic), SkillsHeading], Sections(es[..k]), Section(es[k]), Sections(es[k + 1..]);
    assert Sections(tail) == sec + post;
    assert Sections(es) == pre + (sec + post);
    Regroup(front, pre, sec, post);
  }

  lemma Regroup(a: seq<string>, b: seq<string>, c: seq<string>, d: seq<string>)
    ensures a + (b + (c + d)) == a + b + c + d
  {
  }

  /**
   * Skill `k`'s section sits right after the sections of the skills before it:
   * one section per skill, in input order.
   */
  lemma SectionPlacement(topic: string, es: seq<Entry>, k: int)
    requires 0 <= k < |es|
    ensures var doc := Paragraphs(topic, es);
            var at := 2 + Count(es[..k]);
            && at + SectionSize(es[k]) <= |doc|
            && doc[at .. at + SectionSize(es[k])] == Section(es[k])
  {
    SplitAt(topic, es, k);
  }

  /**
   * Replacing one skill's lookup outcome (a failure, an empty list, other
   * resources) changes that skill's section only.
   */
  lemma LookupIsolation(topic: string, es: seq<Entry>, k: int, outcome: Option<seq<Resource>>)
    requires 0 <= k < |es|
    ensures var es' := es[k := Entry(es[k].skill, outcome)];
            var doc, doc' := Paragraphs(topic, es), Paragraphs(topic, es');
            var at := 2 + Count(es[..k]);
            && at + SectionSize(es[k]) <= |doc|
            && doc' == doc[..at] + Section(es'[k]) + doc[at + SectionSize(es[k])..]
  {
    var e := Entry(es[k].skill, outcome);
    assert es[k := e][k] == e;
    SplitParts(topic, es, k);
    SplitAtUpdate(topic, es, k, e);
  }

  /** What comes before and after skill `k`'s section, located by position. */
  lemma SplitParts(topic: string, es: seq<Entry>, k: int)
    requires 0 <= k < |es|
    ensures var doc := Paragraphs(topic, es);
            var at := 2 + Count(es[..k]);
            && at + SectionSize(es[k]) <= |doc|
            && doc[..at] == Paragraphs(topic, es[..k])
            && doc[at + SectionSize(es[k])..] == Sections(es[k + 1..])
  {
    SplitAt(topic, es, k);
    Around(Paragraphs(topic, es), Paragraphs(topic, es[..k]), Section(es[k]), Sections(es[k + 1..]),
           2 + Count(es[..k]), SectionSize(es[k]));
  }

  /** The outer parts of a three-way concatenation, recovered by position. */
  lemma Around(doc: seq<string>, pre: seq<string>, mid: seq<string>, post: seq<string>, at: int, len: int)
    requires doc == pre + mid + post && |pre| == at && |mid| == len
    ensures at + len <= |doc|
    ensures doc[..at] == pre && doc[at + len..] == post
  {
  }

  /** Replacing skill `k`'s entry puts the new section between the unchanged neighbours. */
  lemma SplitAtUpdate(topic: string, es: seq<Entry>, k: int, e: Entry)
    requires 0 <= k < |es|
    ensures Paragraphs(topic, es[k := e]) == Paragraphs(topic, es[..k]) + Section(e) + Sections(es[k + 1..])
  {
    var es' := es[k := e];
    assert es'[..k] == es[..k] && es'[k + 1..] == es[k + 1..] && es'[k] == e;
    SplitAt(topic, es', k);
  }

  /** A failed lookup leaves the fallback line in that skill's section and nowhere else changes. */
  lemma FailedLookupFallsBack(topic: string, es: seq<Entry>, k: int)
    requires 0 <= k < |es| && !Found(es[k].lookup)
    ensures var doc := Paragraphs(topic, es);
            var at := 2 + Count(es[..k]);
            && at + 5 <= |doc|
            && doc[at .. at + 5] == [SkillLine(es[k].skill), DescriptionLine(es[k].skill), ResourcesHeading, NoResources, Separator]
  {
    SectionPlacement(topic, es, k);
  }

  predicate IsSkillLine(line: string) {
    SkillPrefix <= line
  }

  /** The paragraphs that start with "Skill: ", in document order. */
  function SkillLinesIn(doc: seq<string>): (found: seq<string>)
    ensures |found| <= |doc|
    ensures forall l :: l in found ==> l in doc && IsSkillLine(l)
  {
    if |doc| == 0 then []
    else if IsSkillLine(doc[0]) then [doc[0]] + SkillLinesIn(doc[1..])
    else SkillLinesIn(doc[1..])
  }

  lemma {:induction false} SkillLinesAppend(a: seq<string>, b: seq<string>)
    ensures SkillLinesIn(a + b) == SkillLinesIn(a) + SkillLinesIn(b)
    decreases |a|
  {
    if |a| > 0 {
      assert (a + b)[0] == a[0];
      assert (a + b)[1..] == a[1..] + b;
      SkillLinesAppend(a[1..], b);
    } else {
      assert a + b == b;
    }
  }

  /** No resource paragraph looks like a skill heading. */
  lemma {:induction false} ResourceLinesHaveNoSkill(rs: seq<Resource>)
    ensures SkillLinesIn(ResourceLines(rs)) == []
    decreases |rs|
  {
    if |rs| > 0 {
      var head := [ResourceLine(rs[0]), UrlLine(rs[0])];
      assert ResourceLines(rs) == head + ResourceLines(rs[1..]);
      SkillLinesAppend(head, ResourceLines(rs[1..]));
      assert ResourceLine(rs[0])[0] != SkillPrefix[0] && UrlLine(rs[0])[0] != SkillPrefix[0];
      assert head[1..] == [UrlLine(rs[0])];
      ResourceLinesHaveNoSkill(rs[1..]);
    }
  }

  /** A section holds exactly one skill heading, its own. */
  lemma SectionHasOneSkillLine(e: Entry)
    ensures SkillLinesIn(Section(e)) == [SkillLine(e.skill)]
  {
    var listing := if Found(e.lookup) then ResourceLines(e.lookup.value) else [NoResources];
    var head := [SkillLine(e.skill), DescriptionLine(e.skill), ResourcesHeading];
    assert Section(e) == head + listing + [Separator];
    SkillLinesAppend(head + listing, [Separator]);
    SkillLinesAppend(head, listing);
    assert head[1..] == [DescriptionLine(e.skill), ResourcesHeading];
    assert head[1..][1..] == [ResourcesHeading];
    assert IsSkillLine(SkillLine(e.skill));
    assert DescriptionLine(e.skill)[0] != SkillPrefix[0] && ResourcesHeading[0] != SkillPrefix[0];
    assert SkillLinesIn(head[1..][1..]) == [];
    assert SkillLinesIn(head[1..]) == [];
    assert SkillLinesIn(head) == [SkillLine(e.skill)];
    if Found(e.lookup) {
      ResourceLinesHaveNoSkill(e.lookup.value);
    } else {
      assert NoResources[0] != SkillPrefix[0];
    }
    assert Separator[0] != SkillPrefix[0];
    assert SkillLinesIn([Separator]) == [];
  }

  /** The skill names as headed in the document: one per input skill, in order. */
  function Headings(es: seq<Entry>): (hs: seq<string>)
    ensures |hs| == |es|
    ensures forall i :: 0 <= i < |es| ==> hs[i] == SkillLine(es[i].skill)
  {
    if |es| == 0 then []
    else
      var rest := Headings(es[1..]);
      assert forall i :: 1 <= i < |es| ==> es[i] == es[1..][i - 1];
      [SkillLine(es[0].skill)] + rest
  }

  lemma {:induction false} SectionsHeadings(es: seq<Entry>)
    ensures SkillLinesIn(Sections(es)) == Headings(es)
    decreases |es|
  {
    if |es| > 0 {
      SkillLinesAppend(Section(es[0]), Sections(es[1..]));
      SectionHasOneSkillLine(es[0]);
      SectionsHeadings(es[1..]);
    }
  }

  /** Reading the "Skill: " paragraphs back out of the document gives the input skills, in order. */
  lemma SkillOrderPreserved(topic: string, es: seq<Entry>)
    ensures SkillLinesIn(Paragraphs(topic, es)) == Headings(es)
  {
    var front := [TitleLine(topic), SkillsHeading];
    SkillLinesAppend(front, Sections(es));
    assert TitleLine(topic)[0] != SkillPrefix[0] && SkillsHeading[0] != SkillPrefix[0];
    assert front[1..] == [SkillsHeading];
    SectionsHeadings(es);
  }

  /**
   * `fetchResourcesForSkill` posts `{skillName}` to the application's own
   * generate-resources endpoint. A null name makes `Map.of` throw before any
   * request; a non-2xx reply, a body that is not a resource list, or any
   * exception yields `null`. Nothing escapes it.
   */
  function FetchResourcesForSkill(skillName: Option<string>, endpoint: string -> Response): (found: Option<seq<Resource>>)
    ensures found.Some? <==>
      && skillName.Some?
      && Is2xx(endpoint(skillName.value).status)
      && endpoint(skillName.value).body.ResourceList?
    ensures found.Some? ==> found.value == endpoint(skillName.value).body.resources
  {
    match skillName
    case None => None
    case Some(name) =>
      var reply := endpoint(name);
      if Is2xx(reply.status) && reply.body.ResourceList? then Some(reply.body.resources) else None
  }

  /** The loop of `generateRoadmapPdf`: skill `i` is looked up with the endpoint's `i`-th behaviour. */
  function Entries(skills: seq<Skill>, endpoint: (nat, string) -> Response): (es: seq<Entry>)
    ensures |es| == |skills|
    ensures forall i :: 0 <= i < |skills| ==>
      es[i] == Entry(skills[i], FetchResourcesForSkill(skills[i].name, n => endpoint(i, n)))
  {
    seq(|skills|, i requires 0 <= i < |skills| => Entry(skills[i], FetchResourcesForSkill(skills[i].name, n => endpoint(i, n))))
  }

  /**
   * The endpoint's behaviour for skill `k` reaches the document only through
   * skill `k`'s section: two endpoints that agree on every other lookup
   * give documents that differ in that section alone.
   */
  lemma EndpointIsolation(topic: string, skills: seq<Skill>, e: (nat, string) -> Response, e': (nat, string) -> Response, k: int)
    requires 0 <= k < |skills|
    requires forall i: nat, n :: i != k ==> e(i, n) == e'(i, n)
    ensures var es, es' := Entries(skills, e), Entries(skills, e');
            var doc := Paragraphs(topic, es);
            var at := 2 + Count(es[..k]);
            && at + SectionSize(es[k]) <= |doc|
            && Paragraphs(topic, es') == doc[..at] + Section(es'[k]) + doc[at + SectionSize(es[k])..]
  {
    var es, es' := Entries(skills, e), Entries(skills, e');
    forall i | 0 <= i < |skills| && i != k
      ensures es'[i] == es[i]
    {
      if skills[i].name.Some? {
        var n := skills[i].name.value;
        assert e(i, n) == e'(i, n);
      }
    }
    assert es' == es[k := Entry(es[k].skill, es'[k].lookup)];
    LookupIsolation(topic, es, k, es'[k].lookup);
  }

  /**
   * Looking a skill up through the application's own generate-resources
   * endpoint: a null or empty name never finds anything, and what is found
   * is what the reader made of the model's raw, unstripped content.
   */
  lemma SelfLookup(skillName: Option<string>, io: OpenAi.Collaborators)
    ensures var found := FetchResourcesForSkill(skillName, n => OpenAi.GenerateResources(Some(n), io).response);
            var h := OpenAi.GenerateResources(skillName, io);
            && (OpenAi.NullOrEmpty(skillName) ==> found == None)
            && (found.Some? <==> h.response.status == OK)
            && (found.Some? ==> |h.parsed| == 1 && io.readResources(h.parsed[0]) == Success(found.value))
  {
  }

  /** A skill whose lookup goes to the endpoint with a null or empty name gets the fallback section. */
  lemma UnnamedSkillFallsBack(skill: Skill, io: OpenAi.Collaborators)
    requires OpenAi.NullOrEmpty(skill.name)
    ensures Section(Entry(skill, FetchResourcesForSkill(skill.name, n => OpenAi.GenerateResources(Some(n), io).response)))
            == [SkillLine(skill), DescriptionLine(skill), ResourcesHeading, NoResources, Separator]
  {
    SelfLookup(skill.name, io);
  }
}
