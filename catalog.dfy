/**
 * The section catalog: the six section types with their fixed label, line
 * count and annotation tags, the two predefined song patterns, and the
 * construction of concrete sections with occurrence-numbered labels
 * ("Chorus", "Chorus 2", ...).
 */
module Catalog {
  import opened Text

  datatype SectionType = Intro | Chorus | Verse | PreChorus | Bridge | Outro

  datatype VocalType = Male | Female

  /** One section of a song. `kind` is the source's `type` field. */
  datatype Section = Section(
    kind: SectionType,
    heading: string,
    lines: seq<string>,
    maxLines: nat,
    metaTags: seq<string>)

  datatype StructurePattern = StructurePattern(
    id: string,
    name: string,
    description: string,
    sections: seq<SectionType>)

  datatype SectionConfig = SectionConfig(heading: string, maxLines: nat, metaTags: seq<string>)

  const Pattern1: StructurePattern :=
    StructurePattern("pattern1", "陣形・甲", "イントロ → サビ → Ａメロ → Ｂメロ → サビ",
                     [Intro, Chorus, Verse, PreChorus, Chorus])

  const Pattern2: StructurePattern :=
    StructurePattern("pattern2", "陣形・乙", "サビ → Ａメロ → Ｂメロ → サビ → ブリッジ → サビ",
                     [Chorus, Verse, PreChorus, Chorus, Bridge, Chorus])

  const StructurePatterns: seq<StructurePattern> := [Pattern1, Pattern2]

  /** The builder's palette, in display order. */
  const AllSectionTypes: seq<SectionType> := [Intro, Verse, PreChorus, Chorus, Bridge, Outro]

  /** The constant table of section types. Every type has a positive line
      count, two annotation tags and a non-empty label. */
  function Config(t: SectionType): (c: SectionConfig)
    ensures c.maxLines > 0 && |c.metaTags| == 2 && |c.heading| > 0
  {
    match t
    case Intro => SectionConfig("Intro", 2,
      ["(Taiko drum roll -> Shamisen riff)", "(High-speed Eurobeat ignition)"])
    case Chorus => SectionConfig("Chorus", 4,
      ["(Key: Minor, Driving, Dramatic)", "(Full synth, Shout vocals, Taiko barrage)"])
    case Verse => SectionConfig("Verse", 4,
      ["(Key: Major, Storytelling, High Tempo)", "(Rhythm: Fast Beat)"])
    case PreChorus => SectionConfig("Pre-Chorus", 2,
      ["(Rising tension, Drum roll)", "(Rhythm: Accelerating)"])
    case Bridge => SectionConfig("Bridge", 3,
      ["(Breakdown, Emotional, Shamisen solo)", "(Rhythm: Free, Dramatic)"])
    case Outro => SectionConfig("Outro", 2,
      ["(Final roar)", "(Repeat -> Fade out)"])
  }

  /** No two types have labels starting with the same character. */
  lemma HeadingsStartApart(t: SectionType, u: SectionType)
    requires t != u
    ensures Config(t).heading[0] != Config(u).heading[0]
  {
    HeadingInitial(t);
    HeadingInitial(u);
  }

  function Initial(t: SectionType): char {
    match t
    case Intro => 'I'
    case Chorus => 'C'
    case Verse => 'V'
    case PreChorus => 'P'
    case Bridge => 'B'
    case Outro => 'O'
  }

  lemma HeadingInitial(t: SectionType)
    ensures Config(t).heading[0] == Initial(t)
  {
  }

  /** How many times `t` occurs in `types`. */
  function Count(types: seq<SectionType>, t: SectionType): nat {
    if types == [] then 0
    else Count(types[..|types| - 1], t) + (if types[|types| - 1] == t then 1 else 0)
  }

  /** Count agrees with the multiplicity of `t` in the multiset of `types`. */
  lemma {:induction false} CountIsMultiplicity(types: seq<SectionType>, t: SectionType)
    ensures Count(types, t) == multiset(types)[t]
  {
    if types != [] {
      var init := types[..|types| - 1];
      assert types == init + [types[|types| - 1]];
      CountIsMultiplicity(init, t);
    }
  }

  /** The 1-based occurrence number of the section at position `i`:
      how many sections of its type occur at positions 0..i. */
  function Occurrence(types: seq<SectionType>, i: nat): (k: nat)
    requires i < |types|
    ensures k >= 1
  {
    assert types[..i + 1][..i] == types[..i];
    Count(types[..i + 1], types[i])
  }

  /** The label of the k-th section of type `t`: the configured label alone
      for the first, then the label followed by a space and the number. */
  function Label(t: SectionType, k: nat): string {
    Config(t).heading + (if k > 1 then " " + Decimal(k) else "")
  }

  /** What a label says: it starts with the type's configured label, it is
      that label alone exactly for the first occurrence, and otherwise a space
      and the numeral of the occurrence number follow it. */
  lemma LabelReadsBack(t: SectionType, k: nat)
    ensures var h := |Config(t).heading|;
      && StartsWith(Label(t, k), Config(t).heading)
      && (|Label(t, k)| == h <==> k <= 1)
      && (k > 1 ==> |Label(t, k)| > h && Label(t, k)[h] == ' ' && NumberAt(Label(t, k), h + 1, k))
  {
    var h := Config(t).heading;
    if k > 1 {
      assert Label(t, k)[|h| + 1..] == Decimal(k);
      DecimalRoundTrip(k);
    }
  }

  /** From position `i` on, `s` is a numeral of value `k`. */
  predicate NumberAt(s: string, i: nat, k: nat) {
    i <= |s| && (forall j :: i <= j < |s| ==> IsDigit(s[j])) && DecimalValue(s[i..]) == k
  }

  /** A section as the catalog creates it: `maxLines` and the annotation tags
      come from the table and every one of its lines is empty. */
  predicate IsBlankSection(s: Section) {
    && s.maxLines == Config(s.kind).maxLines
    && |s.lines| == s.maxLines
    && (forall j :: 0 <= j < |s.lines| ==> s.lines[j] == "")
    && s.metaTags == Config(s.kind).metaTags
  }

  function MakeSection(t: SectionType, k: nat): (s: Section)
    ensures s.kind == t && IsBlankSection(s)
  {
    var config := Config(t);
    Section(t, Label(t, k), seq(config.maxLines, _ => ""), config.maxLines, config.metaTags)
  }

  /** The sections a pattern with type list `types` produces. */
  function BuildSections(types: seq<SectionType>): (r: seq<Section>)
    ensures |r| == |types|
  {
    seq(|types|, i requires 0 <= i < |types| => MakeSection(types[i], Occurrence(types, i)))
  }

  function Kinds(sections: seq<Section>): (r: seq<SectionType>)
    ensures |r| == |sections| && forall i :: 0 <= i < |r| ==> r[i] == sections[i].kind
  {
    seq(|sections|, i requires 0 <= i < |sections| => sections[i].kind)
  }

  /** Total number of line slots of a section list (the sum of `maxLines`). */
  function TotalLines(sections: seq<Section>): nat {
    if sections == [] then 0
    else TotalLines(sections[..|sections| - 1]) + sections[|sections| - 1].maxLines
  }

  /** Total number of line slots the table gives a list of types. */
  function TypeLines(types: seq<SectionType>): nat {
    if types == [] then 0
    else TypeLines(types[..|types| - 1]) + Config(types[|types| - 1]).maxLines
  }

  /** A section whose slot count matches its positive `maxLines`. */
  predicate WellFormed(s: Section) {
    0 < s.maxLines == |s.lines|
  }

  /** A section list whose sections are all well formed. */
  predicate AllWellFormed(sections: seq<Section>) {
    forall i :: 0 <= i < |sections| ==> WellFormed(sections[i])
  }

  /** The copy of `sections` in which slot `li` of section `si` holds `text`:
      every other slot, every line count and every other field is as before. */
  function WriteSlot(sections: seq<Section>, si: nat, li: nat, text: string): (r: seq<Section>)
    requires si < |sections| && li < |sections[si].lines|
    ensures |r| == |sections|
    ensures forall i :: 0 <= i < |r| ==>
      r[i] == sections[i].(lines := r[i].lines) && |r[i].lines| == |sections[i].lines|
    ensures forall i, j :: 0 <= i < |r| && 0 <= j < |r[i].lines| ==>
      r[i].lines[j] == if i == si && j == li then text else sections[i].lines[j]
  {
    sections[si := sections[si].(lines := sections[si].lines[li := text])]
  }

  /** `createSectionsFromPattern`: one section per pattern entry, in order and
      of the same type, each as the table configures it, labelled by its
      occurrence number; the running per-type counter is a map updated in the loop. */
  method CreateSectionsFromPattern(pattern: StructurePattern) returns (r: seq<Section>)
    ensures |r| == |pattern.sections|
    ensures forall i :: 0 <= i < |r| ==> r[i].kind == pattern.sections[i] && IsBlankSection(r[i])
    ensures r == BuildSections(pattern.sections)
  {
    var types := pattern.sections;
    var counts: map<SectionType, nat> := map[];
    r := [];
    var i := 0;
    while i < |types|
      invariant 0 <= i <= |types|
      invariant r == BuildSections(types[..i])
      invariant forall t :: CountOf(counts, t) == Count(types[..i], t)
    {
      var t := types[i];
      var c := (if t in counts then counts[t] else 0) + 1;
      var next := counts[t := c];
      CounterBump(counts, next, types, i);
      BuildStep(types, i, r, c);
      counts := next;
      r := r + [MakeSection(t, c)];
      i := i + 1;
    }
    assert types[..i] == types;
    BuildSectionsBlank(types);
  }

  /** One loop step of `CreateSectionsFromPattern`: appending the section for
      entry `i`, numbered by its occurrence, extends the built prefix by one. */
  lemma BuildStep(types: seq<SectionType>, i: nat, r: seq<Section>, c: nat)
    requires i < |types| && r == BuildSections(types[..i])
    requires c == Count(types[..i], types[i]) + 1
    ensures r + [MakeSection(types[i], c)] == BuildSections(types[..i + 1])
  {
    BuildSectionsSnoc(types[..i], types[i]);
    assert types[..i + 1] == types[..i] + [types[i]];
  }

  /** The running count of `t` in a per-type counter map (absent keys count zero). */
  function CountOf(counts: map<SectionType, nat>, t: SectionType): nat {
    if t in counts then counts[t] else 0
  }

  /** Every built section has its entry's type and is as the table creates it. */
  lemma BuildSectionsBlank(types: seq<SectionType>)
    ensures forall i :: 0 <= i < |types| ==> BuildSections(types)[i].kind == types[i] && IsBlankSection(BuildSections(types)[i])
  {
    forall i | 0 <= i < |types|
      ensures BuildSections(types)[i].kind == types[i] && IsBlankSection(BuildSections(types)[i])
    {
      var s := MakeSection(types[i], Occurrence(types, i));
      assert BuildSections(types)[i] == s;
    }
  }

  /** Bumping the entry of the next type in a counter map that holds the
      counts of a prefix gives the counts of the prefix one longer, and the
      bumped entry is that entry's occurrence number. */
  lemma CounterBump(counts: map<SectionType, nat>, next: map<SectionType, nat>, types: seq<SectionType>, i: nat)
    requires i < |types|
    requires forall t :: CountOf(counts, t) == Count(types[..i], t)
    requires next == counts[types[i] := CountOf(counts, types[i]) + 1]
    ensures CountOf(counts, types[i]) + 1 == Occurrence(types, i)
    ensures forall t :: CountOf(next, t) == Count(types[..i + 1], t)
  {
    CountStep(types, i);
    forall t ensures CountOf(next, t) == Count(types[..i + 1], t) {
      assert CountOf(counts, t) == Count(types[..i], t);
    }
  }

  /** One more step of the running per-type counter. */
  lemma CountStep(types: seq<SectionType>, i: nat)
    requires i < |types|
    ensures forall t :: Count(types[..i + 1], t) == Count(types[..i], t) + (if types[i] == t then 1 else 0)
    ensures Occurrence(types, i) == Count(types[..i], types[i]) + 1
  {
    assert types[..i + 1][..i] == types[..i];
  }

  /** `createSectionFromType`: a new section of type `t` numbered one past
      the sections of that type already in `existing`. */
  function CreateSectionFromType(t: SectionType, existing: seq<Section>): (s: Section)
    ensures s.kind == t && IsBlankSection(s)
    ensures s.heading == Label(t, Count(Kinds(existing), t) + 1)
  {
    MakeSection(t, Count(Kinds(existing), t) + 1)
  }

  /** The sections obtained by adding the types one at a time with
      CreateSectionFromType, as the free-form builder does. */
  function AppendEach(types: seq<SectionType>): (r: seq<Section>)
    ensures |r| == |types|
  {
    if types == [] then []
    else
      var prev := AppendEach(types[..|types| - 1]);
      prev + [CreateSectionFromType(types[|types| - 1], prev)]
  }

  lemma BuildSectionsKinds(types: seq<SectionType>)
    ensures Kinds(BuildSections(types)) == types
  {
  }

  /** Building a pattern one more type at a time only appends. */
  lemma BuildSectionsSnoc(types: seq<SectionType>, t: SectionType)
    ensures BuildSections(types + [t]) == BuildSections(types) + [MakeSection(t, Count(types, t) + 1)]
  {
    var lhs, rhs := BuildSections(types + [t]), BuildSections(types) + [MakeSection(t, Count(types, t) + 1)];
    forall j | 0 <= j < |types| + 1
      ensures lhs[j] == rhs[j]
    {
      if j < |types| {
        OccurrenceInPrefix(types, t, j);
      } else {
        OccurrenceOfLast(types, t);
      }
    }
  }

  lemma OccurrenceInPrefix(types: seq<SectionType>, t: SectionType, j: nat)
    requires j < |types|
    ensures Occurrence(types + [t], j) == Occurrence(types, j)
  {
    assert (types + [t])[..j + 1] == types[..j + 1];
  }

  lemma OccurrenceOfLast(types: seq<SectionType>, t: SectionType)
    ensures Occurrence(types + [t], |types|) == Count(types, t) + 1
  {
    var ext := types + [t];
    assert ext[..|types| + 1] == ext && ext[..|ext| - 1] == types;
  }

  /** The k-th section of a type is labelled with its occurrence number k:
      the number of sections of that type up to and including it. */
  lemma BuildSectionsLabels(types: seq<SectionType>, i: nat)
    requires i < |types|
    ensures BuildSections(types)[i].heading == Label(types[i], multiset(types[..i + 1])[types[i]])
  {
    CountIsMultiplicity(types[..i + 1], types[i]);
  }

  /** Adding the types of a pattern one by one with `createSectionFromType`
      yields exactly what `createSectionsFromPattern` yields. */
  lemma {:induction false} AppendEachMatchesPattern(types: seq<SectionType>)
    ensures AppendEach(types) == BuildSections(types)
  {
    if types != [] {
      var init, t := types[..|types| - 1], types[|types| - 1];
      assert types == init + [t];
      AppendEachMatchesPattern(init);
      BuildSectionsKinds(init);
      BuildSectionsSnoc(init, t);
    }
  }

  lemma {:induction false} CountPrefixGrows(types: seq<SectionType>, m: nat, n: nat, t: SectionType)
    requires m <= n <= |types|
    ensures Count(types[..m], t) <= Count(types[..n], t)
    decreases n - m
  {
    if m < n {
      assert types[..n][..n - 1] == types[..n - 1];
      CountPrefixGrows(types, m, n - 1, t);
    }
  }

  /** Two occurrence numbers of the same type at different positions differ. */
  lemma OccurrenceIncreases(types: seq<SectionType>, i: nat, j: nat)
    requires i < j < |types| && types[i] == types[j]
    ensures Occurrence(types, i) < Occurrence(types, j)
  {
    CountPrefixGrows(types, i + 1, j, types[i]);
    assert types[..j + 1][..j] == types[..j];
  }

  lemma LabelsOfOneTypeDiffer(t: SectionType, a: nat, b: nat)
    requires 1 <= a < b
    ensures Label(t, a) != Label(t, b)
  {
    var base := Config(t).heading;
    if a > 1 && Label(t, a) == Label(t, b) {
      assert Decimal(a) == Label(t, a)[|base| + 1..];
      assert Decimal(b) == Label(t, b)[|base| + 1..];
      DecimalInjective(a, b);
    }
  }

  /** Every section a pattern produces has a label of its own. */
  lemma LabelsDistinct(types: seq<SectionType>, i: nat, j: nat)
    requires i < j < |types|
    ensures BuildSections(types)[i].heading != BuildSections(types)[j].heading
  {
    var r := BuildSections(types);
    if types[i] != types[j] {
      HeadingsStartApart(types[i], types[j]);
      assert r[i].heading[0] == Config(types[i]).heading[0];
      assert r[j].heading[0] == Config(types[j]).heading[0];
    } else {
      OccurrenceIncreases(types, i, j);
      LabelsOfOneTypeDiffer(types[i], Occurrence(types, i), Occurrence(types, j));
    }
  }

  /** The number of line slots of the built sections is the sum of the line
      counts the table gives the pattern's types. */
  lemma {:induction false} TotalLinesOfBuild(types: seq<SectionType>)
    ensures TotalLines(BuildSections(types)) == TypeLines(types)
  {
    TotalLinesOfBlank(BuildSections(types));
    BuildSectionsKinds(types);
  }

  lemma {:induction false} TotalLinesOfBlank(sections: seq<Section>)
    requires forall i :: 0 <= i < |sections| ==> IsBlankSection(sections[i])
    ensures TotalLines(sections) == TypeLines(Kinds(sections))
  {
    if sections != [] {
      var init := sections[..|sections| - 1];
      assert Kinds(sections)[..|sections| - 1] == Kinds(init);
      TotalLinesOfBlank(init);
    }
  }

  lemma TypeLinesStep(types: seq<SectionType>, k: nat)
    requires k < |types|
    ensures TypeLines(types[..k + 1]) == TypeLines(types[..k]) + Config(types[k]).maxLines
  {
    assert types[..k + 1][..k] == types[..k];
  }

  lemma Pattern1TypeLines()
    ensures TypeLines(Pattern1.sections) == 16
  {
    var p := Pattern1.sections;
    TypeLinesStep(p, 0); TypeLinesStep(p, 1); TypeLinesStep(p, 2); TypeLinesStep(p, 3); TypeLinesStep(p, 4);
    assert p[..5] == p;
  }

  lemma Pattern2TypeLines()
    ensures TypeLines(Pattern2.sections) == 21
  {
    var p := Pattern2.sections;
    TypeLinesStep(p, 0); TypeLinesStep(p, 1); TypeLinesStep(p, 2); TypeLinesStep(p, 3); TypeLinesStep(p, 4);
    TypeLinesStep(p, 5);
    assert p[..6] == p;
  }

  /** Pattern 1 has 2+4+4+2+4 = 16 lines and pattern 2 has 4+4+2+4+3+4 = 21. */
  lemma PatternTotals()
    ensures TotalLines(BuildSections(Pattern1.sections)) == 16
    ensures TotalLines(BuildSections(Pattern2.sections)) == 21
  {
    TotalLinesOfBuild(Pattern1.sections);
    TotalLinesOfBuild(Pattern2.sections);
    Pattern1TypeLines();
    Pattern2TypeLines();
  }

  /** The builder's palette lists each of the six types exactly once. */
  lemma AllSectionTypesOnce(t: SectionType)
    ensures |AllSectionTypes| == 6 && Count(AllSectionTypes, t) == 1
  {
    CountIsMultiplicity(AllSectionTypes, t);
  }
}
