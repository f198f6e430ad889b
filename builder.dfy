/**
 * The free-form structure builder: the user assembles a song from section
 * blocks, appending, removing and reordering them; after every removal or
 * move the headings are recomputed from scratch, so that the k-th section of
 * a type is always numbered k.
 */
module Builder {
  import opened Optional
  import opened Text
  import opened Catalog

  /** The sections with every heading recomputed from the occurrence number
      of its section's type. */
  function Relabeled(sections: seq<Section>): (r: seq<Section>)
    ensures |r| == |sections|
  {
    var kinds := Kinds(sections);
    seq(|sections|, i requires 0 <= i < |sections| =>
      sections[i].(heading := Label(sections[i].kind, Occurrence(kinds, i))))
  }

  /** The relabelling loop shared by removeSection and moveSection: a
      per-type counter map is bumped section by section. */
  method Relabel(updated: seq<Section>) returns (r: seq<Section>)
    ensures r == Relabeled(updated)
  {
    var kinds := Kinds(updated);
    ghost var spec := Relabeled(updated);
    var counts: map<SectionType, nat> := map[];
    r := [];
    for i := 0 to |updated|
      invariant r == spec[..i]
      invariant forall t :: CountOf(counts, t) == Count(kinds[..i], t)
    {
      var s := updated[i];
      var c := (if s.kind in counts then counts[s.kind] else 0) + 1;
      var next := counts[s.kind := c];
      CounterBump(counts, next, kinds, i);
      counts := next;
      var suffix := if c > 1 then " " + Decimal(c) else "";
      assert Config(s.kind).heading + suffix == Label(s.kind, c);
      assert spec[i] == s.(heading := Label(s.kind, c));
      assert spec[..i + 1] == spec[..i] + [spec[i]];
      r := r + [s.(heading := Config(s.kind).heading + suffix)];
    }
    assert spec[..|updated|] == spec;
  }

  /** Relabelling changes nothing but the headings. */
  lemma RelabeledKeepsFields(sections: seq<Section>)
    ensures var r := Relabeled(sections);
      forall i :: 0 <= i < |r| ==> r[i] == sections[i].(heading := r[i].heading)
  {
  }

  /** Relabelling gives the headings that building the same type sequence
      from scratch gives. */
  lemma RelabeledHeadings(sections: seq<Section>, i: nat)
    requires i < |sections|
    ensures Relabeled(sections)[i].heading == BuildSections(Kinds(sections))[i].heading
  {
  }

  /** A list of freshly created sections, relabelled, is the list that
      building its type sequence gives. */
  lemma RelabeledBlank(sections: seq<Section>)
    requires forall i :: 0 <= i < |sections| ==> IsBlankSection(sections[i])
    ensures Relabeled(sections) == BuildSections(Kinds(sections))
  {
    var r, b := Relabeled(sections), BuildSections(Kinds(sections));
    forall i | 0 <= i < |sections| ensures r[i] == b[i] {
      assert r[i].lines == b[i].lines;
    }
  }

  /** Relabelling twice is relabelling once. */
  lemma RelabelIdempotent(sections: seq<Section>)
    ensures Relabeled(Relabeled(sections)) == Relabeled(sections)
  {
    var once := Relabeled(sections);
    assert Kinds(once) == Kinds(sections);
  }

  /** `prev.filter((_, i) => i !== index)`: the list without position
      `index`, or the whole list when `index` is out of range. */
  function Without(sections: seq<Section>, index: int): (r: seq<Section>)
    ensures 0 <= index < |sections| ==>
      |r| == |sections| - 1 && forall i :: 0 <= i < |r| ==> r[i] == sections[if i < index then i else i + 1]
    ensures !(0 <= index < |sections|) ==> r == sections
  {
    if 0 <= index < |sections| then sections[..index] + sections[index + 1..] else sections
  }

  /** The list with positions `i` and `j` exchanged. */
  function Swap(sections: seq<Section>, i: nat, j: nat): (r: seq<Section>)
    requires i < |sections| && j < |sections|
    ensures |r| == |sections|
  {
    sections[i := sections[j]][j := sections[i]]
  }

  /** The kinds of a list with two positions exchanged are the kinds
      exchanged, and occur as often as before. */
  lemma SwapKinds(sections: seq<Section>, i: nat, j: nat)
    requires i < |sections| && j < |sections|
    ensures var k := Kinds(sections);
      Kinds(Swap(sections, i, j)) == k[i := k[j]][j := k[i]]
      && multiset(Kinds(Swap(sections, i, j))) == multiset(k)
  {
  }

  /** The line total of a type sequence is fixed by how often each type occurs. */
  lemma {:induction false} TypeLinesByCount(types: seq<SectionType>)
    ensures TypeLines(types) == 2 * Count(types, Intro) + 4 * Count(types, Chorus)
      + 4 * Count(types, Verse) + 2 * Count(types, PreChorus) + 3 * Count(types, Bridge)
      + 2 * Count(types, Outro)
  {
    if types != [] {
      TypeLinesByCount(types[..|types| - 1]);
    }
  }

  /** Reordering keeps the total line count. */
  lemma PermutedTypeLines(a: seq<SectionType>, b: seq<SectionType>)
    requires multiset(a) == multiset(b)
    ensures TypeLines(a) == TypeLines(b)
  {
    TypeLinesByCount(a);
    TypeLinesByCount(b);
    CountIsMultiplicity(a, Intro); CountIsMultiplicity(b, Intro);
    CountIsMultiplicity(a, Chorus); CountIsMultiplicity(b, Chorus);
    CountIsMultiplicity(a, Verse); CountIsMultiplicity(b, Verse);
    CountIsMultiplicity(a, PreChorus); CountIsMultiplicity(b, PreChorus);
    CountIsMultiplicity(a, Bridge); CountIsMultiplicity(b, Bridge);
    CountIsMultiplicity(a, Outro); CountIsMultiplicity(b, Outro);
  }

  /** Exchanging two sections of a built list and relabelling gives the list
      that building the exchanged type sequence gives. */
  lemma SwappedBuildIsBuilt(kinds: seq<SectionType>, i: nat, j: nat)
    requires i < |kinds| && j < |kinds|
    ensures var u := Swap(BuildSections(kinds), i, j);
      && Kinds(u) == kinds[i := kinds[j]][j := kinds[i]]
      && Relabeled(u) == BuildSections(Kinds(u))
  {
    var b := BuildSections(kinds);
    var u := Swap(b, i, j);
    BuildSectionsKinds(kinds);
    BuildSectionsBlank(kinds);
    assert forall k :: 0 <= k < |u| ==> IsBlankSection(u[k]);
    RelabeledBlank(u);
    SwapKinds(b, i, j);
  }

  /** Exchanging two sections of a built list and relabelling keeps the list
      built, with the same types as often as before and the same total line
      count. */
  lemma SwappedBuild(kinds: seq<SectionType>, i: nat, j: nat)
    requires i < |kinds| && j < |kinds|
    ensures var r := Relabeled(Swap(BuildSections(kinds), i, j));
      && r == BuildSections(Kinds(r))
      && multiset(Kinds(r)) == multiset(kinds)
      && TotalLines(r) == TotalLines(BuildSections(kinds))
  {
    var swapped := kinds[i := kinds[j]][j := kinds[i]];
    SwappedBuildIsBuilt(kinds, i, j);
    BuildSectionsKinds(swapped);
    assert multiset(swapped) == multiset(kinds);
    PermutedTypeLines(swapped, kinds);
    TotalLinesOfBuild(swapped);
    TotalLinesOfBuild(kinds);
  }

  class StructureBuilderScreen {
    var sections: seq<Section>

    /** The list is exactly what building its own type sequence gives:
        fresh sections, each numbered by its occurrence. */
    ghost predicate Valid()
      reads this
    {
      sections == BuildSections(Kinds(sections))
    }

    constructor ()
      ensures Valid() && sections == []
    {
      sections := [];
    }

    /** `addSection`: appends a section of type `t` created against the list
        so far; earlier sections are unchanged. */
    method AddSection(t: SectionType)
      requires Valid()
      modifies this
      ensures Valid()
      ensures sections == old(sections) + [CreateSectionFromType(t, old(sections))]
      ensures Kinds(sections) == old(Kinds(sections)) + [t]
    {
      var prev := sections;
      BuildSectionsSnoc(Kinds(prev), t);
      sections := prev + [CreateSectionFromType(t, prev)];
      assert Kinds(sections) == Kinds(prev) + [t];
    }

    /** `removeSection`: drops the section at `index` (nothing when `index`
        is out of range) and relabels the rest. */
    method RemoveSection(index: int)
      requires Valid()
      modifies this
      ensures Valid()
      ensures sections == Relabeled(Without(old(sections), index))
      ensures Kinds(sections) == Kinds(Without(old(sections), index))
      ensures |sections| == if 0 <= index < |old(sections)| then |old(sections)| - 1 else |old(sections)|
    {
      var updated := Without(sections, index);
      BuildSectionsKinds(Kinds(sections));
      assert forall i :: 0 <= i < |updated| ==> IsBlankSection(updated[i]);
      RelabeledBlank(updated);
      sections := Relabel(updated);
      assert Kinds(sections) == Kinds(updated);
    }

    /** `moveSection`: exchanges the section at `index` with its neighbour in
        `direction` and relabels, or does nothing when there is no such
        neighbour. The types occur as often as before and the total line
        count is kept. */
    method MoveSection(index: nat, direction: int)
      requires Valid() && index < |sections| && (direction == -1 || direction == 1)
      modifies this
      ensures Valid()
      ensures var target := index + direction;
        if 0 <= target < |old(sections)|
        then sections == Relabeled(Swap(old(sections), index, target))
        else sections == old(sections)
      ensures multiset(Kinds(sections)) == multiset(old(Kinds(sections)))
      ensures TotalLines(sections) == TotalLines(old(sections))
    {
      var target := index + direction;
      if target < 0 || target >= |sections| {
        return;
      }
      var prev := sections;
      SwappedBuild(Kinds(prev), index, target);
      sections := Relabel(Swap(prev, index, target));
    }

    /** `handleComplete`: hands the list on only when it is non-empty; the
        list handed on is what building its type sequence as a pattern gives. */
    method HandleComplete() returns (r: Option<seq<Section>>)
      requires Valid()
      ensures r == if |sections| > 0 then Some(sections) else None
      ensures r.Some? ==> r.value == BuildSections(Kinds(r.value))
    {
      if |sections| > 0 {
        r := Some(sections);
      } else {
        r := None;
      }
    }
  }
}
