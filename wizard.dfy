/**
 * The composition wizard: a cursor walks the line slots of a song section by
 * section, proposing candidates for the slot under it; each commit writes
 * the slot and advances the cursor, and a high-water mark (the frontier)
 * records how far the composition has got, so that the user may jump back to
 * any slot already reached.
 */
module Wizard {
  import opened Optional
  import opened Text
  import opened Catalog
  import opened Generator

  /** A slot position: section index and line index. */
  datatype Cursor = Cursor(si: nat, li: nat)

  /** A line of the preview list: its position, its text and its section's heading. */
  datatype FilledLine = FilledLine(si: nat, li: nat, text: string, heading: string)

  function Max(a: nat, b: nat): nat {
    if a >= b then a else b
  }

  /** A slot of the song: an existing section and a line below its line count. */
  predicate IsSlot(sections: seq<Section>, si: nat, li: nat) {
    si < |sections| && li < sections[si].maxLines
  }

  /** The position of a slot when all slots are laid out in composition
      order: the lines of every earlier section, then `li`. */
  function GlobalIndex(sections: seq<Section>, si: nat, li: nat): nat
    requires si <= |sections|
  {
    TotalLines(sections[..si]) + li
  }

  /** `getGlobalIndex`: sums the line counts of the earlier sections. */
  method GetGlobalIndex(sections: seq<Section>, si: nat, li: nat) returns (idx: nat)
    requires si <= |sections|
    ensures idx == GlobalIndex(sections, si, li)
  {
    idx := 0;
    for i := 0 to si
      invariant idx == TotalLines(sections[..i])
    {
      assert sections[..i + 1][..i] == sections[..i];
      idx := idx + sections[i].maxLines;
    }
    idx := idx + li;
  }

  lemma TotalLinesStep(sections: seq<Section>, i: nat)
    requires i < |sections|
    ensures TotalLines(sections[..i + 1]) == TotalLines(sections[..i]) + sections[i].maxLines
  {
    assert sections[..i + 1][..i] == sections[..i];
  }

  /** The lines of a longer prefix include those of a shorter one and of
      every section in between. */
  lemma {:induction false} TotalLinesPrefixGrows(sections: seq<Section>, i: nat, j: nat)
    requires i < j <= |sections|
    ensures TotalLines(sections[..i]) + sections[i].maxLines <= TotalLines(sections[..j])
    decreases j - i
  {
    TotalLinesStep(sections, i);
    if i + 1 < j {
      TotalLinesPrefixGrows(sections, i + 1, j);
    }
  }

  /** Composition order: one slot comes before another exactly when its
      global index is smaller. */
  lemma GlobalIndexOrder(sections: seq<Section>, s1: nat, l1: nat, s2: nat, l2: nat)
    requires IsSlot(sections, s1, l1) && IsSlot(sections, s2, l2)
    ensures (s1 < s2 || (s1 == s2 && l1 < l2)) <==> GlobalIndex(sections, s1, l1) < GlobalIndex(sections, s2, l2)
  {
    if s1 < s2 {
      TotalLinesPrefixGrows(sections, s1, s2);
    } else if s2 < s1 {
      TotalLinesPrefixGrows(sections, s2, s1);
    }
  }

  /** Distinct slots have distinct global indices. */
  lemma GlobalIndexInjective(sections: seq<Section>, s1: nat, l1: nat, s2: nat, l2: nat)
    requires IsSlot(sections, s1, l1) && IsSlot(sections, s2, l2)
    ensures GlobalIndex(sections, s1, l1) == GlobalIndex(sections, s2, l2) <==> s1 == s2 && l1 == l2
  {
    GlobalIndexOrder(sections, s1, l1, s2, l2);
    GlobalIndexOrder(sections, s2, l2, s1, l1);
  }

  /** Every slot's global index lies below the song's total line count. */
  lemma GlobalIndexBelowTotal(sections: seq<Section>, si: nat, li: nat)
    requires IsSlot(sections, si, li)
    ensures GlobalIndex(sections, si, li) < TotalLines(sections)
  {
    TotalLinesPrefixGrows(sections, si, |sections|);
    assert sections[..|sections|] == sections;
  }

  /** Where a commit moves the cursor: the next line of the section, else the
      first line of the next section, else nowhere (the song is complete). */
  function Next(sections: seq<Section>, si: nat, li: nat): Option<Cursor>
    requires si < |sections|
  {
    if li + 1 < sections[si].maxLines then Some(Cursor(si, li + 1))
    else if si + 1 < |sections| then Some(Cursor(si + 1, 0))
    else None
  }

  /** A commit moves the cursor to the slot whose global index is one
      higher, and completes the song exactly at its last slot. */
  lemma NextIsSuccessor(sections: seq<Section>, si: nat, li: nat)
    requires AllWellFormed(sections) && IsSlot(sections, si, li)
    ensures match Next(sections, si, li)
      case Some(c) => IsSlot(sections, c.si, c.li)
                      && GlobalIndex(sections, c.si, c.li) == GlobalIndex(sections, si, li) + 1
      case None => GlobalIndex(sections, si, li) + 1 == TotalLines(sections)
  {
    TotalLinesStep(sections, si);
    if si + 1 == |sections| {
      assert sections[..si + 1] == sections;
    } else {
      assert WellFormed(sections[si + 1]);
    }
  }

  /** Two section lists with the same kinds and line counts, slot by slot. */
  predicate SameShape(a: seq<Section>, b: seq<Section>) {
    |a| == |b| && forall i :: 0 <= i < |a| ==> a[i].kind == b[i].kind && a[i].maxLines == b[i].maxLines
  }

  lemma {:induction false} SameShapeTotals(a: seq<Section>, b: seq<Section>, k: nat)
    requires SameShape(a, b) && k <= |a|
    ensures TotalLines(a[..k]) == TotalLines(b[..k])
  {
    if k > 0 {
      SameShapeTotals(a, b, k - 1);
      TotalLinesStep(a, k - 1);
      TotalLinesStep(b, k - 1);
    }
  }

  /** Writing a slot keeps the song's shape, hence every global index and
      the total line count. */
  lemma WriteSlotKeepsShape(sections: seq<Section>, si: nat, li: nat, text: string)
    requires si < |sections| && li < |sections[si].lines|
    ensures var r := WriteSlot(sections, si, li, text);
      SameShape(sections, r) && AllWellFormed(r) == AllWellFormed(sections)
      && TotalLines(r) == TotalLines(sections)
      && forall k :: 0 <= k <= |sections| ==> TotalLines(r[..k]) == TotalLines(sections[..k])
  {
    var r := WriteSlot(sections, si, li, text);
    forall k | 0 <= k <= |sections| ensures TotalLines(r[..k]) == TotalLines(sections[..k]) {
      SameShapeTotals(r, sections, k);
    }
    assert r[..|r|] == r && sections[..|sections|] == sections;
  }

  /** The current section is a chorus and no earlier section is one. */
  predicate FirstChorusAt(sections: seq<Section>, si: nat)
    requires si < |sections|
  {
    sections[si].kind == Chorus && forall i :: 0 <= i < si ==> sections[i].kind != Chorus
  }

  /** The first chorus is the section at the first position of a chorus in
      the song's kinds, and no other. */
  lemma FirstChorusIsFirstOccurrence(sections: seq<Section>, si: nat)
    requires si < |sections|
    ensures FirstChorusAt(sections, si) <==> Chorus in Kinds(sections) && si == IndexOf(Kinds(sections), Chorus)
  {
    var kinds := Kinds(sections);
    if Chorus in kinds {
      IndexOfIsFirst(kinds, Chorus);
    }
  }

  /** A filled slot other than the cursor's: what the preview lists. */
  predicate FilledSlot(sections: seq<Section>, cursor: Cursor, si: nat, li: nat) {
    si < |sections| && li < |sections[si].lines| && !IsBlank(sections[si].lines[li])
    && Cursor(si, li) != cursor
  }

  predicate Lists(sections: seq<Section>, cursor: Cursor, f: FilledLine) {
    FilledSlot(sections, cursor, f.si, f.li)
    && f.text == sections[f.si].lines[f.li] && f.heading == sections[f.si].heading
  }

  predicate Before(a: FilledLine, b: FilledLine) {
    a.si < b.si || (a.si == b.si && a.li < b.li)
  }

  class WizardScreen {
    var sections: seq<Section>
    var sectionIdx: nat
    var lineIdx: nat
    var candidates: seq<string>
    var usedPhrases: set<string>
    var frontier: nat

    /** The cursor is on a slot, the frontier lies between the cursor and the
        end of the song, and every section has as many lines as its count. */
    ghost predicate Valid()
      reads this
    {
      && |sections| > 0 && AllWellFormed(sections)
      && IsSlot(sections, sectionIdx, lineIdx)
      && GlobalIndex(sections, sectionIdx, lineIdx) <= frontier < TotalLines(sections)
    }

    constructor (initialSections: seq<Section>)
      requires |initialSections| > 0 && AllWellFormed(initialSections)
      ensures Valid()
      ensures sections == initialSections && sectionIdx == 0 && lineIdx == 0
      ensures candidates == [] && usedPhrases == {} && frontier == 0
    {
      sections := initialSections;
      sectionIdx := 0;
      lineIdx := 0;
      candidates := [];
      usedPhrases := {};
      frontier := 0;
      new;
      assert WellFormed(initialSections[0]);
      GlobalIndexBelowTotal(initialSections, 0, 0);
    }

    /** The outcome of committing `text` at the cursor of the state
        (`ss`, `si`, `li`, `used`, `front`): the slot holds `text`, a non-blank
        verse or pre-chorus line joins the used phrases, the cursor advances
        as Next says (or stays, the song being handed on complete), and the
        frontier rises to the new cursor. */
    ghost predicate Committed(ss: seq<Section>, si: nat, li: nat, used: set<string>, front: nat,
                              text: string, completed: Option<seq<Section>>)
      reads this
    {
      && si < |ss| && li < |ss[si].lines|
      && sections == WriteSlot(ss, si, li, text)
      && usedPhrases == (if !IsBlank(text) && (ss[si].kind == Verse || ss[si].kind == PreChorus)
                         then used + {text} else used)
      && (match Next(ss, si, li)
          case Some(c) => sectionIdx == c.si && lineIdx == c.li && completed == None
          case None => sectionIdx == si && lineIdx == li && completed == Some(sections))
      && sectionIdx < |sections|
      && frontier == Max(front, GlobalIndex(sections, sectionIdx, lineIdx))
    }

    /** `isFirstChorus`: scans the earlier sections for a chorus. */
    method IsFirstChorus() returns (b: bool)
      requires Valid()
      ensures b <==> FirstChorusAt(sections, sectionIdx)
    {
      if sections[sectionIdx].kind != Chorus {
        return false;
      }
      for i := 0 to sectionIdx
        invariant forall k :: 0 <= k < i ==> sections[k].kind != Chorus
      {
        if sections[i].kind == Chorus {
          return false;
        }
      }
      return true;
    }

    /** `refreshCandidates`: candidates for the slot under the cursor. */
    method RefreshCandidates(d: Dictionary, o: Oracle)
      requires Valid() && d.Valid()
      modifies this`candidates
      ensures Valid()
      ensures candidates == GetCandidatesForSection(d, sections[sectionIdx].kind, lineIdx,
                                                    FirstChorusAt(sections, sectionIdx), usedPhrases, o)
    {
      var isFirstChorus := IsFirstChorus();
      candidates := GetCandidatesForSection(d, sections[sectionIdx].kind, lineIdx, isFirstChorus, usedPhrases, o);
    }

    /** `advanceLine`: moves the cursor to the next slot, or hands the
        updated sections on when the cursor is on the last one; the frontier
        follows the cursor. */
    method AdvanceLine(updated: seq<Section>) returns (completed: Option<seq<Section>>)
      requires Valid()
      modifies this`sectionIdx, this`lineIdx, this`frontier
      ensures Valid()
      ensures match Next(sections, old(sectionIdx), old(lineIdx))
        case Some(c) => sectionIdx == c.si && lineIdx == c.li && completed == None
        case None => sectionIdx == old(sectionIdx) && lineIdx == old(lineIdx) && completed == Some(updated)
      ensures frontier == Max(old(frontier), GlobalIndex(sections, sectionIdx, lineIdx))
    {
      NextIsSuccessor(sections, sectionIdx, lineIdx);
      completed := None;
      var nextLine := lineIdx + 1;
      if nextLine < sections[sectionIdx].maxLines {
        lineIdx := nextLine;
      } else {
        var nextSection := sectionIdx + 1;
        if nextSection < |sections| {
          sectionIdx := nextSection;
          lineIdx := 0;
        } else {
          completed := Some(updated);
        }
      }
      GlobalIndexBelowTotal(sections, sectionIdx, lineIdx);
      frontier := Max(frontier, GlobalIndex(sections, sectionIdx, lineIdx));
    }

    /** `setLine`: commits `text` at the cursor. */
    method SetLine(text: string) returns (completed: Option<seq<Section>>)
      requires Valid()
      modifies this`sections, this`usedPhrases, this`sectionIdx, this`lineIdx, this`frontier
      ensures Valid()
      ensures Committed(old(sections), old(sectionIdx), old(lineIdx), old(usedPhrases), old(frontier),
                        text, completed)
    {
      assert WellFormed(sections[sectionIdx]);
      var kind := sections[sectionIdx].kind;
      WriteSlotKeepsShape(sections, sectionIdx, lineIdx, text);
      var updated := WriteSlot(sections, sectionIdx, lineIdx, text);
      sections := updated;
      if !IsBlank(text) && (kind == Verse || kind == PreChorus) {
        usedPhrases := usedPhrases + {text};
      }
      completed := AdvanceLine(updated);
    }

    /** `handleCopyLine`: commits the text of an earlier line at the cursor. */
    method HandleCopyLine(text: string) returns (completed: Option<seq<Section>>)
      requires Valid()
      modifies this`sections, this`usedPhrases, this`sectionIdx, this`lineIdx, this`frontier
      ensures Valid()
      ensures Committed(old(sections), old(sectionIdx), old(lineIdx), old(usedPhrases), old(frontier),
                        text, completed)
    {
      completed := SetLine(text);
    }

    /** `handleSkip`: commits the empty string, which never joins the used
        phrases. */
    method HandleSkip() returns (completed: Option<seq<Section>>)
      requires Valid()
      modifies this`sections, this`usedPhrases, this`sectionIdx, this`lineIdx, this`frontier
      ensures Valid()
      ensures Committed(old(sections), old(sectionIdx), old(lineIdx), old(usedPhrases), old(frontier),
                        "", completed)
      ensures usedPhrases == old(usedPhrases)
    {
      completed := SetLine("");
    }

    /** `handleRandom`: commits a random ending (chorus) or verse or chorus
        line (other sections). */
    method HandleRandom(d: Dictionary, r: nat) returns (completed: Option<seq<Section>>)
      requires Valid() && d.Valid()
      modifies this`sections, this`usedPhrases, this`sectionIdx, this`lineIdx, this`frontier
      ensures Valid()
      ensures var text := GetRandomCandidate(d, old(sections)[old(sectionIdx)].kind, r);
        Committed(old(sections), old(sectionIdx), old(lineIdx), old(usedPhrases), old(frontier),
                  text, completed)
    {
      var text := GetRandomCandidate(d, sections[sectionIdx].kind, r);
      completed := SetLine(text);
    }

    /** `handleCustomSubmit`: commits the trimmed input; blank input changes
        nothing. */
    method HandleCustomSubmit(customInput: string) returns (completed: Option<seq<Section>>)
      requires Valid()
      modifies this`sections, this`usedPhrases, this`sectionIdx, this`lineIdx, this`frontier
      ensures Valid()
      ensures IsBlank(customInput) ==> unchanged(this) && completed == None
      ensures !IsBlank(customInput) ==>
        Committed(old(sections), old(sectionIdx), old(lineIdx), old(usedPhrases), old(frontier),
                  Trim(customInput), completed)
    {
      completed := None;
      if Trim(customInput) != [] {
        completed := SetLine(Trim(customInput));
      }
    }

    /** `jumpTo`: moves the cursor to a slot already reached (at or below the
        frontier) other than the current one; otherwise does nothing. Lines,
        used phrases and frontier never change. */
    method JumpTo(si: nat, li: nat)
      requires Valid() && IsSlot(sections, si, li)
      modifies this`sectionIdx, this`lineIdx
      ensures Valid()
      ensures var moved := (si != old(sectionIdx) || li != old(lineIdx))
                           && GlobalIndex(sections, si, li) <= frontier;
        if moved then sectionIdx == si && lineIdx == li
        else sectionIdx == old(sectionIdx) && lineIdx == old(lineIdx)
    {
      var targetGlobal := GetGlobalIndex(sections, si, li);
      var currentGlobal := GetGlobalIndex(sections, sectionIdx, lineIdx);
      GlobalIndexInjective(sections, si, li, sectionIdx, lineIdx);
      if targetGlobal == currentGlobal {
        return;
      }
      if targetGlobal <= frontier {
        sectionIdx := si;
        lineIdx := li;
      }
    }

    /** `filledLines`: every non-blank slot other than the cursor's, in
        composition order, with its text and section heading. */
    method FilledLines() returns (r: seq<FilledLine>)
      requires Valid()
      ensures forall k :: 0 <= k < |r| ==> Lists(sections, Cursor(sectionIdx, lineIdx), r[k])
      ensures forall si: nat, li: nat :: FilledSlot(sections, Cursor(sectionIdx, lineIdx), si, li) ==>
        exists k :: 0 <= k < |r| && r[k].si == si && r[k].li == li
      ensures forall i, j :: 0 <= i < j < |r| ==> Before(r[i], r[j])
    {
      var cursor := Cursor(sectionIdx, lineIdx);
      var currentGlobal := GetGlobalIndex(sections, sectionIdx, lineIdx);
      r := [];
      for si := 0 to |sections|
        invariant forall k :: 0 <= k < |r| ==> Lists(sections, cursor, r[k]) && r[k].si < si
        invariant forall s: nat, l: nat :: s < si && FilledSlot(sections, cursor, s, l) ==>
          exists k :: 0 <= k < |r| && r[k].si == s && r[k].li == l
        invariant forall i, j :: 0 <= i < j < |r| ==> Before(r[i], r[j])
      {
        assert WellFormed(sections[si]);
        for li := 0 to |sections[si].lines|
          invariant forall k :: 0 <= k < |r| ==>
            Lists(sections, cursor, r[k]) && (r[k].si < si || (r[k].si == si && r[k].li < li))
          invariant forall s: nat, l: nat :: (s < si || (s == si && l < li)) && FilledSlot(sections, cursor, s, l) ==>
            exists k :: 0 <= k < |r| && r[k].si == s && r[k].li == l
          invariant forall i, j :: 0 <= i < j < |r| ==> Before(r[i], r[j])
        {
          var text := sections[si].lines[li];
          var g := GetGlobalIndex(sections, si, li);
          GlobalIndexInjective(sections, si, li, sectionIdx, lineIdx);
          ghost var prev := r;
          if !IsBlank(text) && g != currentGlobal {
            r := r + [FilledLine(si, li, text, sections[si].heading)];
            assert r[|r| - 1].si == si && r[|r| - 1].li == li;
          }
          assert forall k :: 0 <= k < |prev| ==> r[k] == prev[k];
          assert FilledSlot(sections, cursor, si, li) ==> r[|r| - 1].si == si && r[|r| - 1].li == li;
        }
      }
    }
  }

  /** The first two intro lines of the first pattern lead to the chorus's
      first line, whose global index is 2; the second line of its verse
      has global index 7. */
  lemma Pattern1Walk()
    ensures var ss := BuildSections(Pattern1.sections);
      && Next(ss, 0, 0) == Some(Cursor(0, 1))
      && Next(ss, 0, 1) == Some(Cursor(1, 0))
      && GlobalIndex(ss, 1, 0) == 2
      && GlobalIndex(ss, 2, 1) == 7
      && FirstChorusAt(ss, 1) && !FirstChorusAt(ss, 4)
  {
    var ss := BuildSections(Pattern1.sections);
    BuildSectionsKinds(Pattern1.sections);
    assert Kinds(ss)[0] == Intro && Kinds(ss)[1] == Chorus && Kinds(ss)[4] == Chorus;
    TotalLinesStep(ss, 0);
    TotalLinesStep(ss, 1);
    assert ss[..0] == [];
  }
}
