/**
 * The review screen: the finished song is shown section by section, and any
 * single line can be opened in an editor, offered fresh candidates, and
 * replaced.
 */
module Review {
  import opened Optional
  import opened Text
  import opened Catalog
  import opened Generator

  /** The slot the editor is open on. */
  datatype EditTarget = EditTarget(sectionIdx: nat, lineIdx: nat)

  /** A list with every element kept is the list itself. */
  lemma {:induction false} FilterKeepsAll(s: seq<string>, keep: string -> bool)
    requires forall x :: x in s ==> keep(x)
    ensures Filter(s, keep) == s
  {
    if s != [] {
      FilterKeepsAll(s[1..], keep);
      assert [s[0]] + s[1..] == s;
    }
  }

  /** The review editor asks for candidates as a first-time, nothing-used
      request: verse and pre-chorus candidates come from the whole pool, and
      the closing line of every chorus draws plain endings. */
  lemma ReviewCandidatesUnfiltered(d: Dictionary, kind: SectionType, lineIndex: nat, o: Oracle)
    requires d.Valid()
    ensures var r := GetCandidatesForSection(d, kind, lineIndex, false, {}, o);
      && (kind == Verse ==> r == PickRandomN(d.versePhrases, 3, o.shuffle))
      && (kind == PreChorus ==> r == PickRandomN(d.prechorusPhrases, 3, o.shuffle))
      && (kind == Chorus && lineIndex == 3 ==> r == PickRandomN(d.chorusEnding, 3, o.shuffle))
  {
    var none: set<string> := {};
    FilterKeepsAll(d.versePhrases, p => p !in none);
    FilterKeepsAll(d.prechorusPhrases, p => p !in none);
  }

  class ReviewScreen {
    var sections: seq<Section>
    var editTarget: Option<EditTarget>
    var editText: string
    var rerollCandidates: seq<string>

    /** An open editor is on a slot of the song. */
    ghost predicate Valid()
      reads this
    {
      editTarget.Some? ==>
        editTarget.value.sectionIdx < |sections|
        && editTarget.value.lineIdx < |sections[editTarget.value.sectionIdx].lines|
    }

    constructor (initialSections: seq<Section>)
      ensures Valid()
      ensures sections == initialSections && editTarget == None && editText == [] && rerollCandidates == []
    {
      sections := initialSections;
      editTarget := None;
      editText := [];
      rerollCandidates := [];
    }

    /** `openEdit`: opens the editor on a slot, seeded with the slot's
        current text and with candidates drawn as for a first-time,
        nothing-used request. */
    method OpenEdit(si: nat, li: nat, d: Dictionary, o: Oracle)
      requires Valid() && d.Valid()
      requires si < |sections| && li < |sections[si].lines|
      modifies this`editTarget, this`editText, this`rerollCandidates
      ensures Valid()
      ensures editTarget == Some(EditTarget(si, li))
      ensures editText == sections[si].lines[li]
      ensures rerollCandidates == GetCandidatesForSection(d, sections[si].kind, li, false, {}, o)
    {
      editTarget := Some(EditTarget(si, li));
      editText := sections[si].lines[li];
      rerollCandidates := GetCandidatesForSection(d, sections[si].kind, li, false, {}, o);
    }

    /** `saveLine`: without an open editor, nothing; otherwise the targeted
        slot holds `text`, every other slot, line count and field is as
        before, the updated song is handed on and the editor closes. */
    method SaveLine(text: string) returns (updated: Option<seq<Section>>)
      requires Valid()
      modifies this`sections, this`editTarget
      ensures Valid()
      ensures old(editTarget).None? ==> unchanged(this) && updated == None
      ensures old(editTarget).Some? ==>
        var t := old(editTarget).value;
        && sections == WriteSlot(old(sections), t.sectionIdx, t.lineIdx, text)
        && updated == Some(sections)
        && editTarget == None
    {
      if editTarget.None? {
        return None;
      }
      var t := editTarget.value;
      sections := WriteSlot(sections, t.sectionIdx, t.lineIdx, text);
      updated := Some(sections);
      editTarget := None;
    }

    /** `rerollCandidatesRefresh`: without an open editor, nothing;
        otherwise fresh candidates for the targeted slot. */
    method RerollCandidatesRefresh(d: Dictionary, o: Oracle)
      requires Valid() && d.Valid()
      modifies this`rerollCandidates
      ensures Valid()
      ensures editTarget.None? ==> rerollCandidates == old(rerollCandidates)
      ensures editTarget.Some? ==>
        rerollCandidates == GetCandidatesForSection(d, sections[editTarget.value.sectionIdx].kind,
                                                    editTarget.value.lineIdx, false, {}, o)
    {
      if editTarget.None? {
        return;
      }
      rerollCandidates := GetCandidatesForSection(d, sections[editTarget.value.sectionIdx].kind,
                                                  editTarget.value.lineIdx, false, {}, o);
    }
  }
}
