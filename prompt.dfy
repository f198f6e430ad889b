/**
 * The prompt serializer: a song's title, sections and vocal type become one
 * text block for the music generator, made of a style block, a title block
 * and the lyrics with their bracketed section headings and annotation tags.
 */
module Prompt {
  import opened Text
  import opened Catalog

  /** The line content the serializer renders as an empty lyric line. */
  const SkipMarker: string := "（スキップ）"

  /** The vocal style line shares its opening and closing between the two
      vocal types. */
  const StyleOpening: string := "Eurobeat, High Tempo, Electronic Dance, "
  const MaleVoice: string := "Male Vocals, Powerful, Shouting, "
  const FemaleVoice: string := "Female Vocals, High Range, Emotional, "
  const StyleClosing: string := "Jidaigeki Anime Style, Dramatic, Heavy Bassline, Synthesizer Rush"

  const LyricsHeader: string := "【歌詞】\n"

  function VocalStyle(vocalType: VocalType): string {
    StyleOpening + (if vocalType == Male then MaleVoice else FemaleVoice) + StyleClosing
  }

  function StyleBlock(vocalType: VocalType): string {
    "【スタイル】\n" + VocalStyle(vocalType) + ", Japanese Lyrics Only, Do not sing text in parentheses"
  }

  function TitleBlock(title: string): string {
    "【タイトル】\n" + title
  }

  /** Every item followed by a line break (the tag loop). */
  function Terminated(items: seq<string>): string {
    if items == [] then ""
    else Terminated(items[..|items| - 1]) + (items[|items| - 1] + "\n")
  }

  /** What one lyric line contributes: a bare line break for the skip
      marker, the line and a break for a non-blank line, nothing otherwise. */
  function LineText(line: string): string {
    if line == SkipMarker then "\n"
    else if !IsBlank(line) then line + "\n"
    else ""
  }

  function LinesText(lines: seq<string>): string {
    if lines == [] then ""
    else LinesText(lines[..|lines| - 1]) + LineText(lines[|lines| - 1])
  }

  function HeadingText(s: Section): string {
    "\n[" + s.heading + "]\n"
  }

  /** One section: its bracketed heading, its tags, then its lines. */
  function SectionText(s: Section): string {
    HeadingText(s) + Terminated(s.metaTags) + LinesText(s.lines)
  }

  function SectionsText(sections: seq<Section>): string {
    if sections == [] then ""
    else SectionsText(sections[..|sections| - 1]) + SectionText(sections[|sections| - 1])
  }

  /** The lyrics block: its header, then every section. */
  function Lyrics(sections: seq<Section>): string {
    LyricsHeader + SectionsText(sections)
  }

  /** The whole prompt: style block, title block and lyrics, separated by
      blank lines. */
  function PromptText(title: string, sections: seq<Section>, vocalType: VocalType): string {
    StyleBlock(vocalType) + "\n\n" + TitleBlock(title) + "\n\n" + Lyrics(sections)
  }

  /** `generateSunoPrompt`: appends the lyrics section by section, tag by tag
      and line by line. */
  method GenerateSunoPrompt(title: string, sections: seq<Section>, vocalType: VocalType) returns (r: string)
    ensures r == PromptText(title, sections, vocalType)
  {
    var vocalStyle := if vocalType == Male
      then StyleOpening + MaleVoice + StyleClosing
      else StyleOpening + FemaleVoice + StyleClosing;
    var style := "【スタイル】\n" + vocalStyle + ", Japanese Lyrics Only, Do not sing text in parentheses";
    var titleSection := "【タイトル】\n" + title;
    var lyrics := LyricsHeader;
    for i := 0 to |sections|
      invariant lyrics == Lyrics(sections[..i])
    {
      var section := sections[i];
      ghost var before := lyrics;
      lyrics := lyrics + ("\n[" + section.heading + "]\n");
      ghost var head := lyrics;
      assert section.metaTags[..0] == [];
      for j := 0 to |section.metaTags|
        invariant lyrics == head + Terminated(section.metaTags[..j])
      {
        TerminatedStep(section.metaTags, j);
        Assoc(head, Terminated(section.metaTags[..j]), section.metaTags[j] + "\n");
        lyrics := lyrics + (section.metaTags[j] + "\n");
      }
      assert section.metaTags[..|section.metaTags|] == section.metaTags;
      ghost var tagged := lyrics;
      assert section.lines[..0] == [];
      for j := 0 to |section.lines|
        invariant lyrics == tagged + LinesText(section.lines[..j])
      {
        LinesTextStep(section.lines, j);
        var line := section.lines[j];
        Assoc(tagged, LinesText(section.lines[..j]), LineText(line));
        if line == SkipMarker {
          lyrics := lyrics + "\n";
        } else if !IsBlank(line) {
          lyrics := lyrics + (line + "\n");
        }
      }
      assert section.lines[..|section.lines|] == section.lines;
      SectionStep(sections, i, before, Terminated(section.metaTags), LinesText(section.lines));
    }
    assert sections[..|sections|] == sections;
    r := style + "\n\n" + titleSection + "\n\n" + lyrics;
  }

  lemma TerminatedStep(items: seq<string>, j: nat)
    requires j < |items|
    ensures Terminated(items[..j + 1]) == Terminated(items[..j]) + (items[j] + "\n")
  {
    assert items[..j + 1][..j] == items[..j];
  }

  lemma LinesTextStep(lines: seq<string>, j: nat)
    requires j < |lines|
    ensures LinesText(lines[..j + 1]) == LinesText(lines[..j]) + LineText(lines[j])
  {
    assert lines[..j + 1][..j] == lines[..j];
  }

  /** One pass of the section loop: appending the heading, the tags and the
      lines of section `i` to the lyrics of the earlier sections gives the
      lyrics of the sections up to `i`. */
  lemma SectionStep(sections: seq<Section>, i: nat, before: string, tags: string, lines: string)
    requires i < |sections| && before == Lyrics(sections[..i])
    requires tags == Terminated(sections[i].metaTags) && lines == LinesText(sections[i].lines)
    ensures before + HeadingText(sections[i]) + tags + lines == Lyrics(sections[..i + 1])
  {
    var h := HeadingText(sections[i]);
    assert sections[..i + 1][..i] == sections[..i];
    assert SectionsText(sections[..i + 1]) == SectionsText(sections[..i]) + (h + tags + lines);
    Assoc(before, h, tags);
    Assoc(before, h + tags, lines);
    Assoc(LyricsHeader, SectionsText(sections[..i]), h + tags + lines);
  }

  lemma Assoc(a: string, b: string, c: string)
    ensures a + b + c == a + (b + c)
  {
  }

  /** Serializing lines distributes over concatenation. */
  lemma {:induction false} LinesTextAppend(a: seq<string>, b: seq<string>)
    ensures LinesText(a + b) == LinesText(a) + LinesText(b)
    decreases |b|
  {
    if b != [] {
      var init := b[..|b| - 1];
      assert (a + b)[..|a + b| - 1] == a + init;
      assert (a + b)[|a + b| - 1] == b[|b| - 1];
      var ab := a + b;
      assert LinesText(ab) == LinesText(ab[..|ab| - 1]) + LineText(ab[|ab| - 1]);
      assert LinesText(b) == LinesText(init) + LineText(b[|b| - 1]);
      LinesTextAppend(a, init);
      Assoc(LinesText(a), LinesText(init), LineText(b[|b| - 1]));
    } else {
      assert a + b == a;
    }
  }

  /** Serializing sections distributes over concatenation: the lyrics of a
      song are the lyrics of its parts, one after the other. */
  lemma {:induction false} SectionsTextAppend(a: seq<Section>, b: seq<Section>)
    ensures SectionsText(a + b) == SectionsText(a) + SectionsText(b)
    decreases |b|
  {
    if b != [] {
      var init := b[..|b| - 1];
      assert (a + b)[..|a + b| - 1] == a + init;
      assert (a + b)[|a + b| - 1] == b[|b| - 1];
      var ab := a + b;
      assert SectionsText(ab) == SectionsText(ab[..|ab| - 1]) + SectionText(ab[|ab| - 1]);
      assert SectionsText(b) == SectionsText(init) + SectionText(b[|b| - 1]);
      SectionsTextAppend(a, init);
      Assoc(SectionsText(a), SectionsText(init), SectionText(b[|b| - 1]));
    } else {
      assert a + b == a;
    }
  }

  /** A blank line other than the marker, as the wizard's skip writes it,
      leaves no trace: the lines serialize as if that slot were absent. */
  lemma SkippedLineVanishes(lines: seq<string>, k: nat, blank: string)
    requires k < |lines| && IsBlank(blank)
    ensures LinesText(lines[k := blank]) == LinesText(lines[..k] + lines[k + 1..])
  {
    var pre, post := lines[..k], lines[k + 1..];
    assert !IsSpace(SkipMarker[0]);
    assert LineText(blank) == "";
    assert LinesText([blank]) == "" by {
      assert [blank][..0] == [];
    }
    assert lines[k := blank] == (pre + [blank]) + post;
    LinesTextAppend(pre, [blank]);
    LinesTextAppend(pre + [blank], post);
    LinesTextAppend(pre, post);
  }

  /** A section as the catalog creates it serializes to its heading and tags
      alone. */
  lemma {:induction false} FreshLinesAreSilent(lines: seq<string>)
    requires forall j :: 0 <= j < |lines| ==> lines[j] == ""
    ensures LinesText(lines) == ""
  {
    if lines != [] {
      FreshLinesAreSilent(lines[..|lines| - 1]);
    }
  }

  lemma BlankSectionText(s: Section)
    requires IsBlankSection(s)
    ensures SectionText(s) == "\n[" + s.heading + "]\n" + Terminated(Config(s.kind).metaTags)
  {
    FreshLinesAreSilent(s.lines);
  }

  /** With the same sections and vocal type, the prompt determines the title. */
  lemma PromptDeterminesTitle(t1: string, t2: string, sections: seq<Section>, vocalType: VocalType)
    requires PromptText(t1, sections, vocalType) == PromptText(t2, sections, vocalType)
    ensures t1 == t2
  {
    var a, h := StyleBlock(vocalType) + "\n\n", "【タイトル】\n";
    var x1, x2 := a + (h + t1), a + (h + t2);
    var p := PromptText(t1, sections, vocalType);
    PrefixOfConcat(x1 + "\n\n", Lyrics(sections));
    PrefixOfConcat(x1, "\n\n");
    PrefixOfConcat(x2 + "\n\n", Lyrics(sections));
    PrefixOfConcat(x2, "\n\n");
    assert x1 == p[..|x1|] == x2;
    Assoc(a, h, t1);
    Assoc(a, h, t2);
    assert t1 == x1[|a + h|..];
  }

  lemma PrefixOfConcat(x: string, y: string)
    ensures (x + y)[..|x|] == x
  {
  }

  lemma CharAt(x: string, y: string, i: nat)
    requires i < |x| + |y|
    ensures (x + y)[i] == if i < |x| then x[i] else y[i - |x|]
  {
  }

  /** The character of the style block that names the voice. */
  lemma VoiceInitial(vocalType: VocalType, title: string, sections: seq<Section>)
    ensures PromptText(title, sections, vocalType)[|"【スタイル】\n"| + |StyleOpening|]
         == if vocalType == Male then 'M' else 'F'
  {
    var h := "【スタイル】\n";
    var k := |h| + |StyleOpening|;
    var voice := if vocalType == Male then MaleVoice else FemaleVoice;
    var style := StyleBlock(vocalType);
    assert voice[0] == if vocalType == Male then 'M' else 'F';
    CharAt(StyleOpening, voice, |StyleOpening|);
    CharAt(StyleOpening + voice, StyleClosing, |StyleOpening|);
    CharAt(h, VocalStyle(vocalType), k);
    CharAt(h + VocalStyle(vocalType), ", Japanese Lyrics Only, Do not sing text in parentheses", k);
    CharAt(style, "\n\n", k);
    CharAt(style + "\n\n", TitleBlock(title), k);
    CharAt(style + "\n\n" + TitleBlock(title), "\n\n", k);
    CharAt(style + "\n\n" + TitleBlock(title) + "\n\n", LyricsHeader, k);
    CharAt(style + "\n\n" + TitleBlock(title) + "\n\n" + LyricsHeader, SectionsText(sections), k);
  }

  /** The prompt determines the vocal type: the style line names male or
      female vocals at a fixed position. */
  lemma PromptDeterminesVocalType(t1: string, s1: seq<Section>, t2: string, s2: seq<Section>)
    ensures PromptText(t1, s1, Male) != PromptText(t2, s2, Female)
  {
    VoiceInitial(Male, t1, s1);
    VoiceInitial(Female, t2, s2);
  }

  /** A worked example: a filled line, a skipped line and a marker line
      serialize to the filled line followed by one empty line. */
  lemma LinesExample()
    ensures LinesText(["line1", "", SkipMarker]) == "line1\n\n"
  {
    var lines := ["line1", "", SkipMarker];
    assert !IsBlank("line1") by { assert !IsSpace("line1"[0]); }
    assert SkipMarker != "line1" && SkipMarker != "";
    assert LineText("line1") == "line1\n";
    assert LineText("") == "";
    assert LineText(SkipMarker) == "\n";
    assert lines[..1][..0] == [] && lines[..2][..1] == lines[..1];
    assert LinesText(lines[..1]) == "line1\n";
    assert LinesText(lines[..2]) == "line1\n";
  }
}
