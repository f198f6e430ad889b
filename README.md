# Yasuke song generator — a verified model of the lyric wizard's core

The application helps a user write a song's lyrics in a fixed genre. It walks
through these steps:

1. The user picks a song structure: one of two predefined patterns, or a
   free-form list built in a structure builder.
2. A wizard fills the structure line by line. Each line is filled from
   suggested phrases, a random phrase, a copy of an earlier line, custom text
   or a skip.
3. The user reviews the song and edits single lines.
4. The app serializes title, lyrics and vocal type into one prompt text for a
   music generator.

This project models that core in Dafny. Each source module has a model
module:

- `Catalog` (catalog.dfy) models `src/data/structures.ts` and the data types
  of `src/types/index.ts`:
  - the section-type table;
  - the two patterns;
  - building sections from a pattern with a running per-type counter map;
  - creating one section against an existing list;
  - occurrence-numbered headings ("Chorus", "Chorus 2", ...).
- `Generator` (generator.dfy) models the candidate engine of
  `src/utils/generator.ts`. That covers random picks, the used-phrase filter,
  the per-type candidate rules, the forced keyword lines, random single
  candidates and titles.
- `Prompt` (prompt.dfy) models `generateSunoPrompt`. A method with the
  source's nested append loops is proved equal to a recursive definition of
  the prompt text. Lemmas about that definition follow.
- `Wizard` (wizard.dfy) models the composition screen
  (`src/screens/WizardScreen.tsx`) as a class. Its fields are the source's
  state: sections, cursor, candidates, used phrases and frontier. Each handler
  is a method.
- `Builder` (builder.dfy) models the structure builder
  (`src/screens/StructureBuilderScreen.tsx`). It is a class over the section
  list, with the relabelling loop as a method.
- `Review` (review.dfy) models the review screen's single-line editor
  (`src/screens/ReviewScreen.tsx`).
- `Text` (text.dfy) holds the JavaScript string primitives the core uses.
  These are `trim` and its truthiness, `includes`, and the decimal rendering
  of a number in a template literal.
- `Optional` (option.dfy) is an option type.

Names and representations:

- The section fields `type` and `label` are called `kind` and `heading`.
- Strings are `seq<char>`. Counts and indices are unbounded naturals; the
  source's numbers never get near overflow.
- Randomness is an explicit `Oracle` value. Every draw is a function of it.
  The pick of an index is the drawn number when it is in range, so every
  element is a possible outcome. The reordering is a sequence of choices, and
  `ShuffleReachesEveryPermutation` shows that every permutation is one of its
  outcomes.
- The phrase dictionary (`src/data/dictionary`) is not part of this model. It
  is a `Dictionary` parameter whose `Valid()` predicate states what the engine
  relies on:
  - every pool is non-empty;
  - some chorus opener contains "ヤスケ！";
  - some ending contains "ヤスケ";
  - at least two endings do not contain "ヤスケ".
- React's state updates are modelled as sequential assignments within one
  handler. The frontier effect (`src/screens/WizardScreen.tsx:46-48`) is
  folded into the methods that move the cursor. A callback such as
  `onComplete` or `onUpdate` becomes an `Option` result holding the sections
  handed on.

A few details of the code differ from what a plain description of the app
would suggest. The model follows the code:

- A committed phrase joins the used phrases when `text.trim()` is non-empty,
  not merely when the text is non-empty (`src/screens/WizardScreen.tsx:78`).
- `jumpTo` also does nothing when the target is the current slot
  (`src/screens/WizardScreen.tsx:120`).
- Candidate lists are not guaranteed distinct: they are drawn from pools that
  may hold repeats, and the chorus opener mixes two pools. The model proves
  lengths, membership and forced inclusion, not distinctness.
- The serializer's skip marker `（スキップ）` is never written by the wizard.
  A skip commits the empty string. `SkippedLineVanishes` proves that a skipped
  slot contributes nothing to the prompt, as if it were absent.

## Model

| member | source | states |
|---|---|---|
| Catalog.Config | src/data/structures.ts:18-52 | every section type has a positive line count, exactly two annotation tags and a non-empty label |
| Catalog.HeadingsStartApart | src/data/structures.ts:18-52 | labels of different types start with different characters, so they cannot collide |
| Catalog.CountIsMultiplicity | src/data/structures.ts:55-58 | the running per-type count equals the multiplicity of the type in the list |
| Catalog.MakeSection | src/data/structures.ts:60-66 | a created section has the requested type, the table's line count, that many empty lines and the table's tags |
| Catalog.WriteSlot | src/screens/WizardScreen.tsx:71-75 | writing one slot changes exactly that slot; every other slot, every line count and every other field is unchanged |
| Catalog.CreateSectionsFromPattern | src/data/structures.ts:54-68 | the counter-map loop yields one section per pattern entry, in order and of the same type, each blank as the table configures it, equal to BuildSections of the pattern |
| Catalog.CounterBump | src/data/structures.ts:55-58 | bumping the entry of the next type keeps the counter map equal to the per-type counts of the prefix seen, and the bumped value is that section's occurrence number |
| Catalog.BuildSectionsBlank | src/data/structures.ts:56-66 | every built section has its entry's type and is blank as the table creates it |
| Catalog.CreateSectionFromType | src/data/structures.ts:70-81 | a new section of the given type, blank, labelled with one plus the number of existing sections of that type |
| Catalog.BuildSectionsKinds | src/data/structures.ts:56-61 | the types of the built sections are the pattern's types |
| Catalog.BuildSectionsSnoc | src/data/structures.ts:54-68 | building one more type only appends a section numbered one past the earlier sections of its type |
| Catalog.BuildSectionsLabels | src/data/structures.ts:58-62 | the k-th section of a type is labelled with k, the multiplicity of its type up to and including it |
| Catalog.AppendEachMatchesPattern | src/data/structures.ts:54-81 | adding a pattern's types one by one with createSectionFromType gives exactly what createSectionsFromPattern gives |
| Catalog.OccurrenceIncreases | src/data/structures.ts:58 | later sections of the same type have strictly larger occurrence numbers |
| Catalog.LabelReadsBack | src/data/structures.ts:59-62 | a label starts with the type's configured label; it is that label alone exactly for the first occurrence, and otherwise continues with a space and a numeral whose value is the occurrence number |
| Catalog.LabelsOfOneTypeDiffer | src/data/structures.ts:59-62 | different occurrence numbers give different labels |
| Catalog.LabelsDistinct | src/data/structures.ts:54-68 | no two sections built from a pattern share a label |
| Catalog.TotalLinesOfBuild | src/data/structures.ts:63-64 | the built sections hold as many line slots as the table gives their types |
| Catalog.Pattern1TypeLines | src/data/structures.ts:8 | the first pattern's types give 16 lines |
| Catalog.Pattern2TypeLines | src/data/structures.ts:14 | the second pattern's types give 21 lines |
| Catalog.PatternTotals | src/data/structures.ts:3-16 | the first pattern builds 2+4+4+2+4 = 16 line slots and the second 4+4+2+4+3+4 = 21 |
| Catalog.AllSectionTypesOnce | src/data/structures.ts:83 | the builder's palette lists each of the six types exactly once |
| Text.Trim | src/screens/WizardScreen.tsx:112-116 | trimming gives the empty string exactly for blank input, keeps blankness, and a non-empty result neither starts nor ends with whitespace |
| Text.TrimSurrounded | src/screens/WizardScreen.tsx:112-116 | the trimmed text is the input with a blank prefix and a blank suffix cut off, so it is the input's middle part and not just some whitespace-free string |
| Text.TrimStart | src/screens/WizardScreen.tsx:114 | the result is a suffix of the input whose cut-off prefix is blank and which does not start with whitespace |
| Text.TrimEnd | src/screens/WizardScreen.tsx:114 | the result is a prefix of the input whose cut-off suffix is blank and which does not end with whitespace |
| Text.Decimal | src/data/structures.ts:59 | the numeral of a count is a non-empty string of digits with no leading zero (its first digit is 0 exactly for zero) |
| Text.DecimalRoundTrip | src/data/structures.ts:59 | reading a rendered numeral back gives the number |
| Text.DecimalInjective | src/data/structures.ts:59 | distinct counts render as distinct numerals |
| Text.ContainsOccurs | src/utils/generator.ts:82-83 | `includes` holds exactly when the pattern occurs in the text at some position |
| Generator.Filter | src/utils/generator.ts:25 | the result keeps exactly the elements that pass the test, in order, as a subsequence of the input |
| Generator.FilterCounts | src/utils/generator.ts:25 | every element that passes the test is kept as often as it occurs in the input, every other element not at all |
| Generator.Choose | src/utils/generator.ts:16 | a random index is within range and equals the drawn number whenever that is in range |
| Generator.PickRandom | src/utils/generator.ts:15-17 | a random pick is an element of the array, and every element can be picked |
| Generator.Shuffle | src/utils/generator.ts:20 | a reordering driven by a sequence of random choices has the input's length (its permutation property is ShufflePermutes) |
| Generator.ShufflePermutes | src/utils/generator.ts:20 | a random reordering is a permutation of its input |
| Generator.ShuffleReachesEveryPermutation | src/utils/generator.ts:20 | every permutation of the input is an outcome of some reordering choices |
| Generator.ShuffleMembers | src/utils/generator.ts:85 | a reordering has the input's length and exactly the input's elements |
| Generator.PickRandomN | src/utils/generator.ts:19-22 | exactly min(n, length) elements, each taken from the array no more often than it occurs there |
| Generator.FilterUsed | src/utils/generator.ts:24-27 | exactly the pool with the used phrases filtered out when at least minRequired remain (so at least minRequired phrases, none used), otherwise the whole pool; always a subsequence of the pool |
| Generator.ChorusFirstLineCandidates | src/utils/generator.ts:81-86 | one plus min(2, other openers and chorus lines) candidates, at least one containing "ヤスケ！", all from the openers or the chorus lines |
| Generator.ChorusEndingCandidates | src/utils/generator.ts:89-97 | endings only; for the first chorus exactly three, one containing "ヤスケ"; otherwise min(3, endings) |
| Generator.GetCandidatesForSection | src/utils/generator.ts:29-78 | never more than three candidates |
| Generator.IntroCandidates | src/utils/generator.ts:36-40 | intro candidates: min(3, tags+1) of them, from the intro tags plus one chorus opener |
| Generator.OutroCandidates | src/utils/generator.ts:68-73 | outro candidates: min(3, tags+2) of them, from the outro tags plus one ending and one chorus line |
| Generator.SinglePoolCandidates | src/utils/generator.ts:52-66 | inner chorus lines draw only chorus lines and a bridge only bridge phrases, min(3, pool) of them |
| Generator.VerseCandidatesAvoidUsed | src/utils/generator.ts:55-63 | verse and pre-chorus candidates are three unused phrases of the section's own pool when at least three are unused, otherwise drawn from the whole pool |
| Generator.ChorusOpenerHasAnthem | src/utils/generator.ts:44-46 | a chorus's first line always offers a "ヤスケ！" line, draws only openers and chorus lines, and offers three when there are at least two chorus lines |
| Generator.ChorusClosingCandidates | src/utils/generator.ts:48-50 | a chorus's line 3 offers endings only, and for the first chorus three of them with one containing "ヤスケ" |
| Generator.ChorusClosingLineIsLast | src/utils/generator.ts:48 | the hard-coded index 3 is the last line of every chorus that has the table's four line slots, whatever its lines hold |
| Generator.GetRandomCandidate | src/utils/generator.ts:99-104 | an ending for a chorus, otherwise a verse phrase or a chorus line |
| Generator.GenerateTitle | src/utils/generator.ts:106-108 | a title starter followed by a title ender |
| Prompt.GenerateSunoPrompt | src/utils/generator.ts:110-136 | the nested append loops produce exactly the prompt text: style block, title block, lyrics header, and per section its bracketed label, tags and rendered lines |
| Prompt.LinesTextAppend | src/utils/generator.ts:126-132 | rendering lines distributes over concatenation |
| Prompt.SectionsTextAppend | src/utils/generator.ts:121-133 | the lyrics of a song are the lyrics of its parts, one after the other |
| Prompt.SkippedLineVanishes | src/utils/generator.ts:126-131 | a blank slot, as a skip writes it, renders as if the slot were absent |
| Prompt.FreshLinesAreSilent | src/utils/generator.ts:129-131 | empty lines render to nothing |
| Prompt.BlankSectionText | src/utils/generator.ts:121-132 | a freshly created section renders to its heading and the table's tags alone |
| Prompt.PromptDeterminesTitle | src/utils/generator.ts:118-135 | with the same sections and vocal type, two prompts are equal only if their titles are |
| Prompt.VoiceInitial | src/utils/generator.ts:111-116 | a fixed position of the style line holds 'M' for male and 'F' for female vocals |
| Prompt.PromptDeterminesVocalType | src/utils/generator.ts:111-116 | a male-vocal prompt never equals a female-vocal prompt |
| Prompt.LinesExample | src/utils/generator.ts:126-132 | a filled line, an empty line and a skip marker render as the line followed by one empty line |
| Wizard.GetGlobalIndex | src/screens/WizardScreen.tsx:23-27 | the loop computes the line counts of the earlier sections plus the line index |
| Wizard.GlobalIndexOrder | src/screens/WizardScreen.tsx:23-27 | one slot precedes another in composition order exactly when its global index is smaller |
| Wizard.GlobalIndexInjective | src/screens/WizardScreen.tsx:23-27 | two slots have the same global index exactly when they are the same slot |
| Wizard.GlobalIndexBelowTotal | src/screens/WizardScreen.tsx:42-43 | every slot's global index is below the total line count |
| Wizard.NextIsSuccessor | src/screens/WizardScreen.tsx:85-97 | advancing moves to the slot whose global index is one higher, and completes exactly at the last slot |
| Wizard.WriteSlotKeepsShape | src/screens/WizardScreen.tsx:70-76 | writing a slot keeps every type and line count, hence every global index and the total |
| Wizard.FirstChorusIsFirstOccurrence | src/screens/WizardScreen.tsx:50-56 | the first-chorus test holds exactly at the first chorus position of the song |
| Wizard.WizardScreen.constructor | src/screens/WizardScreen.tsx:30-38 | the session starts at slot (0, 0) with frontier 0, no used phrases and no candidates |
| Wizard.WizardScreen.IsFirstChorus | src/screens/WizardScreen.tsx:50-56 | true exactly when the current section is a chorus and no earlier one is |
| Wizard.WizardScreen.RefreshCandidates | src/screens/WizardScreen.tsx:58-64 | candidates are the engine's for the current type, line, first-chorus flag and used phrases |
| Wizard.WizardScreen.AdvanceLine | src/screens/WizardScreen.tsx:85-101 | the cursor moves to the next line, else to the next section's first line, else stays and the sections are handed on; the frontier rises to the cursor |
| Wizard.WizardScreen.SetLine | src/screens/WizardScreen.tsx:70-83 | only the cursor slot changes; a non-blank verse or pre-chorus text joins the used phrases; the cursor advances and the frontier keeps at or above it |
| Wizard.WizardScreen.HandleCopyLine | src/screens/WizardScreen.tsx:143-156 | copying commits the copied text exactly as setLine does |
| Wizard.WizardScreen.HandleSkip | src/screens/WizardScreen.tsx:103-105 | a skip commits the empty string and leaves the used phrases unchanged |
| Wizard.WizardScreen.HandleRandom | src/screens/WizardScreen.tsx:107-110 | commits a random candidate for the current type |
| Wizard.WizardScreen.HandleCustomSubmit | src/screens/WizardScreen.tsx:112-116 | blank input changes nothing; otherwise the trimmed input is committed |
| Wizard.WizardScreen.JumpTo | src/screens/WizardScreen.tsx:118-128 | the cursor moves exactly when the target differs from it and is at or below the frontier; lines, used phrases and frontier never change |
| Wizard.WizardScreen.FilledLines | src/screens/WizardScreen.tsx:130-141 | lists exactly the non-blank slots other than the cursor's, each with its text and heading, in composition order |
| Wizard.Pattern1Walk | src/screens/WizardScreen.tsx:85-97 | in the first pattern the intro's two lines lead to the chorus at global index 2, the verse's second line has index 7, and only the first chorus is the first chorus |
| Builder.Relabel | src/screens/StructureBuilderScreen.tsx:41-47 | the counter-map loop gives every section the label of its occurrence number among sections of its type |
| Builder.RelabeledKeepsFields | src/screens/StructureBuilderScreen.tsx:42-46 | relabelling changes nothing but the labels |
| Builder.RelabeledHeadings | src/screens/StructureBuilderScreen.tsx:57-63 | the labels equal those that building the same type sequence as a pattern gives |
| Builder.RelabeledBlank | src/screens/StructureBuilderScreen.tsx:41-47 | relabelling freshly created sections gives exactly the sections built from their type sequence |
| Builder.RelabelIdempotent | src/screens/StructureBuilderScreen.tsx:57-63 | relabelling twice is relabelling once |
| Builder.Without | src/screens/StructureBuilderScreen.tsx:40 | dropping a valid index removes exactly that element, keeping the order; an invalid index keeps the list |
| Builder.SwapKinds | src/screens/StructureBuilderScreen.tsx:55-56 | exchanging two sections exchanges their types and keeps the multiset of types |
| Builder.TypeLinesByCount | src/data/structures.ts:18-52 | the total lines of a type list are fixed by how often each type occurs, weighted by the table's line counts |
| Builder.PermutedTypeLines | src/screens/StructureBuilderScreen.tsx:55-56 | reordering the types keeps the total line count |
| Builder.SwappedBuildIsBuilt | src/screens/StructureBuilderScreen.tsx:54-64 | exchanging two sections of a built list and relabelling gives the list built from the exchanged types |
| Builder.SwappedBuild | src/screens/StructureBuilderScreen.tsx:54-64 | the moved list stays built, with the same multiset of types and the same total line count |
| Builder.StructureBuilderScreen.constructor | src/screens/StructureBuilderScreen.tsx:32 | the builder starts with an empty list |
| Builder.StructureBuilderScreen.AddSection | src/screens/StructureBuilderScreen.tsx:34-36 | appends a section created against the list so far; earlier sections are unchanged and the list stays built from its types |
| Builder.StructureBuilderScreen.RemoveSection | src/screens/StructureBuilderScreen.tsx:38-49 | the list without the element at the index (unchanged for an invalid index), relabelled; one shorter for a valid index |
| Builder.StructureBuilderScreen.MoveSection | src/screens/StructureBuilderScreen.tsx:51-65 | nothing when the neighbour is out of range; otherwise the swapped list relabelled, with the same multiset of types and total line count |
| Builder.StructureBuilderScreen.HandleComplete | src/screens/StructureBuilderScreen.tsx:67-71 | the list is handed on exactly when it is non-empty, and it is what building its types as a pattern gives |
| Review.FilterKeepsAll | src/utils/generator.ts:25 | a filter that rejects nothing returns the list itself |
| Review.ReviewCandidatesUnfiltered | src/screens/ReviewScreen.tsx:33 | with default arguments, verse and pre-chorus candidates come from the whole pool and a chorus's line 3 draws plain endings |
| Review.ReviewScreen.constructor | src/screens/ReviewScreen.tsx:23-28 | no editor is open and the edit text and candidates are empty |
| Review.ReviewScreen.OpenEdit | src/screens/ReviewScreen.tsx:30-34 | the editor opens on the slot, seeded with its current text and with candidates for a first-time request with no used phrases |
| Review.ReviewScreen.SaveLine | src/screens/ReviewScreen.tsx:36-47 | without an open editor nothing changes; otherwise exactly the targeted slot holds the text, the updated song is handed on and the editor closes |
| Review.ReviewScreen.RerollCandidatesRefresh | src/screens/ReviewScreen.tsx:49-54 | without an open editor nothing changes; otherwise fresh candidates for the targeted slot |

## Left out

- Rendering is not modelled: JSX, styles, the input, copy-mode and scroll
  state, and per-row display flags.
- The floating-point `progress` ratio (`src/screens/WizardScreen.tsx:44`) is
  not modelled; it is only displayed.
- The quality of `sort(() => Math.random() - 0.5)` is not modelled. Draws are
  arbitrary choices, and only lengths, membership, permutation and forced
  inclusion are specified.
- Generator.Dictionary: the phrase pools (`src/data/dictionary`) are not part
  of this model. They are a parameter, and `Valid()` assumes the properties
  listed above.
- Text.IsSpace: only the common whitespace code points of ECMAScript `trim`
  are listed, not every Unicode space separator.
- Wizard.WizardScreen.constructor requires a non-empty list of sections whose
  line arrays match their line counts. The source renders nothing for an
  empty list, and every list it is given comes from the catalog.
- Wizard.WizardScreen.JumpTo requires an existing slot. The screen only offers
  the rows it renders.
- Review.ReviewScreen.OpenEdit requires an existing slot, for the same reason.
- Builder.StructureBuilderScreen.MoveSection requires an index in range and a
  direction of -1 or 1. The buttons only exist on rendered rows, and the
  source's type allows only those two directions.
- Wizard.WizardScreen.RefreshCandidates is a separate call: it is not
  re-run automatically after every cursor change, as React's effect does.
- Candidate distinctness is not proved. The source does not guarantee it, as
  noted above.
- Text widget state (`customInput`) is a parameter of HandleCustomSubmit.
- The callbacks `onComplete`, `onUpdate` and `onBack` are not modelled as
  calls; the sections handed on are returned instead.
- Clipboard export, the other screens and the routing in `App.tsx` are not
  modelled. App.tsx only turns a builder result into a pattern of its
  section types and feeds screens into one another.
