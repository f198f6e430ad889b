/**
 * The candidate engine: for a section type and line position it proposes at
 * most three phrases, drawn at random from the phrase dictionary under
 * per-type rules (forced inclusion of a keyword line, avoidance of phrases
 * already used in verses and pre-choruses).
 *
 * Randomness is an injected oracle: every draw the engine makes is a
 * function of an `Oracle` value, and every `Oracle` value is a legal
 * outcome, so a property proved for all oracles holds for every run.
 */
module Generator {
  import opened Text
  import opened Catalog

  /** The keyword every chorus opener candidate set must contain. */
  const AnthemKeyword: string := "ヤスケ！"

  /** The keyword a first chorus's ending candidate set must contain. */
  const EndingKeyword: string := "ヤスケ"

  /** The phrase dictionary, one pool per category. */
  datatype Dictionary = Dictionary(
    introTags: seq<string>,
    outroTags: seq<string>,
    versePhrases: seq<string>,
    prechorusPhrases: seq<string>,
    chorusFirstLine: seq<string>,
    chorusLines: seq<string>,
    chorusEnding: seq<string>,
    bridgePhrases: seq<string>,
    titleStarters: seq<string>,
    titleEnders: seq<string>)
  {
    /** What the engine relies on: every pool is non-empty, some opener holds
        the anthem keyword, some ending holds the ending keyword, and at least
        two endings do not. */
    predicate Valid() {
      && |introTags| > 0 && |outroTags| > 0 && |versePhrases| > 0 && |prechorusPhrases| > 0
      && |chorusFirstLine| > 0 && |chorusLines| > 0 && |chorusEnding| > 0 && |bridgePhrases| > 0
      && |titleStarters| > 0 && |titleEnders| > 0
      && |WithKeyword(chorusFirstLine, AnthemKeyword)| > 0
      && |WithKeyword(chorusEnding, EndingKeyword)| > 0
      && |WithoutKeyword(chorusEnding, EndingKeyword)| >= 2
    }
  }

  /** The random outcomes of one engine call: indices for up to two single
      draws, the choices of a shuffle, and the choices of the final reorder. */
  datatype Oracle = Oracle(pick: nat, pick2: nat, shuffle: seq<nat>, order: seq<nat>)

  function Min(a: nat, b: nat): nat {
    if a <= b then a else b
  }

  /** `a` is obtained from `b` by deleting elements. */
  predicate IsSubsequence<T(==)>(a: seq<T>, b: seq<T>)
    decreases |b|
  {
    if a == [] then true
    else if b == [] then false
    else (a[0] == b[0] && IsSubsequence(a[1..], b[1..])) || IsSubsequence(a, b[1..])
  }

  /** `Array.prototype.filter`: the elements of `s` that `keep` accepts, in order. */
  function Filter(s: seq<string>, keep: string -> bool): (r: seq<string>)
    ensures |r| <= |s|
    ensures forall x :: x in r <==> x in s && keep(x)
    ensures IsSubsequence(r, s)
  {
    if s == [] then []
    else
      var rest := Filter(s[1..], keep);
      if keep(s[0]) then
        assert ([s[0]] + rest)[1..] == rest;
        [s[0]] + rest
      else rest
  }

  /** A filter keeps every accepted element as often as it occurs and drops
      every other one. */
  lemma {:induction false} FilterCounts(s: seq<string>, keep: string -> bool)
    ensures forall x :: multiset(Filter(s, keep))[x] == if keep(x) then multiset(s)[x] else 0
  {
    if s != [] {
      FilterCounts(s[1..], keep);
      assert s == [s[0]] + s[1..];
      var rest := Filter(s[1..], keep);
      if keep(s[0]) {
        assert Filter(s, keep) == [s[0]] + rest;
      } else {
        assert Filter(s, keep) == rest;
      }
    }
  }

  function WithKeyword(pool: seq<string>, keyword: string): seq<string> {
    Filter(pool, l => Contains(l, keyword))
  }

  function WithoutKeyword(pool: seq<string>, keyword: string): seq<string> {
    Filter(pool, l => !Contains(l, keyword))
  }

  /** The index a random choice `r` selects among `n` positions: `r` itself
      when it is in range (so every position is some outcome), the last
      position otherwise. */
  function Choose(r: nat, n: nat): (k: nat)
    requires n > 0
    ensures k < n && (r < n ==> k == r)
  {
    if r < n then r else n - 1
  }

  /** `pickRandom`: the element at a random index below the length. Every
      element is some outcome. */
  function PickRandom<T>(arr: seq<T>, r: nat): (x: T)
    requires |arr| > 0
    ensures x in arr
    ensures r < |arr| ==> x == arr[r]
  {
    arr[Choose(r, |arr|)]
  }

  /** `arr` without its element at position `k`. */
  function RemoveAt<T>(arr: seq<T>, k: nat): (r: seq<T>)
    requires k < |arr|
    ensures |r| == |arr| - 1
  {
    arr[..k] + arr[k + 1..]
  }

  lemma RemoveAtMultiset<T>(arr: seq<T>, k: nat)
    requires k < |arr|
    ensures multiset(RemoveAt(arr, k)) == multiset(arr) - multiset{arr[k]}
  {
    assert arr == arr[..k] + [arr[k]] + arr[k + 1..];
  }

  /** A random reordering of `arr`: the choices in `rs` select, one after the
      other, which remaining element comes next (missing choices select the first). */
  function Shuffle<T>(arr: seq<T>, rs: seq<nat>): (r: seq<T>)
    ensures |r| == |arr|
    decreases |arr|
  {
    if |arr| == 0 then []
    else
      var k := Choose(if |rs| > 0 then rs[0] else 0, |arr|);
      [arr[k]] + Shuffle(RemoveAt(arr, k), if |rs| > 0 then rs[1..] else [])
  }

  /** A shuffle is a permutation: it keeps every element as often as it occurs. */
  lemma {:induction false} ShufflePermutes<T>(arr: seq<T>, rs: seq<nat>)
    ensures multiset(Shuffle(arr, rs)) == multiset(arr)
    ensures |Shuffle(arr, rs)| == |arr|
    decreases |arr|
  {
    if |arr| > 0 {
      var k := Choose(if |rs| > 0 then rs[0] else 0, |arr|);
      RemoveAtMultiset(arr, k);
      ShufflePermutes(RemoveAt(arr, k), if |rs| > 0 then rs[1..] else []);
    }
  }

  /** The position of the first occurrence of `x` in `s`. */
  function IndexOf<T(==)>(s: seq<T>, x: T): (k: nat)
    requires x in s
    ensures k < |s| && s[k] == x
  {
    if s[0] == x then 0 else 1 + IndexOf(s[1..], x)
  }

  /** No earlier position holds `x`. */
  lemma {:induction false} IndexOfIsFirst<T>(s: seq<T>, x: T)
    requires x in s
    ensures forall i :: 0 <= i < IndexOf(s, x) ==> s[i] != x
  {
    if s[0] != x {
      IndexOfIsFirst(s[1..], x);
      forall i | 0 <= i < IndexOf(s, x) ensures s[i] != x {
        if i > 0 { assert s[i] == s[1..][i - 1]; }
      }
    }
  }

  /** Taking choice `k` first puts `arr[k]` in front of a shuffle of the rest. */
  lemma ShuffleFirstChoice<T>(arr: seq<T>, k: nat, rs: seq<nat>)
    requires k < |arr|
    ensures Shuffle(arr, [k] + rs) == [arr[k]] + Shuffle(RemoveAt(arr, k), rs)
  {
    assert ([k] + rs)[1..] == rs;
  }

  /** The choices that make a shuffle of `arr` produce `p`: at each step the
      position of `p`'s next element among the remaining ones. */
  function ChoicesFor<T(==)>(arr: seq<T>, p: seq<T>): seq<nat>
    requires multiset(p) == multiset(arr)
    decreases |arr|
  {
    if |arr| == 0 || |p| == 0 then []
    else
      assert p[0] in multiset(arr) by { assert p[0] in multiset(p); }
      var k := IndexOf(arr, p[0]);
      RemoveAtMultiset(arr, k);
      assert p == [p[0]] + p[1..];
      [k] + ChoicesFor(RemoveAt(arr, k), p[1..])
  }

  /** Every reordering of `arr` is the outcome of some choices: the shuffle
      model rules out no permutation. */
  lemma {:induction false} ShuffleReachesEveryPermutation<T>(arr: seq<T>, p: seq<T>)
    requires multiset(p) == multiset(arr)
    ensures Shuffle(arr, ChoicesFor(arr, p)) == p
    decreases |arr|
  {
    assert |p| == |arr| by { assert |multiset(p)| == |multiset(arr)|; }
    if |arr| > 0 {
      assert p[0] in multiset(arr) by { assert p[0] in multiset(p); }
      var k := IndexOf(arr, p[0]);
      RemoveAtMultiset(arr, k);
      assert p == [p[0]] + p[1..];
      ShuffleReachesEveryPermutation(RemoveAt(arr, k), p[1..]);
      ShuffleFirstChoice(arr, k, ChoicesFor(RemoveAt(arr, k), p[1..]));
    }
  }

  /** `pickRandomN`: the first `n` elements of a random reordering: exactly
      `min(n, |arr|)` of them, each taken from `arr` no more often than it
      occurs there. */
  function PickRandomN(arr: seq<string>, n: nat, rs: seq<nat>): (r: seq<string>)
    ensures |r| == Min(n, |arr|)
    ensures multiset(r) <= multiset(arr)
    ensures forall x :: x in r ==> x in arr
  {
    var shuffled := Shuffle(arr, rs);
    ShufflePermutes(arr, rs);
    var r := shuffled[..Min(n, |arr|)];
    assert shuffled == r + shuffled[Min(n, |arr|)..];
    assert forall x :: x in r ==> x in multiset(arr);
    r
  }

  /** `filterUsed`: the pool without the used phrases when at least
      `minRequired` of them remain, otherwise the whole pool. */
  function FilterUsed(pool: seq<string>, used: set<string>, minRequired: nat): (r: seq<string>)
    ensures IsSubsequence(r, pool)
    ensures forall x :: x in r ==> x in pool
    ensures |Filter(pool, p => p !in used)| >= minRequired ==> r == Filter(pool, p => p !in used)
    ensures |Filter(pool, p => p !in used)| >= minRequired ==> |r| >= minRequired && forall x :: x in r ==> x !in used
    ensures |Filter(pool, p => p !in used)| < minRequired ==> r == pool
  {
    var available := Filter(pool, p => p !in used);
    if |available| >= minRequired then available else
      assert IsSubsequence(pool, pool) by { SubsequenceReflexive(pool); }
      pool
  }

  lemma {:induction false} SubsequenceReflexive<T>(s: seq<T>)
    ensures IsSubsequence(s, s)
  {
    if s != [] {
      SubsequenceReflexive(s[1..]);
    }
  }

  /** A shuffle holds exactly the elements of its input. */
  lemma ShuffleMembers(arr: seq<string>, rs: seq<nat>)
    ensures |Shuffle(arr, rs)| == |arr|
    ensures forall x :: x in Shuffle(arr, rs) <==> x in arr
  {
    ShufflePermutes(arr, rs);
    forall x ensures x in Shuffle(arr, rs) <==> x in arr {
      assert x in Shuffle(arr, rs) <==> x in multiset(Shuffle(arr, rs));
      assert x in arr <==> x in multiset(arr);
    }
  }

  /** `getChorusFirstLineCandidates`: one anthem opener plus two draws from the
      other openers and the chorus lines, in random order. */
  function ChorusFirstLineCandidates(d: Dictionary, o: Oracle): (r: seq<string>)
    requires d.Valid()
    ensures |r| == 1 + Min(2, |WithoutKeyword(d.chorusFirstLine, AnthemKeyword)| + |d.chorusLines|)
    ensures exists i :: 0 <= i < |r| && Contains(r[i], AnthemKeyword)
    ensures forall x :: x in r ==> x in d.chorusFirstLine || x in d.chorusLines
  {
    var yasukeLines := WithKeyword(d.chorusFirstLine, AnthemKeyword);
    var others := WithoutKeyword(d.chorusFirstLine, AnthemKeyword);
    var first := PickRandom(yasukeLines, o.pick);
    var picked := [first] + PickRandomN(others + d.chorusLines, 2, o.shuffle);
    var r := Shuffle(picked, o.order);
    ShuffleMembers(picked, o.order);
    assert first in picked;
    var i := IndexOf(r, first);
    assert Contains(r[i], AnthemKeyword);
    r
  }

  /** `getChorusEndingCandidates`: for the first chorus one keyword ending
      plus two other endings in random order; otherwise three endings. */
  function ChorusEndingCandidates(d: Dictionary, isFirstChorus: bool, o: Oracle): (r: seq<string>)
    requires d.Valid()
    ensures forall x :: x in r ==> x in d.chorusEnding
    ensures isFirstChorus ==> |r| == 3 && exists i :: 0 <= i < |r| && Contains(r[i], EndingKeyword)
    ensures !isFirstChorus ==> |r| == Min(3, |d.chorusEnding|)
  {
    if isFirstChorus then
      var yasukeEnding := WithKeyword(d.chorusEnding, EndingKeyword);
      var others := WithoutKeyword(d.chorusEnding, EndingKeyword);
      var first := PickRandom(yasukeEnding, o.pick);
      var picked := [first] + PickRandomN(others, 2, o.shuffle);
      var r := Shuffle(picked, o.order);
      ShuffleMembers(picked, o.order);
      assert first in picked;
      var i := IndexOf(r, first);
      assert Contains(r[i], EndingKeyword);
      r
    else
      PickRandomN(d.chorusEnding, 3, o.shuffle)
  }

  /** `getCandidatesForSection`. The chorus closing rule tests `lineIndex == 3`
      literally; see ChorusClosingLineIsLast. */
  function GetCandidatesForSection(d: Dictionary, kind: SectionType, lineIndex: nat,
                                   isFirstChorus: bool, used: set<string>, o: Oracle): (r: seq<string>)
    requires d.Valid()
    ensures |r| <= 3
  {
    match kind
    case Intro =>
      var c := PickRandom(d.chorusFirstLine, o.pick);
      PickRandomN(d.introTags + [c], 3, o.shuffle)
    case Chorus =>
      if lineIndex == 0 then ChorusFirstLineCandidates(d, o)
      else if lineIndex == 3 then ChorusEndingCandidates(d, isFirstChorus, o)
      else PickRandomN(d.chorusLines, 3, o.shuffle)
    case Verse =>
      PickRandomN(FilterUsed(d.versePhrases, used, 3), 3, o.shuffle)
    case PreChorus =>
      PickRandomN(FilterUsed(d.prechorusPhrases, used, 3), 3, o.shuffle)
    case Bridge =>
      PickRandomN(d.bridgePhrases, 3, o.shuffle)
    case Outro =>
      var e := PickRandom(d.chorusEnding, o.pick);
      var l := PickRandom(d.chorusLines, o.pick2);
      PickRandomN(d.outroTags + [e, l], 3, o.shuffle)
  }

  /** Intro candidates: the intro tags plus one chorus opener, shuffled, of
      which three are kept. */
  lemma IntroCandidates(d: Dictionary, lineIndex: nat, isFirstChorus: bool, used: set<string>, o: Oracle)
    requires d.Valid()
    ensures var r := GetCandidatesForSection(d, Intro, lineIndex, isFirstChorus, used, o);
      && |r| == Min(3, |d.introTags| + 1)
      && exists c :: c in d.chorusFirstLine && forall x :: x in r ==> x in d.introTags || x == c
  {
    var c := PickRandom(d.chorusFirstLine, o.pick);
    var r := GetCandidatesForSection(d, Intro, lineIndex, isFirstChorus, used, o);
    assert forall x :: x in r ==> x in d.introTags + [c];
  }

  /** Outro candidates: the outro tags plus one ending and one chorus line,
      shuffled, of which three are kept. */
  lemma OutroCandidates(d: Dictionary, lineIndex: nat, isFirstChorus: bool, used: set<string>, o: Oracle)
    requires d.Valid()
    ensures var r := GetCandidatesForSection(d, Outro, lineIndex, isFirstChorus, used, o);
      && |r| == Min(3, |d.outroTags| + 2)
      && exists e, l :: e in d.chorusEnding && l in d.chorusLines &&
           forall x :: x in r ==> x in d.outroTags || x == e || x == l
  {
    var e := PickRandom(d.chorusEnding, o.pick);
    var l := PickRandom(d.chorusLines, o.pick2);
    var r := GetCandidatesForSection(d, Outro, lineIndex, isFirstChorus, used, o);
    assert forall x :: x in r ==> x in d.outroTags + [e, l];
  }

  /** Inner chorus lines draw only chorus lines; a bridge draws only bridge
      phrases; three of them whenever the pool holds three. */
  lemma SinglePoolCandidates(d: Dictionary, kind: SectionType, lineIndex: nat,
                             isFirstChorus: bool, used: set<string>, o: Oracle)
    requires d.Valid()
    requires kind == Bridge || (kind == Chorus && lineIndex != 0 && lineIndex != 3)
    ensures var r := GetCandidatesForSection(d, kind, lineIndex, isFirstChorus, used, o);
      var pool := if kind == Bridge then d.bridgePhrases else d.chorusLines;
      |r| == Min(3, |pool|) && forall x :: x in r ==> x in pool
  {
  }

  /** The pool a verse or pre-chorus draws from. */
  function PhrasePool(d: Dictionary, kind: SectionType): seq<string>
    requires kind == Verse || kind == PreChorus
  {
    if kind == Verse then d.versePhrases else d.prechorusPhrases
  }

  /** Verse and pre-chorus candidates avoid every used phrase whenever at
      least three of the pool's phrases are unused; otherwise they are drawn
      from the whole pool. Either way there are min(3, |pool|) of them. */
  lemma VerseCandidatesAvoidUsed(d: Dictionary, kind: SectionType, lineIndex: nat,
                                 isFirstChorus: bool, used: set<string>, o: Oracle)
    requires d.Valid() && (kind == Verse || kind == PreChorus)
    ensures var r := GetCandidatesForSection(d, kind, lineIndex, isFirstChorus, used, o);
      var unused := Filter(PhrasePool(d, kind), p => p !in used);
      && (forall x :: x in r ==> x in PhrasePool(d, kind))
      && (|unused| >= 3 ==> |r| == 3 && forall x :: x in r ==> x !in used)
      && (|unused| < 3 ==> r == PickRandomN(PhrasePool(d, kind), 3, o.shuffle))
  {
  }

  /** The opener of a chorus always offers a line with the anthem keyword,
      and three lines whenever the pools hold enough. */
  lemma ChorusOpenerHasAnthem(d: Dictionary, isFirstChorus: bool, used: set<string>, o: Oracle)
    requires d.Valid()
    ensures var r := GetCandidatesForSection(d, Chorus, 0, isFirstChorus, used, o);
      && (exists i :: 0 <= i < |r| && Contains(r[i], AnthemKeyword))
      && (forall x :: x in r ==> x in d.chorusFirstLine || x in d.chorusLines)
      && (|d.chorusLines| >= 2 ==> |r| == 3)
  {
    var r := ChorusFirstLineCandidates(d, o);
    assert GetCandidatesForSection(d, Chorus, 0, isFirstChorus, used, o) == r;
    assert |r| == 1 + Min(2, |WithoutKeyword(d.chorusFirstLine, AnthemKeyword)| + |d.chorusLines|);
  }

  /** The closing line of the first chorus always offers an ending with the
      keyword; the closing line of any other chorus draws only endings. */
  lemma ChorusClosingCandidates(d: Dictionary, isFirstChorus: bool, used: set<string>, o: Oracle)
    requires d.Valid()
    ensures var r := GetCandidatesForSection(d, Chorus, 3, isFirstChorus, used, o);
      && (forall x :: x in r ==> x in d.chorusEnding)
      && (isFirstChorus ==> |r| == 3 && exists i :: 0 <= i < |r| && Contains(r[i], EndingKeyword))
  {
  }

  /** The closing rule's hard-coded index 3 is the last line of a chorus only
      because the table gives a chorus four lines. */
  lemma ChorusClosingLineIsLast(s: Section)
    requires s.kind == Chorus && s.maxLines == Config(s.kind).maxLines
    ensures s.maxLines - 1 == 3
  {
  }

  /** `getRandomCandidate`: an ending for a chorus, otherwise a verse phrase
      or a chorus line. */
  function GetRandomCandidate(d: Dictionary, kind: SectionType, r: nat): (x: string)
    requires d.Valid()
    ensures kind == Chorus ==> x in d.chorusEnding
    ensures kind != Chorus ==> x in d.versePhrases || x in d.chorusLines
  {
    if kind == Chorus then PickRandom(d.chorusEnding, r)
    else PickRandom(d.versePhrases + d.chorusLines, r)
  }

  /** `generateTitle`: a title starter followed by a title ender. */
  function GenerateTitle(d: Dictionary, o: Oracle): (t: string)
    requires d.Valid()
    ensures exists i, j ::
      (0 <= i < |d.titleStarters| && 0 <= j < |d.titleEnders| && t == d.titleStarters[i] + d.titleEnders[j])
  {
    PickRandom(d.titleStarters, o.pick) + PickRandom(d.titleEnders, o.pick2)
  }
}
