/**
 * The body-name generator of src/utils/nameGenerator.js (`generateRandomName`).
 *
 * One draw picks the number of syllables (1 to 3).  For each syllable one
 * draw picks a pattern such as "cvc" by scanning cumulative weights, and one
 * further draw per pattern letter picks a vowel ('v') or a consonant ('c').
 * The first letter of the result is upper-cased.
 */
module NameGenerator {
  import opened Draws

  const Vowels: string := "aeiou"
  const Consonants: string := "bcdfghjklmnpqrstvwxyz"

  /** The syllable patterns and their weights, in scan order. */
  const SyllableTypes: seq<string> := ["vc", "cvc", "cv", "v", "cvcc", "vcc", "ccv", "ccvc"]
  const SyllableWeights: seq<real> := [0.1, 0.2, 0.2, 0.2, 0.1, 0.1, 0.05, 0.05]

  /** Every pattern is one to four letters, each a 'v' or a 'c'. */
  predicate PatternOk(ty: string) {
    1 <= |ty| <= 4 && forall i :: 0 <= i < |ty| ==> ty[i] == 'v' || ty[i] == 'c'
  }

  /**
   * Entry `k` of the pattern and weight tables, spelled out case by case so
   * that a lookup at an unknown position stays one small case split.
   */
  function PatternAt(k: nat): string
    requires k < 8
  {
    if k == 0 then "vc" else if k == 1 then "cvc" else if k == 2 then "cv" else if k == 3 then "v"
    else if k == 4 then "cvcc" else if k == 5 then "vcc" else if k == 6 then "ccv" else "ccvc"
  }

  function WeightAt(k: nat): real
    requires k < 8
  {
    if k == 0 then 0.1 else if k == 1 then 0.2 else if k == 2 then 0.2 else if k == 3 then 0.2
    else if k == 4 then 0.1 else if k == 5 then 0.1 else if k == 6 then 0.05 else 0.05
  }

  /** The tables have eight entries each, read by `PatternAt` and `WeightAt`, and every pattern is well formed. */
  lemma SyllableTablesShape()
    ensures |SyllableTypes| == 8 && |SyllableWeights| == 8
    ensures forall k :: 0 <= k < 8 ==> SyllableTypes[k] == PatternAt(k) && SyllableWeights[k] == WeightAt(k)
    ensures forall k :: 0 <= k < 8 ==> PatternOk(PatternAt(k))
  {
  }

  /** The cumulative weight of the first `n` patterns, summed in scan order. */
  function WeightSum(n: nat): real
    requires n <= 8
  {
    if n == 0 then 0.0 else WeightSum(n - 1) + WeightAt(n - 1)
  }

  /** The weights add up to exactly 1, so every draw below 1 finds a pattern. */
  lemma WeightsTotal()
    ensures WeightSum(8) == 1.0
  {
    assert WeightSum(1) == 0.1;
    assert WeightSum(2) == 0.3;
    assert WeightSum(3) == 0.5;
    assert WeightSum(4) == 0.7;
    assert WeightSum(5) == 0.8;
    assert WeightSum(6) == 0.9;
    assert WeightSum(7) == 0.95;
  }

  /** The scan from pattern `j` on: the first pattern whose cumulative weight reaches `value`, or 8 when none does. */
  function TypeIndexFrom(value: real, j: nat): (k: nat)
    requires j <= 8
    ensures j <= k <= 8
    decreases 8 - j
  {
    if j == 8 then 8
    else if value <= WeightSum(j + 1) then j
    else TypeIndexFrom(value, j + 1)
  }

  /** The scan from the first pattern. */
  function TypeIndex(value: real): (k: nat)
    ensures k <= 8
  {
    TypeIndexFrom(value, 0)
  }

  lemma {:induction false} TypeIndexFromFirst(value: real, j: nat)
    requires j <= 8
    ensures var k := TypeIndexFrom(value, j);
      && (k < 8 ==> value <= WeightSum(k + 1))
      && (forall m :: j < m <= k ==> value > WeightSum(m))
    decreases 8 - j
  {
    if j < 8 && value > WeightSum(j + 1) {
      TypeIndexFromFirst(value, j + 1);
    }
  }

  /** The chosen pattern is the first whose cumulative weight is at least the draw; 8 means none is. */
  lemma TypeIndexFirst(value: real)
    ensures var k := TypeIndex(value);
      && (k < 8 ==> value <= WeightSum(k + 1))
      && (forall m :: 0 < m <= k ==> value > WeightSum(m))
  {
    TypeIndexFromFirst(value, 0);
  }

  /** The pattern the scan from pattern `j` on selects; empty when none is reached. */
  function ScanFrom(value: real, j: nat): string
    requires j <= 8
    decreases 8 - j
  {
    if j == 8 then ""
    else if value <= WeightSum(j + 1) then PatternAt(j)
    else ScanFrom(value, j + 1)
  }

  /** The pattern a draw selects; empty when the scan finds none. */
  function TypeFor(value: real): string {
    ScanFrom(value, 0)
  }

  /** The scan returns the pattern at the index the scan stops at. */
  lemma {:induction false} ScanFromIndex(value: real, j: nat)
    requires j <= 8
    ensures var k := TypeIndexFrom(value, j);
      ScanFrom(value, j) == if k < 8 then PatternAt(k) else ""
    decreases 8 - j
  {
    if j < 8 && value > WeightSum(j + 1) {
      ScanFromIndex(value, j + 1);
    }
  }

  /** The scan comes up empty exactly when the draw exceeds the total weight; a draw in [0,1) always selects a pattern. */
  lemma TypeForDraw(value: real)
    ensures TypeFor(value) == "" <==> value > 1.0
    ensures IsDraw(value) ==> PatternOk(TypeFor(value))
  {
    WeightsTotal();
    SyllableTablesShape();
    TypeIndexFirst(value);
    ScanFromIndex(value, 0);
  }

  /** A draw in [0,1) selects a pattern of one to four letters. */
  lemma TypeForLength(value: real)
    requires IsDraw(value)
    ensures 1 <= |TypeFor(value)| <= 4
  {
    TypeForDraw(value);
  }

  /** Cumulative weights never exceed the total. */
  lemma {:induction false} WeightSumAtMost(n: nat)
    requires n <= 8
    ensures WeightSum(n) <= 1.0
    decreases 8 - n
  {
    if n == 8 {
      WeightsTotal();
    } else {
      WeightSumAtMost(n + 1);
    }
  }

  /** The weighted pattern choice: accumulate weights until the sum reaches the draw. */
  method ChooseSyllableType(value: real) returns (ty: string)
    ensures ty == TypeFor(value)
  {
    SyllableTablesShape();
    ty := "";
    var sum := 0.0;
    for j := 0 to |SyllableWeights|
      invariant sum == WeightSum(j)
      invariant ScanFrom(value, j) == TypeFor(value)
    {
      sum := sum + SyllableWeights[j];
      if value <= sum {
        ty := SyllableTypes[j];
        break;
      }
    }
  }

  /** The number of syllables a draw selects: `floor(r * 3) + 1`. */
  function SyllableCount(r: real): (n: nat)
    requires IsDraw(r)
    ensures 1 <= n <= 3
  {
    Pick(r, 3) + 1
  }

  /** One letter for pattern character `p`: a vowel for 'v', a consonant otherwise. */
  function Letter(r: real, p: char): char
    requires IsDraw(r)
  {
    if p == 'v' then VowelAt(Pick(r, 5)) else ConsonantAt(Pick(r, 21))
  }

  /** Entry `k` of the vowel and consonant tables, spelled out case by case. */
  function VowelAt(k: nat): char
    requires k < 5
  {
    if k == 0 then 'a' else if k == 1 then 'e' else if k == 2 then 'i' else if k == 3 then 'o' else 'u'
  }

  function ConsonantAt(k: nat): char
    requires k < 21
  {
    if k == 0 then 'b' else if k == 1 then 'c' else if k == 2 then 'd' else if k == 3 then 'f' else if k == 4 then 'g' else if k == 5 then 'h' else if k == 6 then 'j' else if k == 7 then 'k' else if k == 8 then 'l' else if k == 9 then 'm' else if k == 10 then 'n' else if k == 11 then 'p' else if k == 12 then 'q' else if k == 13 then 'r' else if k == 14 then 's' else if k == 15 then 't' else if k == 16 then 'v' else if k == 17 then 'w' else if k == 18 then 'x' else if k == 19 then 'y' else 'z'
  }

  /** `VowelAt` and `ConsonantAt` read the two letter tables. */
  lemma LetterTablesShape()
    ensures |Vowels| == 5 && |Consonants| == 21
    ensures forall k :: 0 <= k < 5 ==> VowelAt(k) == Vowels[k]
    ensures forall k :: 0 <= k < 21 ==> ConsonantAt(k) == Consonants[k]
  {
  }

  /** The letter is a vowel for a 'v' and a consonant otherwise; the table index is always in bounds. */
  lemma LetterKind(r: real, p: char)
    requires IsDraw(r)
    ensures p == 'v' ==> Letter(r, p) == Vowels[Pick(r, |Vowels|)] && IsVowel(Letter(r, p))
    ensures p != 'v' ==> Letter(r, p) == Consonants[Pick(r, |Consonants|)] && IsConsonant(Letter(r, p))
  {
    LetterTablesShape();
  }

  /** The vowels, and the consonants: the other lower-case letters. */
  predicate IsVowel(c: char) {
    c == 'a' || c == 'e' || c == 'i' || c == 'o' || c == 'u'
  }

  predicate IsConsonant(c: char) {
    'a' <= c <= 'z' && !IsVowel(c)
  }

  /** The two letter tables hold exactly the vowels and exactly the consonants. */
  lemma LetterClasses(c: char)
    ensures c in Vowels <==> IsVowel(c)
    ensures c in Consonants <==> IsConsonant(c)
  {
  }

  /** A letter fits a pattern character: a vowel for 'v', a consonant for anything else. */
  predicate Fits(c: char, p: char) {
    if p == 'v' then IsVowel(c) else IsConsonant(c)
  }

  /** A text follows a pattern: same length, and each letter fits its pattern character. */
  predicate Follows(text: string, pattern: string)
    decreases |text|
  {
    && |text| == |pattern|
    && (text != [] ==> Fits(text[0], pattern[0]) && Follows(text[1..], pattern[1..]))
  }

  /** The letters of a pattern, one draw each from call `at` on. */
  function Letters(s: Stream, at: nat, pattern: string): (text: string)
    requires ValidStream(s)
    ensures |text| == |pattern|
    decreases |pattern|
  {
    if pattern == [] then []
    else [Letter(s(at), pattern[0])] + Letters(s, at + 1, pattern[1..])
  }

  /** Each letter drawn for a pattern is of the kind its position asks for. */
  lemma {:induction false} LettersFollow(s: Stream, at: nat, pattern: string)
    requires ValidStream(s)
    ensures Follows(Letters(s, at, pattern), pattern)
    decreases |pattern|
  {
    if pattern != [] {
      var text := Letters(s, at, pattern);
      LettersFollow(s, at + 1, pattern[1..]);
      LetterKind(s(at), pattern[0]);
      assert text[0] == Letter(s(at), pattern[0]);
      assert text[1..] == Letters(s, at + 1, pattern[1..]);
    }
  }

  /** What a run of syllables produces: the text, the patterns it follows (one after another), and the next draw. */
  datatype Gen = Gen(text: string, pattern: string, next: nat)

  /** Texts that follow their patterns, joined, follow the joined patterns. */
  lemma {:induction false} FollowsAppend(a: string, p: string, b: string, q: string)
    requires Follows(a, p) && Follows(b, q)
    ensures Follows(a + b, p + q)
    decreases |a|
  {
    if a == [] {
      assert a + b == b && p + q == q;
    } else {
      FollowsAppend(a[1..], p[1..], b, q);
      assert (a + b)[1..] == a[1..] + b;
      assert (p + q)[1..] == p[1..] + q;
    }
  }

  /**
   * `k` more syllables from the state `text`, `pattern`, `next`: each takes a
   * pattern draw at the cursor, then one draw per letter of the pattern; the
   * text and the patterns grow and the cursor moves past the draws used.
   */
  function Run(s: Stream, k: nat, text: string, pattern: string, next: nat): Gen
    requires ValidStream(s)
  {
    if k == 0 then Gen(text, pattern, next)
    else
      var ty := TypeFor(s(next));
      Run(s, k - 1, text + Letters(s, next + 1, ty), pattern + ty, next + 1 + |ty|)
  }

  /** The loop step of name generation, stated on the loop's own variables: one syllable, then the rest. */
  lemma RunNext(s: Stream, k: nat, text: string, pattern: string, next: nat, text': string, pattern': string, next': nat)
    requires ValidStream(s) && k > 0
    requires text' == text + Letters(s, next + 1, TypeFor(s(next)))
    requires pattern' == pattern + TypeFor(s(next))
    requires next' == next + 1 + |TypeFor(s(next))|
    ensures Run(s, k, text, pattern, next) == Run(s, k - 1, text', pattern', next')
  {
  }

  /**
   * Each syllable uses one draw for its pattern and one per letter, and a draw
   * in [0,1) always selects a pattern of one to four letters.
   */
  lemma {:induction false} RunSize(s: Stream, k: nat, text: string, pattern: string, next: nat)
    requires ValidStream(s)
    ensures Run(s, k, text, pattern, next).next == next + k + |Run(s, k, text, pattern, next).pattern| - |pattern|
    ensures |Run(s, k, text, pattern, next).text| - |text| == |Run(s, k, text, pattern, next).pattern| - |pattern|
    ensures k <= |Run(s, k, text, pattern, next).pattern| - |pattern| <= 4 * k
  {
    if k > 0 {
      var ty := TypeFor(s(next));
      TypeForLength(s(next));
      RunSize(s, k - 1, text + Letters(s, next + 1, ty), pattern + ty, next + 1 + |ty|);
    }
  }

  /** One syllable's letters follow its pattern, so the text keeps following the patterns. */
  lemma StepFollows(s: Stream, text: string, pattern: string, next: nat)
    requires ValidStream(s) && Follows(text, pattern)
    ensures Follows(text + Letters(s, next + 1, TypeFor(s(next))), pattern + TypeFor(s(next)))
  {
    var ty := TypeFor(s(next));
    LettersFollow(s, next + 1, ty);
    FollowsAppend(text, pattern, Letters(s, next + 1, ty), ty);
  }

  /** The whole lower-case name: a syllable count, then that many syllables from an empty start. */
  function RawName(s: Stream, at: nat): Gen
    requires ValidStream(s)
  {
    Run(s, SyllableCount(s(at)), [], [], at + 1)
  }

  /** The name uses one draw for the syllable count, then one per syllable and one per letter. */
  lemma NameDraws(s: Stream, at: nat)
    requires ValidStream(s)
    ensures RawName(s, at).next == at + 1 + SyllableCount(s(at)) + |RawName(s, at).pattern|
  {
    RunSize(s, SyllableCount(s(at)), [], [], at + 1);
  }

  /** `toUpperCase` on one character of the name's alphabet. */
  function Upper(c: char): (u: char)
    ensures 'a' <= c <= 'z' ==> 'A' <= u <= 'Z' && u as int == c as int - 32
    ensures !('a' <= c <= 'z') ==> u == c
  {
    if 'a' <= c <= 'z' then (c as int - 32) as char else c
  }

  /** `name.charAt(0).toUpperCase() + name.slice(1)`. */
  function Capitalize(name: string): (r: string)
    ensures |r| == |name|
    ensures name == [] ==> r == []
    ensures name != [] ==> r[0] == Upper(name[0]) && r[1..] == name[1..]
  {
    if name == [] then [] else [Upper(name[0])] + name[1..]
  }

  /** A generated name has one to twelve letters, as many as its patterns. */
  lemma NameLength(s: Stream, at: nat)
    requires ValidStream(s)
    ensures var g := RawName(s, at);
      && 1 <= |g.text| <= 12
      && |g.text| == |g.pattern|
  {
    RunSize(s, SyllableCount(s(at)), [], [], at + 1);
  }

  /** Appends the letters of `pattern`, one draw each, from draw `at` on. */
  method AppendLetters(s: Stream, at: nat, pattern: string, name: string) returns (named: string, next: nat)
    requires ValidStream(s)
    ensures named == name + Letters(s, at, pattern)
    ensures next == at + |pattern|
  {
    named, next := name, at;
    for k := 0 to |pattern|
      invariant next == at + k
      invariant name + Letters(s, at, pattern) == named + Letters(s, next, pattern[k..])
    {
      assert pattern[k..][1..] == pattern[k + 1..];
      var c := Letter(s(next), pattern[k]);
      named := named + [c];
      next := next + 1;
    }
  }

  /** The syllable loop of `generateRandomName`: `count` syllables appended to `raw`, reading draws from call `next` on. */
  method AppendSyllables(s: Stream, count: nat, raw: string, ghost pattern: string, next: nat) returns (raw': string, next': nat)
    requires ValidStream(s) && Follows(raw, pattern)
    ensures raw' == Run(s, count, raw, pattern, next).text
    ensures next' == Run(s, count, raw, pattern, next).next
    ensures Follows(raw', Run(s, count, raw, pattern, next).pattern)
  {
    raw', next' := raw, next;
    ghost var pattern', left := pattern, count;
    for i := 0 to count
      invariant left == count - i
      invariant Run(s, left, raw', pattern', next') == Run(s, count, raw, pattern, next)
      invariant Follows(raw', pattern')
    {
      var ty := ChooseSyllableType(s(next'));
      var named, after := AppendLetters(s, next' + 1, ty, raw');
      RunNext(s, left, raw', pattern', next', named, pattern' + ty, after);
      StepFollows(s, raw', pattern', next');
      raw', pattern', next', left := named, pattern' + ty, after, left - 1;
    }
  }

  /** `generateRandomName`, reading draws from call `at` on; also returns the next unused draw. */
  method GenerateRandomName(s: Stream, at: nat) returns (name: string, next: nat)
    requires ValidStream(s)
    ensures name == Capitalize(RawName(s, at).text)
    ensures next == RawName(s, at).next
    ensures 1 <= |name| <= 12 && |name| == |RawName(s, at).pattern|
    ensures 'A' <= name[0] <= 'Z' && Follows(name[1..], RawName(s, at).pattern[1..])
  {
    var numberOfSyllables := SyllableCount(s(at));
    var raw;
    raw, next := AppendSyllables(s, numberOfSyllables, "", "", at + 1);
    NameLength(s, at);
    assert Fits(raw[0], RawName(s, at).pattern[0]);
    name := Capitalize(raw);
  }
}
