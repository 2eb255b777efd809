/** The filename classifier of the Drive webhook (index.js:83-90): the regular
    expression `^([A-Z0-9]+?)(B|P\d+)?\.(mp4|mkv|jpe?g|png)$` with the `i` flag,
    which splits a file name into an order code (group 1) and a role suffix
    (group 2, the empty string when the group does not take part). */
module Classifier {
  import opened Wrappers

  /** The two groups the handler reads from a successful match. */
  datatype Match = Match(code: string, suffix: string)

  predicate IsDigit(c: char) { '0' <= c <= '9' }

  /** `[A-Z0-9]` under the `i` flag. Without the `u` flag JavaScript folds case
      by upper-casing, and refuses a fold that maps a non-ASCII character onto
      an ASCII one, so exactly the ASCII letters and digits qualify. */
  predicate IsAlnum(c: char) { 'A' <= c <= 'Z' || 'a' <= c <= 'z' || IsDigit(c) }

  /** ASCII lower-casing; every other character is its own fold. */
  function Fold(c: char): char {
    if 'A' <= c <= 'Z' then (c as int + 32) as char else c
  }

  predicate SameIgnoringCase(s: string, t: string) {
    |s| == |t| && forall i :: 0 <= i < |s| ==> Fold(s[i]) == Fold(t[i])
  }

  predicate AllAlnum(s: string) { forall i :: 0 <= i < |s| ==> IsAlnum(s[i]) }

  /** Group 1: `[A-Z0-9]+`. */
  predicate IsCode(s: string) { |s| >= 1 && AllAlnum(s) }

  /** Group 2 when it takes part: `B|P\d+`, case-insensitively. */
  predicate IsRoleSuffix(s: string) {
    || (|s| == 1 && Fold(s[0]) == 'b')
    || (|s| >= 2 && Fold(s[0]) == 'p' && forall i :: 1 <= i < |s| ==> IsDigit(s[i]))
  }

  /** `(B|P\d+)?`, the absent group reading as "" (index.js:90). */
  predicate OptionalSuffix(s: string) { s == "" || IsRoleSuffix(s) }

  /** `mp4|mkv|jpe?g|png`, case-insensitively. */
  predicate IsExtension(e: string) {
    || SameIgnoringCase(e, "mp4") || SameIgnoringCase(e, "mkv")
    || SameIgnoringCase(e, "jpg") || SameIgnoringCase(e, "jpeg")
    || SameIgnoringCase(e, "png")
  }

  /** The whole name is `code`, then `suffix`, then a dot, then an allowed
      extension: one way of matching the anchored pattern, with group 1 = code
      and group 2 = suffix. */
  predicate Accepts(name: string, code: string, suffix: string) {
    var stem := code + suffix;
    && |stem| < |name|
    && name[..|stem|] == stem
    && name[|stem|] == '.'
    && IsExtension(name[|stem| + 1..])
    && IsCode(code)
    && OptionalSuffix(suffix)
  }

  /** Index of the first dot of `s`, or |s| when there is none. */
  function DotIndex(s: string): (r: nat)
    ensures r <= |s|
    ensures r < |s| ==> s[r] == '.'
    ensures forall i :: 0 <= i < r ==> s[i] != '.'
  {
    if s == [] || s[0] == '.' then 0 else 1 + DotIndex(s[1..])
  }

  /** The lazy quantifier `+?`: the first cut `k`, trying `from` upwards, whose
      remainder the optional suffix group accepts. The cut at |stem| always
      works, since the group may be absent. */
  function LazyCut(stem: string, from: nat): (k: nat)
    requires 1 <= from <= |stem|
    decreases |stem| - from
    ensures from <= k <= |stem|
    ensures OptionalSuffix(stem[k..])
    ensures forall j :: from <= j < k ==> !OptionalSuffix(stem[j..])
  {
    if OptionalSuffix(stem[from..]) then from else LazyCut(stem, from + 1)
  }

  /** `fileName.match(...)` reduced to its two groups. No character of group 1,
      group 2 or the extension is a dot, so the text before the first dot is
      the part the two groups must cover; within it the engine tries the
      shortest group 1 first, and for each length of group 1 at most one
      alternative of group 2 fits. */
  function Classify(name: string): (r: Option<Match>)
    ensures r.Some? ==> Accepts(name, r.value.code, r.value.suffix)
  {
    var d := DotIndex(name);
    if d == |name| || d == 0 || !AllAlnum(name[..d]) || !IsExtension(name[d + 1..]) then None
    else
      var k := LazyCut(name[..d], 1);
      assert name[..d][k..] == name[k..d];
      assert name[..k] + name[k..d] == name[..d];
      Some(Match(name[..k], name[k..d]))
  }

  /** Every character a suffix can hold is alphanumeric. */
  lemma SuffixIsAlnum(s: string)
    requires OptionalSuffix(s)
    ensures AllAlnum(s)
  {
  }

  /** Classify finds a match whenever the pattern can match at all, and the one
      it returns has the shortest group 1 among all ways of matching; with the
      same length of group 1 it is that very match. This is the leftmost,
      lazy-first match the regular-expression engine reports. */
  lemma ClassifyPicksShortestCode(name: string, code: string, suffix: string)
    requires Accepts(name, code, suffix)
    ensures Classify(name).Some?
    ensures |Classify(name).value.code| <= |code|
    ensures |Classify(name).value.code| == |code| ==> Classify(name).value == Match(code, suffix)
  {
    var n := |code + suffix|;
    SuffixIsAlnum(suffix);
    assert AllAlnum(code + suffix) by {
      forall i | 0 <= i < n ensures IsAlnum((code + suffix)[i]) {
        if i >= |code| { assert (code + suffix)[i] == suffix[i - |code|]; }
      }
    }
    var d := DotIndex(name);
    assert name[..n] == code + suffix;
    if d < n {
      assert false;
    }
    assert d == n;
    var stem := name[..d];
    var k := LazyCut(stem, 1);
    assert stem[|code|..] == suffix;
    assert k <= |code|;
    if k == |code| {
      assert stem[..k] == code;
      assert stem[k..] == suffix;
    }
  }

  /** A name the classifier rejects cannot match the pattern in any way. */
  lemma UnrecognisedMeansNoMatch(name: string, code: string, suffix: string)
    requires Classify(name) == None
    ensures !Accepts(name, code, suffix)
  {
    if Accepts(name, code, suffix) {
      ClassifyPicksShortestCode(name, code, suffix);
    }
  }

  /** The lazy cut is `k` when the remainder from `k` on is a suffix and no
      earlier cut can start one: no earlier position holds a P, and a B there
      is not the last character. */
  lemma LazyCutAt(stem: string, k: nat)
    requires 1 <= k <= |stem| && OptionalSuffix(stem[k..])
    requires forall j :: 1 <= j < k ==> Fold(stem[j]) != 'p' && (Fold(stem[j]) == 'b' ==> j + 1 < |stem|)
    ensures LazyCut(stem, 1) == k
  {
  }

  /** Classify read off from the position of the dot and of the cut; the
      examples below use it so that each name is evaluated piece by piece. */
  lemma ClassifyAt(name: string, d: nat, k: nat)
    requires 1 <= k <= d < |name| && name[d] == '.'
    requires AllAlnum(name[..d]) && IsExtension(name[d + 1..]) && OptionalSuffix(name[k..d])
    requires forall j :: 1 <= j < k ==> Fold(name[j]) != 'p' && (Fold(name[j]) == 'b' ==> j + 1 < d)
    ensures Classify(name) == Some(Match(name[..k], name[k..d]))
  {
    var stem := name[..d];
    assert forall i :: 0 <= i < d ==> stem[i] == name[i] && IsAlnum(stem[i]);
    assert DotIndex(name) == d;
    assert stem[k..] == name[k..d];
    LazyCutAt(stem, k);
  }

  /** "ABC123B.mp4": the trailing B is the start marker, not part of the code. */
  lemma ClassifyStartExample(name: string)
    requires name == "ABC123B.mp4"
    ensures Classify(name) == Some(Match("ABC123", "B"))
  {
    assert name[..7] == "ABC123B" && name[8..] == "mp4" && name[6..7] == "B";
    ClassifyAt(name, 7, 6);
    assert name[..6] == "ABC123";
  }

  /** "ABC123.mp4": no suffix, a completion video. */
  lemma ClassifyCompletionExample(name: string)
    requires name == "ABC123.mp4"
    ensures Classify(name) == Some(Match("ABC123", ""))
  {
    assert name[..6] == "ABC123" && name[7..] == "mp4" && name[6..6] == "";
    ClassifyAt(name, 6, 6);
  }

  /** "ABC123P1.jpg": a supplemental file. */
  lemma ClassifySupplementalExample(name: string)
    requires name == "ABC123P1.jpg"
    ensures Classify(name) == Some(Match("ABC123", "P1"))
  {
    assert name[..8] == "ABC123P1" && name[9..] == "jpg" && name[6..8] == "P1";
    ClassifyAt(name, 8, 6);
    assert name[..6] == "ABC123";
  }

  /** "B.mp4": group 1 needs at least one character, so the B is the code and
      the suffix is empty. */
  lemma ClassifyMarkerAloneExample(name: string)
    requires name == "B.mp4"
    ensures Classify(name) == Some(Match("B", ""))
  {
    assert name[..1] == "B" && name[2..] == "mp4" && name[1..1] == "";
    ClassifyAt(name, 1, 1);
  }

  /** The `i` flag lets a lower-case start marker through the pattern. */
  lemma ClassifyLowerStartExample(name: string)
    requires name == "abc1b.mp4"
    ensures Classify(name) == Some(Match("abc1", "b"))
  {
    assert name[..5] == "abc1b" && name[6..] == "mp4" && name[4..5] == "b";
    ClassifyAt(name, 5, 4);
    assert name[..4] == "abc1";
  }

  /** The `i` flag lets a lower-case supplemental marker through the pattern. */
  lemma ClassifyLowerSupplementalExample(name: string)
    requires name == "abc1p2.png"
    ensures Classify(name) == Some(Match("abc1", "p2"))
  {
    assert name[..6] == "abc1p2" && name[7..] == "png" && name[4..6] == "p2";
    ClassifyAt(name, 6, 4);
    assert name[..4] == "abc1";
  }

  /** The two files of the start-then-completion scenario. */
  lemma ClassifyScenarioExamples(start: string, end: string)
    requires start == "XYZ9B.mp4" && end == "XYZ9.mp4"
    ensures Classify(start) == Some(Match("XYZ9", "B"))
    ensures Classify(end) == Some(Match("XYZ9", ""))
  {
    assert start[..5] == "XYZ9B" && start[6..] == "mp4" && start[4..5] == "B";
    ClassifyAt(start, 5, 4);
    assert start[..4] == "XYZ9";
    assert end[..4] == "XYZ9" && end[5..] == "mp4" && end[4..4] == "";
    ClassifyAt(end, 4, 4);
  }

  /** A name whose text after its first dot is not an allowed extension. */
  lemma RejectedAt(name: string, d: nat)
    requires d < |name| && name[d] == '.' && AllAlnum(name[..d]) && !IsExtension(name[d + 1..])
    ensures Classify(name) == None
  {
    assert forall i :: 0 <= i < d ==> name[..d][i] == name[i] && IsAlnum(name[i]);
    assert DotIndex(name) == d;
  }

  /** Every allowed extension starts with m, j or p. */
  lemma NotAnExtension(e: string)
    requires |e| >= 1 && Fold(e[0]) != 'm' && Fold(e[0]) != 'j' && Fold(e[0]) != 'p'
    ensures !IsExtension(e)
  {
    assert "mp4"[0] == 'm' && "mkv"[0] == 'm' && "jpg"[0] == 'j' && "jpeg"[0] == 'j' && "png"[0] == 'p';
  }

  /** An extension outside the list is rejected. */
  lemma ClassifyRejectsTextExample(name: string)
    requires name == "random.txt"
    ensures Classify(name) == None
  {
    assert name[..6] == "random" && name[7..] == "txt";
    NotAnExtension("txt");
    RejectedAt(name, 6);
  }

  /** An image type outside the list is rejected too. */
  lemma ClassifyRejectsGifExample(name: string)
    requires name == "ABC123.gif"
    ensures Classify(name) == None
  {
    assert name[..6] == "ABC123" && name[7..] == "gif";
    NotAnExtension("gif");
    RejectedAt(name, 6);
  }
}
