/** The checks a transcript goes through before it is exported. */
module Transcript {
  import opened Basics
  import opened Text

  datatype Warning = EmptyTranscript | TooLittleText | TooMuchText | FewDistinctWords | RepeatedPhrase

  const FEWEST_WORDS := 8

  /** From word `i` on, a block of `size` words stands three times in a row. */
  predicate ThreeTimes(words: seq<string>, i: nat, size: nat)
    requires i + 3 * size <= |words|
  {
    forall k | i <= k < i + 2 * size :: words[k] == words[k + size]
  }

  ghost predicate RepeatsAt(words: seq<string>, i: nat, size: nat) {
    2 <= size <= 5 && i + 3 * size <= |words| && ThreeTimes(words, i, size)
  }

  ghost predicate HasRepeat(words: seq<string>) { exists size: nat, i: nat :: RepeatsAt(words, i, size) }

  /** A repeat is a block of two to five words that stands three times in a row. */
  lemma RepeatsAreBlocks(before: seq<string>, block: seq<string>, after: seq<string>)
    requires 2 <= |block| <= 5
    ensures HasRepeat(before + block + block + block + after)
  {
    var words, i, n := before + block + block + block + after, |before|, |block|;
    forall k | i <= k < i + 2 * n ensures words[k] == words[k + n] {
      assert words[k] == block[if k < i + n then k - i else k - i - n];
      assert words[k + n] == block[if k < i + n then k - i else k - i - n];
    }
    assert RepeatsAt(words, i, n);
  }

  lemma BlocksAreRepeats(words: seq<string>) returns (before: seq<string>, block: seq<string>, after: seq<string>)
    requires HasRepeat(words)
    ensures 2 <= |block| <= 5 && words == before + block + block + block + after
  {
    var n: nat, i: nat :| RepeatsAt(words, i, n);
    before, block, after := words[..i], words[i..i + n], words[i + 3 * n..];
    ThreeIsTwice(words, i, n);
    Shifted(words, i, n);
    Shifted(words, i + n, n);
    hide ThreeTimes, Shifts;
    ThreeBlocks(words, i, i + n, i + 2 * n, i + 3 * n, block);
  }

  lemma ThreeBlocks(words: seq<string>, i: nat, j: nat, k: nat, l: nat, block: seq<string>)
    requires i <= j <= k <= l <= |words|
    requires words[i..j] == block && words[j..k] == block && words[k..l] == block
    ensures words == words[..i] + block + block + block + words[l..]
  {
    assert words[..j] == words[..i] + block;
    assert words[..k] == words[..j] + block;
    assert words[..l] == words[..k] + block;
    assert words == words[..l] + words[l..];
  }

  function Distinct(words: seq<string>): set<string> { set w | w in words }

  /** Comparing the joined blocks is comparing the blocks: no word holds the separator. */
  lemma JoinedBlocks(words: seq<string>, i: nat, size: nat)
    requires forall k | 0 <= k < |words| :: IsWord(words[k])
    requires size > 0 && i + 3 * size <= |words|
    ensures ThreeTimes(words, i, size) <==>
      (Join(words[i..i + size], ' ') == Join(words[i + size..i + size * 2], ' ')
       && Join(words[i..i + size], ' ') == Join(words[i + size * 2..i + size * 3], ' '))
  {
    hide Join, ThreeTimes, Shifts;
    var a, b, c := words[i..i + size], words[i + size..i + size * 2], words[i + size * 2..i + size * 3];
    JoinInjective(a, b, ' ');
    JoinInjective(a, c, ' ');
    ThreeIsTwice(words, i, size);
    Shifted(words, i, size);
    Shifted(words, i + size, size);
  }

  /** The block of `size` words from `i` stands there twice. */
  predicate Shifts(words: seq<string>, i: nat, size: nat)
    requires i + 2 * size <= |words|
  {
    forall k | i <= k < i + size :: words[k] == words[k + size]
  }

  lemma ThreeIsTwice(words: seq<string>, i: nat, size: nat)
    requires i + 3 * size <= |words|
    ensures ThreeTimes(words, i, size) <==> Shifts(words, i, size) && Shifts(words, i + size, size)
  {
  }

  lemma Shifted(words: seq<string>, i: nat, size: nat)
    requires i + 2 * size <= |words|
    ensures words[i..i + size] == words[i + size..i + size * 2] <==> Shifts(words, i, size)
  {
    var a, b := words[i..i + size], words[i + size..i + size * 2];
    assert forall j | 0 <= j < size :: a[j] == words[i + j] && b[j] == words[i + j + size];
    if a == b {
      forall k | i <= k < i + size ensures words[k] == words[k + size] { assert a[k - i] == b[k - i]; }
    }
  }

  /** The nested search loops. */
  method FindRepeat(words: seq<string>) returns (found: bool)
    requires forall k | 0 <= k < |words| :: IsWord(words[k])
    ensures found <==> HasRepeat(words)
  {
    for size: nat := 2 to 6
      invariant forall s: nat, i: nat | s < size :: !RepeatsAt(words, i, s)
    {
      var i := 0;
      while i + size * 3 <= |words|
        invariant forall s: nat, j: nat | s < size :: !RepeatsAt(words, j, s)
        invariant forall j: nat | j < i :: !RepeatsAt(words, j, size)
      {
        JoinedBlocks(words, i, size);
        var a := Join(words[i..i + size], ' ');
        if a == Join(words[i + size..i + size * 2], ' ') && a == Join(words[i + size * 2..i + size * 3], ' ') {
          assert RepeatsAt(words, i, size);
          return true;
        }
        i := i + 1;
      }
    }
    found := false;
  }

  method CollectWords(words: seq<string>) returns (unique: set<string>)
    ensures unique == Distinct(words)
  {
    unique := {};
    for i := 0 to |words|
      invariant unique == Distinct(words[..i])
    {
      unique := unique + {words[i]};
    }
    assert words[..|words|] == words;
  }

  function Ratio(n: nat, d: real): real
    requires d > 0.0
  {
    n as real / d
  }

  lemma RatioBounds(n: nat, d: real)
    requires d > 0.0
    ensures Ratio(n, d) < 0.25 <==> 4.0 * n as real < d
    ensures Ratio(n, d) > 25.0 <==> n as real > 25.0 * d
  {
    Threshold(n, d, 0.25);
    Threshold(n, d, 25.0);
  }

  lemma Threshold(n: nat, d: real, limit: real)
    requires d > 0.0
    ensures Ratio(n, d) < limit <==> n as real < limit * d
    ensures Ratio(n, d) > limit <==> n as real > limit * d
  {
    var r := Ratio(n, d);
    var x := r * d;
    assert x == n as real;
    ScaleOrder(r, limit, d);
    ScaleOrder(limit, r, d);
  }

  /** `validateTranscript`; `lowered` is the text in lower case. */
  method Validate(text: string, lowered: string, duration: real, finetune: bool) returns (warnings: seq<Warning>)
    ensures EmptyTranscript in warnings <==> TrimSpace(text) == "" && finetune
    ensures TooLittleText in warnings <==>
      TrimSpace(text) != "" && 0.0 < duration && 4.0 * |TrimSpace(text)| as real < duration
    ensures TooMuchText in warnings <==>
      TrimSpace(text) != "" && 0.0 < duration && |TrimSpace(text)| as real > 25.0 * duration
    ensures FewDistinctWords in warnings <==>
      |Fields(lowered)| >= 8 && 4 * |Distinct(Fields(lowered))| < |Fields(lowered)|
    ensures RepeatedPhrase in warnings <==> |Fields(lowered)| >= 8 && HasRepeat(Fields(lowered))
  {
    hide TrimSpace, Fields, HasRepeat, Ratio, Distinct;
    warnings := [];
    var n := |TrimSpace(text)|;
    if n == 0 && finetune { warnings := warnings + [EmptyTranscript]; }
    if duration > 0.0 && n > 0 {
      var rate := Ratio(n, duration);
      RatioBounds(n, duration);
      if rate < 0.25 { warnings := warnings + [TooLittleText]; }
      if rate > 25.0 { warnings := warnings + [TooMuchText]; }
    }
    var words := Fields(lowered);
    if |words| >= FEWEST_WORDS {
      var unique := CollectWords(words);
      RatioBounds(|unique|, |words| as real);
      if Ratio(|unique|, |words| as real) < 0.25 {
        warnings := warnings + [FewDistinctWords];
      }
      var found := FindRepeat(words);
      if found { warnings := warnings + [RepeatedPhrase]; }
    }
  }

}
