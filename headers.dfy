/**
 * Column Normalizer: every header loses its accents, is lower-cased and
 * trimmed, and its spaces become underscores (`normalize_columns`).
 */
module Headers {
  import opened Text

  /** One header, canonicalised in the order the source applies the steps. */
  function NormalizeHeader(h: string): (r: string)
    ensures ' ' !in r
    ensures r == [] || (!IsSpace(r[0]) && !IsSpace(r[|r| - 1]))
  {
    ReplaceSpaces(Strip(Lower(StripAccents(h))))
  }

  /** The new header row, as the pipeline sees it once `df.columns` is overwritten. */
  function NormalizedColumns(columns: seq<string>): (r: seq<string>)
    ensures |r| == |columns|
    ensures forall k :: 0 <= k < |r| ==> r[k] == NormalizeHeader(columns[k])
  {
    seq(|columns|, k requires 0 <= k < |columns| => NormalizeHeader(columns[k]))
  }

  /**
   * The loop of `normalize_columns`: one cleaned header appended per column,
   * in column order.
   */
  method NormalizeColumns(columns: seq<string>) returns (clean: seq<string>)
    ensures |clean| == |columns|
    ensures forall k :: 0 <= k < |columns| ==> clean[k] == NormalizeHeader(columns[k])
  {
    clean := [];
    var i := 0;
    while i < |columns|
      invariant 0 <= i <= |columns|
      invariant |clean| == i
      invariant forall k :: 0 <= k < i ==> clean[k] == NormalizeHeader(columns[k])
    {
      clean := clean + [NormalizeHeader(columns[i])];
      i := i + 1;
    }
  }

  /** A character every step of the normalisation leaves as it is. */
  predicate Settled(c: char) {
    FoldChar(c) == [c] && LowerChar(c) == c
  }

  /** A base letter, once lower-cased, is settled. */
  lemma BaseLetterLoweredIsSettled(c: char)
    requires !IsCombining(c) && !IsCompatibility(c)
    ensures Settled(LowerChar(BaseLetter(c)))
  {
    var b := BaseLetter(c);
    if b == c {
      assert !IsCombining(LowerChar(c)) && !IsCompatibility(LowerChar(c));
    } else {
      assert 'A' <= b <= 'Z' || 'a' <= b <= 'z';
    }
  }

  /** Whatever accent stripping outputs, lower-casing turns into a settled character. */
  lemma FoldedThenLoweredIsSettled(c: char, k: nat)
    requires k < |FoldChar(c)|
    ensures Settled(LowerChar(FoldChar(c)[k]))
  {
    if !IsCombining(c) && !IsCompatibility(c) {
      BaseLetterLoweredIsSettled(c);
    }
  }

  lemma {:induction false} StripAccentsOutput(s: string, k: nat)
    requires k < |StripAccents(s)|
    ensures Settled(LowerChar(StripAccents(s)[k]))
    decreases |s|
  {
    var f := FoldChar(s[0]);
    assert StripAccents(s) == f + StripAccents(s[1..]);
    if k < |f| {
      FoldedThenLoweredIsSettled(s[0], k);
    } else {
      StripAccentsOutput(s[1..], k - |f|);
    }
  }

  lemma {:induction false} StripAccentsOfSettled(s: string)
    requires forall k :: 0 <= k < |s| ==> Settled(s[k])
    ensures StripAccents(s) == s
    decreases |s|
  {
    if s != [] {
      assert FoldChar(s[0]) == [s[0]];
      StripAccentsOfSettled(s[1..]);
      assert s == [s[0]] + s[1..];
    }
  }

  /** Every character of `s` is settled. */
  predicate AllSettled(s: string) {
    forall k :: 0 <= k < |s| ==> Settled(s[k])
  }

  lemma NormalizedIsSettled(h: string)
    ensures forall k :: 0 <= k < |NormalizeHeader(h)| ==> Settled(NormalizeHeader(h)[k])
  {
    var l := Lower(StripAccents(h));
    LoweredIsSettled(h);
    StripKeepsSettled(l);
    ReplaceKeepsSettled(Strip(l));
    assert NormalizeHeader(h) == ReplaceSpaces(Strip(l));
  }

  /** Accents stripped, then lower-cased: every character is settled. */
  lemma LoweredIsSettled(h: string)
    ensures AllSettled(Lower(StripAccents(h)))
  {
    var a := StripAccents(h);
    forall k | 0 <= k < |Lower(a)| ensures Settled(Lower(a)[k]) {
      StripAccentsOutput(h, k);
    }
  }

  /** Trimming keeps only characters that were there. */
  lemma StripKeepsSettled(l: string)
    requires AllSettled(l)
    ensures AllSettled(Strip(l))
  {
    var i := StripIsSlice(l);
    var m := Strip(l);
    forall k | 0 <= k < |m| ensures Settled(m[k]) {
      assert m[k] == l[i + k];
    }
  }

  /** Replacing spaces by underscores keeps every character settled. */
  lemma ReplaceKeepsSettled(m: string)
    requires AllSettled(m)
    ensures AllSettled(ReplaceSpaces(m))
  {
    forall k | 0 <= k < |m| ensures Settled(ReplaceSpaces(m)[k]) {
      if m[k] == ' ' {
        assert ReplaceSpaces(m)[k] == '_';
      }
    }
  }

  /** Normalising an already normalised header changes nothing. */
  lemma NormalizeHeaderIdempotent(h: string)
    ensures NormalizeHeader(NormalizeHeader(h)) == NormalizeHeader(h)
  {
    var n := NormalizeHeader(h);
    NormalizedIsSettled(h);
    StripAccentsOfSettled(n);
    assert Lower(n) == n;
    assert TrimStart(n) == n;
    assert TrimEnd(n) == n;
    assert Strip(n) == n;
    assert ReplaceSpaces(n) == n;
  }

  /** The header row keeps its length and order, and a second pass is a no-op. */
  lemma NormalizedColumnsIdempotent(columns: seq<string>)
    ensures NormalizedColumns(NormalizedColumns(columns)) == NormalizedColumns(columns)
  {
    var once := NormalizedColumns(columns);
    forall k | 0 <= k < |once| ensures NormalizeHeader(once[k]) == once[k] {
      NormalizeHeaderIdempotent(columns[k]);
    }
  }
}
