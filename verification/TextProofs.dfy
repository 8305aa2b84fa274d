/** The normaliser splits on whitespace, lower-cases, and joins by single spaces. */
module TextProofs {
  import opened Text

  /** A word of `str.split()`: nonempty and free of whitespace. */
  ghost predicate IsWord(w: string) {
    w != "" && forall i | 0 <= i < |w| :: !IsSpace(w[i])
  }

  /** Single spaces only, and none at either end. */
  ghost predicate IsTidy(s: string) {
    && (s != "" ==> !IsSpace(s[0]) && !IsSpace(s[|s| - 1]))
    && (forall i | 0 <= i < |s| && IsSpace(s[i]) :: s[i] == ' ')
    && (forall i | 0 < i < |s| :: !(IsSpace(s[i - 1]) && IsSpace(s[i])))
  }

  // ---------- lower-casing ----------

  lemma {:induction false} LowerShape(s: string)
    ensures |Lower(s)| == |s|
    ensures forall i | 0 <= i < |s| :: Lower(s)[i] == LowerChar(s[i])
  {
    if s != "" {
      LowerShape(s[1..]);
    }
  }

  lemma LowerOfSlice(s: string, lo: nat, hi: nat)
    requires lo <= hi <= |s|
    ensures |Lower(s)| == |s|
    ensures Lower(s[lo..hi]) == Lower(s)[lo..hi]
  {
    LowerShape(s);
    LowerShape(s[lo..hi]);
  }

  lemma LowerIsIdempotent(s: string)
    ensures Lower(Lower(s)) == Lower(s)
  {
    LowerShape(s);
    LowerShape(Lower(s));
  }

  lemma {:induction false} LowerAllIsIdempotent(words: seq<string>)
    ensures LowerAll(LowerAll(words)) == LowerAll(words)
  {
    if words != [] {
      LowerIsIdempotent(words[0]);
      LowerAllIsIdempotent(words[1..]);
    }
  }

  lemma {:induction false} LowerCommutesWithDropLeading(s: string)
    ensures Lower(DropLeading(s)) == DropLeading(Lower(s))
  {
    LowerShape(s);
    if s != "" && IsSpace(s[0]) {
      LowerCommutesWithDropLeading(s[1..]);
      assert Lower(s)[1..] == Lower(s[1..]);
    }
  }

  lemma {:induction false} LowerCommutesWithDropTrailing(s: string)
    ensures Lower(DropTrailing(s)) == DropTrailing(Lower(s))
  {
    LowerShape(s);
    if s != "" && IsSpace(s[|s| - 1]) {
      LowerCommutesWithDropTrailing(s[..|s| - 1]);
      LowerOfSlice(s, 0, |s| - 1);
    }
  }

  lemma LowerCommutesWithStrip(s: string)
    ensures Lower(Strip(s)) == Strip(Lower(s))
  {
    LowerCommutesWithDropLeading(s);
    LowerCommutesWithDropTrailing(DropLeading(s));
  }

  // ---------- stripping ----------

  lemma StripShape(s: string)
    ensures Strip(s) != "" ==> !IsSpace(Strip(s)[0]) && !IsSpace(Strip(s)[|Strip(s)| - 1])
  {
    DropLeadingShape(s);
    DropTrailingShape(DropLeading(s));
  }

  lemma StripIsIdempotent(s: string)
    ensures Strip(Strip(s)) == Strip(s)
  {
    StripShape(s);
  }

  lemma DropLeadingIsIdempotent(s: string)
    ensures DropLeading(DropLeading(s)) == DropLeading(s)
  {
    DropLeadingShape(s);
  }

  lemma {:induction false} DropLeadingOfSnoc(s: string, c: char)
    requires IsSpace(c)
    ensures DropLeading(s + [c]) == if DropLeading(s) == "" then "" else DropLeading(s) + [c]
  {
    if s == "" {
      assert s + [c] == [c];
      assert [c][1..] == "";
    } else if IsSpace(s[0]) {
      assert (s + [c])[1..] == s[1..] + [c];
      DropLeadingOfSnoc(s[1..], c);
    }
  }

  // ---------- words ----------

  lemma {:induction false} WordLengthFacts(s: string)
    ensures forall i | 0 <= i < WordLength(s) :: !IsSpace(s[i])
    ensures WordLength(s) < |s| ==> IsSpace(s[WordLength(s)])
    ensures s != "" && !IsSpace(s[0]) ==> WordLength(s) > 0
  {
    if s != "" && !IsSpace(s[0]) {
      WordLengthFacts(s[1..]);
      forall i | 0 <= i < WordLength(s) ensures !IsSpace(s[i]) {
        assert i > 0 ==> s[i] == s[1..][i - 1];
      }
    }
  }

  lemma {:induction false} WordLengthIs(s: string, n: nat)
    requires n <= |s|
    requires forall i | 0 <= i < n :: !IsSpace(s[i])
    requires n < |s| ==> IsSpace(s[n])
    ensures WordLength(s) == n
  {
    if n > 0 {
      WordLengthIs(s[1..], n - 1);
    }
  }

  lemma {:induction false} EveryWordIsAWord(s: string)
    ensures forall w | w in Words(s) :: IsWord(w)
    decreases |s|
  {
    DropLeadingShape(s);
    var t := DropLeading(s);
    if t != "" {
      WordLengthFacts(t);
      EveryWordIsAWord(t[WordLength(t)..]);
    }
  }

  lemma {:induction false} LowerAllKeepsWords(words: seq<string>)
    requires forall w | w in words :: IsWord(w)
    ensures forall w | w in LowerAll(words) :: IsWord(w)
  {
    if words != [] {
      assert words[0] in words;
      LowerShape(words[0]);
      LowerAllKeepsWords(words[1..]);
    }
  }

  lemma WordsOfDropLeading(s: string)
    ensures Words(DropLeading(s)) == Words(s)
  {
    DropLeadingIsIdempotent(s);
  }

  lemma {:induction false} WordsOfSnoc(s: string, c: char)
    requires IsSpace(c)
    ensures Words(s + [c]) == Words(s)
    decreases |s|
  {
    DropLeadingShape(s);
    DropLeadingOfSnoc(s, c);
    var t := DropLeading(s);
    if t != "" {
      WordLengthFacts(t);
      var n := WordLength(t);
      WordLengthIs(t + [c], n);
      assert (t + [c])[..n] == t[..n];
      assert (t + [c])[n..] == t[n..] + [c];
      WordsOfSnoc(t[n..], c);
    }
  }

  lemma {:induction false} WordsOfDropTrailing(s: string)
    ensures Words(DropTrailing(s)) == Words(s)
  {
    if s != "" && IsSpace(s[|s| - 1]) {
      WordsOfDropTrailing(s[..|s| - 1]);
      WordsOfSnoc(s[..|s| - 1], s[|s| - 1]);
      assert s == s[..|s| - 1] + [s[|s| - 1]];
    }
  }

  lemma WordsOfStrip(s: string)
    ensures Words(Strip(s)) == Words(s)
  {
    WordsOfDropLeading(s);
    WordsOfDropTrailing(DropLeading(s));
  }

  lemma {:induction false} WordsOfLower(s: string)
    ensures Words(Lower(s)) == LowerAll(Words(s))
    decreases |s|
  {
    DropLeadingShape(s);
    LowerCommutesWithDropLeading(s);
    var t := DropLeading(s);
    if t != "" {
      WordLengthFacts(t);
      LowerShape(t);
      var n := WordLength(t);
      WordLengthIs(Lower(t), n);
      LowerOfSlice(t, 0, n);
      LowerOfSlice(t, n, |t|);
      assert t[..n] == t[0..n] && t[n..] == t[n..|t|];
      assert Lower(t)[..n] == Lower(t[..n]) && Lower(t)[n..] == Lower(t[n..]);
      WordsOfLower(t[n..]);
      DropLeadingIsIdempotent(s);
      assert Words(s) == [t[..n]] + Words(t[n..]);
      assert Words(Lower(s)) == [Lower(t)[..n]] + Words(Lower(t)[n..]);
    }
  }

  // ---------- squeezing is joining ----------

  lemma {:induction false} SqueezeWord(s: string, n: nat)
    requires n <= |s|
    requires forall i | 0 <= i < n :: !IsSpace(s[i])
    ensures Squeeze(s) == s[..n] + Squeeze(s[n..])
  {
    if n > 0 {
      SqueezeWord(s[1..], n - 1);
      assert s[1..][n - 1..] == s[n..];
      assert s[..n] == [s[0]] + s[1..][..n - 1];
    } else {
      assert s[n..] == s;
    }
  }

  lemma {:induction false} SqueezeIsJoin(s: string)
    requires s != "" ==> !IsSpace(s[0]) && !IsSpace(s[|s| - 1])
    ensures Squeeze(s) == Join(Words(s))
    decreases |s|
  {
    if s != "" {
      var n := WordLength(s);
      WordLengthFacts(s);
      SqueezeWord(s, n);
      var rest := s[n..];
      assert Words(s) == [s[..n]] + Words(rest);
      if rest == "" {
        assert Words(rest) == [];
        assert s[..n] == s;
      } else {
        assert IsSpace(rest[0]);
        var t := DropLeading(rest[1..]);
        DropLeadingShape(rest[1..]);
        assert rest[|rest| - 1] == s[|s| - 1];
        assert |rest| > 1;
        NonSpaceSurvives(rest[1..]);
        SqueezeIsJoin(t);
        assert DropLeading(rest) == t;
        WordsOfDropLeading(rest);
        assert Words(t) != [];
      }
    }
  }

  /** Dropping leading whitespace keeps a last character that is not whitespace. */
  lemma {:induction false} NonSpaceSurvives(s: string)
    requires s != "" && !IsSpace(s[|s| - 1])
    ensures DropLeading(s) != ""
    ensures DropLeading(s)[|DropLeading(s)| - 1] == s[|s| - 1]
  {
    if IsSpace(s[0]) {
      NonSpaceSurvives(s[1..]);
    }
  }

  /** The same character, or the two cases of one letter. */
  predicate SameLetter(a: char, b: char) {
    || a == b
    || ('A' <= a <= 'Z' && b as int == a as int + 32)
    || ('A' <= b <= 'Z' && a as int == b as int + 32)
  }

  lemma LowerCharForgetsCase(a: char, b: char)
    ensures LowerChar(a) == LowerChar(b) <==> SameLetter(a, b)
    ensures !('A' <= LowerChar(a) <= 'Z')
  {
  }

  /** Lower-casing forgets the case of letters and nothing else. */
  lemma LowerForgetsCase(s: string, t: string)
    ensures Lower(s) == Lower(t) <==> |s| == |t| && forall i | 0 <= i < |s| :: SameLetter(s[i], t[i])
    ensures forall i | 0 <= i < |Lower(s)| :: !('A' <= Lower(s)[i] <= 'Z')
  {
    hide Lower, LowerChar, SameLetter;
    LowerShape(s);
    LowerShape(t);
    forall c ensures !('A' <= LowerChar(c) <= 'Z') {
      LowerCharForgetsCase(c, c);
    }
    if |s| == |t| {
      forall i | 0 <= i < |s| ensures Lower(s)[i] == Lower(t)[i] <==> SameLetter(s[i], t[i]) {
        LowerCharForgetsCase(s[i], t[i]);
      }
    }
  }

  ghost predicate IsBlank(s: string) {
    forall i | 0 <= i < |s| :: IsSpace(s[i])
  }

  lemma {:induction false} LeadingIsBlank(s: string)
    ensures exists lead :: IsBlank(lead) && s == lead + DropLeading(s)
  {
    if s != "" && IsSpace(s[0]) {
      LeadingIsBlank(s[1..]);
      var lead :| IsBlank(lead) && s[1..] == lead + DropLeading(s[1..]);
      assert IsBlank([s[0]] + lead) && s == ([s[0]] + lead) + DropLeading(s);
    } else {
      assert IsBlank("") && s == "" + DropLeading(s);
    }
  }

  lemma {:induction false} TrailingIsBlank(s: string)
    ensures exists trail :: IsBlank(trail) && s == DropTrailing(s) + trail
  {
    if s != "" && IsSpace(s[|s| - 1]) {
      var front := s[..|s| - 1];
      TrailingIsBlank(front);
      var trail :| IsBlank(trail) && front == DropTrailing(front) + trail;
      assert IsBlank(trail + [s[|s| - 1]]) && s == DropTrailing(s) + (trail + [s[|s| - 1]]);
    } else {
      assert IsBlank("") && s == DropTrailing(s) + "";
    }
  }

  /** Stripping takes whitespace off both ends, and all of it. */
  lemma StripOutcome(s: string)
    ensures exists lead, trail :: IsBlank(lead) && IsBlank(trail) && s == lead + Strip(s) + trail
    ensures Strip(s) != "" ==> !IsSpace(Strip(s)[0]) && !IsSpace(Strip(s)[|Strip(s)| - 1])
  {
    var t := DropLeading(s);
    LeadingIsBlank(s);
    TrailingIsBlank(t);
    var lead :| IsBlank(lead) && s == lead + t;
    var trail :| IsBlank(trail) && t == DropTrailing(t) + trail;
    assert s == lead + Strip(s) + trail;
    DropLeadingShape(s);
    DropTrailingShape(t);
  }

  // ---------- the main results ----------

  /** `_normalize` is: split on whitespace, lower-case every word, join by single spaces. */
  lemma NormalizeIsSplitLowerJoin(s: string)
    ensures Normalize(s) == Join(LowerAll(Words(s)))
  {
    LowerCommutesWithStrip(s);
    StripShape(Lower(s));
    SqueezeIsJoin(Strip(Lower(s)));
    WordsOfStrip(Lower(s));
    WordsOfLower(s);
  }

  lemma {:induction false} WordsOfJoin(words: seq<string>)
    requires forall w | w in words :: IsWord(w)
    ensures Words(Join(words)) == words
  {
    if words != [] {
      var w, rest := words[0], words[1..];
      assert w in words;
      WordsOfJoin(rest);
      var s := Join(words);
      assert s[..|w|] == w;
      forall i | 0 <= i < |w| ensures !IsSpace(s[i]) {
        assert s[i] == w[i];
      }
      if rest == [] {
        WordLengthIs(s, |w|);
        assert s[|w|..] == "";
      } else {
        assert s[|w|] == ' ';
        WordLengthIs(s, |w|);
        assert s[|w|..] == " " + Join(rest);
        assert (" " + Join(rest))[1..] == Join(rest);
        assert DropLeading(" " + Join(rest)) == DropLeading(Join(rest));
        WordsOfDropLeading(" " + Join(rest));
        WordsOfDropLeading(Join(rest));
      }
      assert DropLeading(s) == s;
      assert Words(s) == [s[..|w|]] + Words(s[|w|..]);
    }
  }

  /** Normalising twice is normalising once. */
  lemma NormalizeIsIdempotent(s: string)
    ensures Normalize(Normalize(s)) == Normalize(s)
  {
    EveryWordIsAWord(s);
    LowerAllKeepsWords(Words(s));
    NormalizeIsSplitLowerJoin(s);
    NormalizeIsSplitLowerJoin(Normalize(s));
    WordsOfJoin(LowerAll(Words(s)));
    LowerAllIsIdempotent(Words(s));
  }

  /** Two texts are duplicates exactly when they have the same words, letter case apart. */
  lemma SameNormalFormIffSameWords(a: string, b: string)
    ensures Normalize(a) == Normalize(b) <==> LowerAll(Words(a)) == LowerAll(Words(b))
  {
    NormalizeIsSplitLowerJoin(a);
    NormalizeIsSplitLowerJoin(b);
    EveryWordIsAWord(a);
    EveryWordIsAWord(b);
    LowerAllKeepsWords(Words(a));
    LowerAllKeepsWords(Words(b));
    WordsOfJoin(LowerAll(Words(a)));
    WordsOfJoin(LowerAll(Words(b)));
  }

  lemma NormalizeIgnoresStrip(s: string)
    ensures Normalize(Strip(s)) == Normalize(s)
  {
    StripIsIdempotent(s);
  }

  lemma {:induction false} JoinIsTidy(words: seq<string>)
    requires forall w | w in words :: IsWord(w)
    ensures IsTidy(Join(words))
    ensures words != [] ==> Join(words) != ""
  {
    if words != [] {
      var w, rest := words[0], words[1..];
      assert w in words;
      JoinIsTidy(rest);
      if rest != [] {
        var s, r := Join(words), Join(rest);
        forall i | 0 <= i < |s|
          ensures s[i] == if i < |w| then w[i] else if i == |w| then ' ' else r[i - |w| - 1]
        {
        }
      }
    }
  }

  /** A normal form has no leading, trailing or doubled space. */
  lemma NormalizeIsTidy(s: string)
    ensures IsTidy(Normalize(s))
  {
    NormalizeIsSplitLowerJoin(s);
    EveryWordIsAWord(s);
    LowerAllKeepsWords(Words(s));
    JoinIsTidy(LowerAll(Words(s)));
  }
}
