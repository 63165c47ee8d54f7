/**
 * The two string operations the conversion pipeline applies to the engine's
 * output: joining the generated lines (Array.prototype.join) and a global,
 * literal search-and-replace (String.prototype.replace with a /g pattern that
 * holds no metacharacters).  Splitting on one character is given as the
 * inverse of joining.
 */
module Text {

  /** `s` begins with `p`. */
  predicate StartsWith(s: string, p: string) {
    |p| <= |s| && s[..|p|] == p
  }

  /** `p` occurs in `s`: at the front, or somewhere in the tail. */
  predicate Contains(s: string, p: string)
    decreases |s|
  {
    StartsWith(s, p) || (|s| > 0 && Contains(s[1..], p))
  }

  lemma {:induction false} ContainsIsLongEnough(s: string, p: string)
    requires Contains(s, p)
    ensures |p| <= |s|
    decreases |s|
  {
    if !StartsWith(s, p) {
      ContainsIsLongEnough(s[1..], p);
    }
  }

  // ---------------------------------------------------------------------
  // Joining lines
  // ---------------------------------------------------------------------

  /** The sum of the lengths of the parts. */
  function TotalLength(parts: seq<string>): nat
  {
    if |parts| == 0 then 0 else |parts[0]| + TotalLength(parts[1..])
  }

  /**
   * The parts in order with `sep` between neighbours; no parts give "".
   * Every character of the result comes from a part or from one of the
   * |parts| - 1 separators.
   */
  function Join(parts: seq<string>, sep: string): (r: string)
    ensures |parts| > 0 ==> |r| == TotalLength(parts) + (|parts| - 1) * |sep|
    ensures |parts| == 0 ==> r == ""
    ensures |parts| == 1 ==> r == parts[0]
  {
    if |parts| == 0 then ""
    else if |parts| == 1 then parts[0]
    else parts[0] + sep + Join(parts[1..], sep)
  }

  /**
   * Appending a part appends the separator and that part to the joined
   * text.  With the one-part case of Join's ensures this fixes the joined
   * text for all parts, whatever characters they hold.
   */
  lemma {:induction false} JoinAppend(parts: seq<string>, p: string, sep: string)
    requires |parts| > 0
    ensures Join(parts + [p], sep) == Join(parts, sep) + sep + p
    decreases |parts|
  {
    var all := parts + [p];
    if |parts| == 1 {
      assert all == [parts[0], p];
      assert all[1..] == [p];
    } else {
      assert all[1..] == parts[1..] + [p];
      JoinAppend(parts[1..], p, sep);
    }
  }

  /** The pieces of `s` between occurrences of `sep`; there is always at least one. */
  function Split(s: string, sep: char): (pieces: seq<string>)
    ensures |pieces| > 0
    ensures forall i :: 0 <= i < |pieces| ==> sep !in pieces[i]
    decreases |s|
  {
    if |s| == 0 then [""]
    else
      var rest := Split(s[1..], sep);
      if s[0] == sep then [""] + rest
      else [[s[0]] + rest[0]] + rest[1..]
  }

  lemma {:induction false} SplitWithoutSeparator(a: string, sep: char)
    requires sep !in a
    ensures Split(a, sep) == [a]
    decreases |a|
  {
    if |a| > 0 {
      SplitWithoutSeparator(a[1..], sep);
      assert [a[0]] + a[1..] == a;
    }
  }

  lemma {:induction false} SplitAtFirstSeparator(a: string, sep: char, b: string)
    requires sep !in a
    ensures Split(a + [sep] + b, sep) == [a] + Split(b, sep)
    decreases |a|
  {
    var s := a + [sep] + b;
    if |a| == 0 {
      assert s[1..] == b;
    } else {
      assert s[1..] == a[1..] + [sep] + b;
      SplitAtFirstSeparator(a[1..], sep, b);
      assert [a[0]] + a[1..] == a;
    }
  }

  /**
   * Joining lines that hold no separator loses nothing: splitting the
   * joined text at the separator gives the lines back.
   */
  lemma {:induction false} SplitJoinRoundTrip(lines: seq<string>, sep: char)
    requires |lines| > 0
    requires forall i :: 0 <= i < |lines| ==> sep !in lines[i]
    ensures Split(Join(lines, [sep]), sep) == lines
    decreases |lines|
  {
    if |lines| == 1 {
      SplitWithoutSeparator(lines[0], sep);
    } else {
      SplitJoinRoundTrip(lines[1..], sep);
      SplitAtFirstSeparator(lines[0], sep, Join(lines[1..], [sep]));
      assert [lines[0]] + lines[1..] == lines;
    }
  }

  // ---------------------------------------------------------------------
  // Global literal replacement
  // ---------------------------------------------------------------------

  /**
   * Every occurrence of `pat`, found left to right and never overlapping a
   * previous match, replaced by `rep`.  Scanning stops once fewer than
   * |pat| characters remain.
   */
  function ReplaceAll(s: string, pat: string, rep: string): (r: string)
    requires |pat| > 0
    ensures !Contains(s, pat) ==> r == s
    decreases |s|
  {
    if |s| < |pat| then s
    else if StartsWith(s, pat) then rep + ReplaceAll(s[|pat|..], pat, rep)
    else [s[0]] + ReplaceAll(s[1..], pat, rep)
  }

  /**
   * The first occurrence of `pat` becomes `rep`: the text before it is kept
   * as it is, and the rewrite goes on after the occurrence.  (No occurrence
   * of `pat` ends before, or straddles, the end of `w + pat` except the
   * one at |w|.)  With the ensures of ReplaceAll this determines the result
   * for every text.
   */
  lemma {:induction false} ReplaceAtFirstOccurrence(w: string, x: string, pat: string, rep: string)
    requires |pat| > 0
    requires !Contains(w + pat[..|pat| - 1], pat)
    ensures ReplaceAll(w + pat + x, pat, rep) == w + rep + ReplaceAll(x, pat, rep)
    decreases |w|
  {
    if |w| == 0 {
      MatchAtFront(w, x, pat, rep);
    } else {
      LeadTailHasNoMatch(w, pat);
      ReplaceAtFirstOccurrence(w[1..], x, pat, rep);
      KeepLeadCharacter(w, x, pat, rep);
    }
  }

  /**
   * The inductive step: once the scan from `w[1..] + pat + x` is known, the
   * scan from `w + pat + x` only puts `w[0]` in front of it.
   */
  lemma KeepLeadCharacter(w: string, x: string, pat: string, rep: string)
    requires |pat| > 0 && |w| > 0
    requires !Contains(w + pat[..|pat| - 1], pat)
    requires ReplaceAll(w[1..] + pat + x, pat, rep) == w[1..] + rep + ReplaceAll(x, pat, rep)
    ensures ReplaceAll(w + pat + x, pat, rep) == w + rep + ReplaceAll(x, pat, rep)
  {
    StepOverLead(w, x, pat, rep);
    PutBackLead(w, rep, ReplaceAll(x, pat, rep));
  }

  /** Putting the first character back in front of the rest of `w`. */
  lemma PutBackLead(w: string, a: string, b: string)
    requires |w| > 0
    ensures [w[0]] + (w[1..] + a + b) == w + a + b
  {
    assert [w[0]] + w[1..] == w;
  }

  /** A match at the front is replaced, and the scan resumes after it. */
  lemma MatchAtFront(w: string, x: string, pat: string, rep: string)
    requires |pat| > 0 && |w| == 0
    ensures ReplaceAll(w + pat + x, pat, rep) == w + rep + ReplaceAll(x, pat, rep)
  {
    var s := w + pat + x;
    assert s == pat + x;
    assert StartsWith(s, pat);
    assert s[|pat|..] == x;
    assert w + rep == rep;
  }

  /** A first character that starts no match is copied, and the scan moves on. */
  lemma StepOverLead(w: string, x: string, pat: string, rep: string)
    requires |pat| > 0 && |w| > 0
    requires !Contains(w + pat[..|pat| - 1], pat)
    ensures ReplaceAll(w + pat + x, pat, rep) == [w[0]] + ReplaceAll(w[1..] + pat + x, pat, rep)
  {
    var s := w + pat + x;
    NoMatchAtFront(w, x, pat);
    assert s[0] == w[0];
    assert s[1..] == w[1..] + pat + x;
  }

  /** `w + pat + x` with `w` non-empty does not start with a match. */
  lemma NoMatchAtFront(w: string, x: string, pat: string)
    requires |pat| > 0 && |w| > 0
    requires !Contains(w + pat[..|pat| - 1], pat)
    ensures |w + pat + x| >= |pat| && !StartsWith(w + pat + x, pat)
  {
    var lead := w + pat[..|pat| - 1];
    assert !StartsWith(lead, pat);
    SamePrefix(w, x, pat);
  }

  /** Dropping the first character of `w` keeps the lead free of matches. */
  lemma LeadTailHasNoMatch(w: string, pat: string)
    requires |pat| > 0 && |w| > 0
    requires !Contains(w + pat[..|pat| - 1], pat)
    ensures !Contains(w[1..] + pat[..|pat| - 1], pat)
  {
    var lead := w + pat[..|pat| - 1];
    assert !Contains(lead[1..], pat);
    assert lead[1..] == w[1..] + pat[..|pat| - 1];
  }

  /** The first |pat| characters of `w + pat + x` lie within `w + pat[..|pat| - 1]`. */
  lemma SamePrefix(w: string, x: string, pat: string)
    requires |pat| > 0 && |w| > 0
    ensures var s, lead := w + pat + x, w + pat[..|pat| - 1];
      |lead| >= |pat| && |s| >= |pat| && s[..|pat|] == lead[..|pat|]
  {
    var p1 := pat[..|pat| - 1];
    var lead := w + p1;
    assert pat == p1 + [pat[|pat| - 1]];
    assert w + pat + x == lead + ([pat[|pat| - 1]] + x);
  }

  /**
   * Replacing `pat` by `rep` cannot produce a new occurrence of `pat`: both
   * begin with the same character, that character appears nowhere else in
   * either of them, and `rep` is at least as long as `pat` without starting
   * with it.
   */
  predicate NonOverlapping(pat: string, rep: string) {
    && 0 < |pat| <= |rep|
    && rep[0] == pat[0]
    && pat[0] !in pat[1..]
    && pat[0] !in rep[1..]
    && !StartsWith(rep, pat)
  }

  /** Text that does not contain the lead character of `pat` cannot start an occurrence. */
  lemma {:induction false} NoLeadIn(w: string, x: string, pat: string)
    requires |pat| > 0 && pat[0] !in w
    requires !Contains(x, pat)
    ensures !Contains(w + x, pat)
    decreases |w|
  {
    if |w| == 0 {
      assert w + x == x;
    } else {
      assert (w + x)[1..] == w[1..] + x;
      NoLeadIn(w[1..], x, pat);
      assert (w + x)[0] == w[0] != pat[0];
      assert !StartsWith(w + x, pat);
    }
  }

  /** A text starts with `p` when its first character and its tail agree with `p`'s. */
  lemma StartsWithCons(c: char, u: string, p: string)
    requires |p| > 0
    ensures StartsWith([c] + u, p) <==> c == p[0] && StartsWith(u, p[1..])
  {
  }

  /**
   * A prefix of the rewritten text that avoids the lead character of `pat`
   * was already a prefix of the original text.
   */
  lemma {:induction false} PrefixSurvivesRewrite(t: string, w: string, pat: string, rep: string)
    requires NonOverlapping(pat, rep)
    requires pat[0] !in w
    ensures StartsWith(ReplaceAll(t, pat, rep), w) ==> StartsWith(t, w)
    decreases |t|
  {
    var out := ReplaceAll(t, pat, rep);
    if |w| == 0 || |t| < |pat| {
    } else if StartsWith(t, pat) {
      assert out[0] == pat[0];
      assert w[0] in w;
    } else {
      var tail := ReplaceAll(t[1..], pat, rep);
      assert out == [t[0]] + tail;
      assert pat[0] !in w[1..] by {
        forall c | c in w[1..] ensures c in w { }
      }
      PrefixSurvivesRewrite(t[1..], w[1..], pat, rep);
      if StartsWith(out, w) {
        assert w[0] == t[0];
        assert tail[..|w| - 1] == out[1..|w|];
        assert t[..|w|] == [t[0]] + t[1..][..|w| - 1];
        assert w == [w[0]] + w[1..];
      }
    }
  }

  /** After the rewrite no occurrence of `pat` is left. */
  lemma {:induction false} NoOccurrenceAfterRewrite(s: string, pat: string, rep: string)
    requires NonOverlapping(pat, rep)
    ensures !Contains(ReplaceAll(s, pat, rep), pat)
    decreases |s|
  {
    var out := ReplaceAll(s, pat, rep);
    if |s| < |pat| {
      if Contains(s, pat) {
        ContainsIsLongEnough(s, pat);
      }
    } else if StartsWith(s, pat) {
      var tail := ReplaceAll(s[|pat|..], pat, rep);
      NoOccurrenceAfterRewrite(s[|pat|..], pat, rep);
      NoLeadIn(rep[1..], tail, pat);
      assert out[1..] == rep[1..] + tail;
      assert out[..|pat|] == rep[..|pat|];
    } else {
      var tail := ReplaceAll(s[1..], pat, rep);
      NoOccurrenceAfterRewrite(s[1..], pat, rep);
      assert out == [s[0]] + tail;
      assert out[1..] == tail;
      PrefixSurvivesRewrite(s[1..], pat[1..], pat, rep);
      StartsWithCons(s[0], tail, pat);
      StartsWithCons(s[0], s[1..], pat);
      assert [s[0]] + s[1..] == s;
    }
  }

  /** Applying the rewrite a second time changes nothing. */
  lemma {:induction false} ReplaceAllIdempotent(s: string, pat: string, rep: string)
    requires NonOverlapping(pat, rep)
    ensures ReplaceAll(ReplaceAll(s, pat, rep), pat, rep) == ReplaceAll(s, pat, rep)
  {
    NoOccurrenceAfterRewrite(s, pat, rep);
  }
}
