/** Rust's `str::trim`: strips Unicode `White_Space` from both ends. */
module Text {

  /** The Unicode `White_Space` property, which `char::is_whitespace` tests. */
  predicate IsWhitespace(c: char) {
    || '\U{0009}' <= c <= '\U{000D}'
    || c == '\U{0020}'
    || c == '\U{0085}'
    || c == '\U{00A0}'
    || c == '\U{1680}'
    || '\U{2000}' <= c <= '\U{200A}'
    || c == '\U{2028}'
    || c == '\U{2029}'
    || c == '\U{202F}'
    || c == '\U{205F}'
    || c == '\U{3000}'
  }

  function TrimStart(s: string): string {
    if s == "" || !IsWhitespace(s[0]) then s else TrimStart(s[1..])
  }

  function TrimEnd(s: string): string {
    if s == "" || !IsWhitespace(s[|s| - 1]) then s else TrimEnd(s[..|s| - 1])
  }

  function Trim(s: string): string {
    TrimEnd(TrimStart(s))
  }

  /** Nothing is left to strip at either end. */
  predicate Trimmed(s: string) {
    s != "" ==> !IsWhitespace(s[0]) && !IsWhitespace(s[|s| - 1])
  }

  lemma {:induction false} TrimStartStops(s: string)
    ensures TrimStart(s) != "" ==> !IsWhitespace(TrimStart(s)[0])
  {
    if s != "" && IsWhitespace(s[0]) {
      TrimStartStops(s[1..]);
    }
  }

  lemma {:induction false} TrimEndStops(s: string)
    ensures TrimEnd(s) != "" ==> !IsWhitespace(TrimEnd(s)[|TrimEnd(s)| - 1])
    ensures TrimEnd(s) <= s
  {
    if s != "" && IsWhitespace(s[|s| - 1]) {
      TrimEndStops(s[..|s| - 1]);
    }
  }

  lemma TrimTrims(s: string)
    ensures Trimmed(Trim(s))
  {
    TrimStartStops(s);
    TrimEndStops(TrimStart(s));
  }

  /** Trimming is the identity exactly on trimmed text, so trimming twice is trimming once. */
  lemma TrimFixpoints(s: string)
    ensures Trim(s) == s <==> Trimmed(s)
    ensures Trim(Trim(s)) == Trim(s)
  {
    TrimTrims(s);
    TrimTrims(Trim(s));
  }

  // ---------- Trimming strips exactly the blank ends ----------

  predicate Blank(s: string) {
    forall i :: 0 <= i < |s| ==> IsWhitespace(s[i])
  }

  lemma {:induction false} StartSkipsBlank(before: string, s: string)
    requires Blank(before)
    ensures TrimStart(before + s) == TrimStart(s)
  {
    if before == "" {
      assert before + s == s;
    } else {
      assert (before + s)[1..] == before[1..] + s;
      StartSkipsBlank(before[1..], s);
    }
  }

  lemma {:induction false} EndSkipsBlank(s: string, after: string)
    requires Blank(after)
    ensures TrimEnd(s + after) == TrimEnd(s)
  {
    if after == "" {
      assert s + after == s;
    } else {
      assert (s + after)[..|s + after| - 1] == s + after[..|after| - 1];
      EndSkipsBlank(s, after[..|after| - 1]);
    }
  }

  lemma {:induction false} StartStripsBlank(s: string) returns (before: string)
    ensures Blank(before) && s == before + TrimStart(s)
  {
    if s == "" || !IsWhitespace(s[0]) {
      before := "";
    } else {
      var rest := StartStripsBlank(s[1..]);
      before := [s[0]] + rest;
    }
  }

  lemma {:induction false} EndStripsBlank(s: string) returns (after: string)
    ensures Blank(after) && s == TrimEnd(s) + after
  {
    if s == "" || !IsWhitespace(s[|s| - 1]) {
      after := "";
    } else {
      var rest := EndStripsBlank(s[..|s| - 1]);
      after := rest + [s[|s| - 1]];
    }
  }

  /** The text with the blank prefix and the blank suffix taken off. */
  ghost predicate Strips(s: string, middle: string) {
    Trimmed(middle) && exists before, after :: Blank(before) && Blank(after) && s == before + middle + after
  }

  /** Trimming takes off a blank prefix and a blank suffix, and its result is the only trimmed text that leaves. */
  lemma TrimStrips(s: string, middle: string)
    ensures Strips(s, middle) <==> middle == Trim(s)
  {
    TrimTrims(s);
    var before := StartStripsBlank(s);
    var after := EndStripsBlank(TrimStart(s));
    assert s == before + Trim(s) + after;
    if Strips(s, middle) {
      var b, a :| Blank(b) && Blank(a) && s == b + middle + a;
      OnlyMiddle(b, middle, a);
    }
  }

  lemma OnlyMiddle(before: string, middle: string, after: string)
    requires Blank(before) && Blank(after) && Trimmed(middle)
    ensures Trim(before + middle + after) == middle
  {
    assert before + middle + after == before + (middle + after);
    StartSkipsBlank(before, middle + after);
    if middle == "" {
      assert middle + after == after && after + "" == after;
      StartSkipsBlank(after, "");
    } else {
      EndSkipsBlank(middle, after);
    }
  }
}
