/** Whitespace trimming as done by Go's `strings.TrimSpace`, which the bootstrap
    applies to every line read from standard input. */
module Text {

  /** Go's `unicode.IsSpace`: the Latin-1 spaces plus the remaining code points
      with the Unicode White_Space property. */
  predicate IsSpace(c: char) {
    || c == '\t' || c == '\n' || c == '\U{0B}' || c == '\U{0C}' || c == '\r' || c == ' '
    || c == '\U{85}' || c == '\U{A0}' || c == '\U{1680}'
    || ('\U{2000}' <= c && c <= '\U{200A}')
    || c == '\U{2028}' || c == '\U{2029}' || c == '\U{202F}' || c == '\U{205F}' || c == '\U{3000}'
  }

  /** Every character of `s` is white space (vacuously true of ""). */
  predicate AllSpace(s: string) {
    forall i :: 0 <= i < |s| ==> IsSpace(s[i])
  }

  /** Neither end of `s` is white space. */
  predicate Trimmed(s: string) {
    s == [] || (!IsSpace(s[0]) && !IsSpace(s[|s| - 1]))
  }

  /** `s` is `m` with white space around it, `m` starting at index `i`. */
  predicate PaddedAt(s: string, m: string, i: int) {
    0 <= i <= |s| - |m| && s[i..i + |m|] == m && AllSpace(s[..i]) && AllSpace(s[i + |m|..])
  }

  /** How many white-space characters `s` starts with. */
  function LeadingSpaces(s: string): (n: nat)
    ensures n <= |s|
    ensures forall k :: 0 <= k < n ==> IsSpace(s[k])
    ensures n < |s| ==> !IsSpace(s[n])
  {
    if |s| == 0 || !IsSpace(s[0]) then 0 else 1 + LeadingSpaces(s[1..])
  }

  /** Where the trailing white space of `s` begins. */
  function TrailingStart(s: string): (n: nat)
    ensures n <= |s|
    ensures forall k :: n <= k < |s| ==> IsSpace(s[k])
    ensures n > 0 ==> !IsSpace(s[n - 1])
  {
    if |s| == 0 || !IsSpace(s[|s| - 1]) then |s| else TrailingStart(s[..|s| - 1])
  }

  /** `strings.TrimSpace`: what is left of `s` once the white space at both
      ends is removed. A string of white space only trims to "". */
  function TrimSpace(s: string): (r: string)
    ensures Trimmed(r)
    ensures r == [] <==> AllSpace(s)
  {
    var i := LeadingSpaces(s);
    var j := TrailingStart(s);
    if j <= i then
      assert i == |s| && s[..i] == s;
      []
    else
      s[i..j]
  }

  /** What TrimSpace returns is `s` with only white space cut from its ends. */
  lemma TrimSpaceIsInfix(s: string)
    ensures exists i :: PaddedAt(s, TrimSpace(s), i)
  {
    var i := LeadingSpaces(s);
    var j := TrailingStart(s);
    if j <= i {
      assert i == |s| && s[..i] == s;
      assert TrimSpace(s) == [];
      assert s[i..i] == [] && s[i..] == [];
      assert PaddedAt(s, [], i);
    } else {
      var m := s[i..j];
      assert TrimSpace(s) == m;
      assert s[i..i + |m|] == m;
      assert forall k :: 0 <= k < i ==> s[..i][k] == s[k];
      assert forall k :: 0 <= k < |s| - j ==> s[j..][k] == s[j + k];
      assert PaddedAt(s, m, i);
    }
  }

  /** TrimSpace is characterised independently of its definition: padding a
      trimmed string with white space on either side and trimming gives the
      string back. */
  lemma TrimSpaceOfPadded(a: string, m: string, b: string)
    requires AllSpace(a) && AllSpace(b) && Trimmed(m)
    ensures TrimSpace(a + m + b) == m
  {
    var s := a + m + b;
    if m != [] {
      assert s[|a|] == m[0] && s[|a| + |m| - 1] == m[|m| - 1];
      assert LeadingSpaces(s) == |a|;
      assert TrailingStart(s) == |a| + |m|;
      assert s[|a|..|a| + |m|] == m;
    } else {
      assert AllSpace(s);
    }
  }

  /** Trimming twice is the same as trimming once. */
  lemma TrimSpaceIdempotent(s: string)
    ensures TrimSpace(TrimSpace(s)) == TrimSpace(s)
  {
    var r := TrimSpace(s);
    assert [] + r + [] == r;
    TrimSpaceOfPadded([], r, []);
  }

  /** Trimming a few single lines: a space-padded string loses its padding. */
  lemma TrimSpaceExamples()
    ensures TrimSpace("a") == "a" && TrimSpace(" b ") == "b"
    ensures TrimSpace("") == "" && TrimSpace("c") == "c"
  {
    assert TrimSpace("a") == "a" by {
      TrimSpaceOfPadded("", "a", "");
      assert "" + "a" + "" == "a";
    }
    assert TrimSpace(" b ") == "b" by {
      TrimSpaceOfPadded(" ", "b", " ");
      assert " " + "b" + " " == " b ";
    }
    assert TrimSpace("c") == "c" by {
      TrimSpaceOfPadded("", "c", "");
      assert "" + "c" + "" == "c";
    }
  }

}
