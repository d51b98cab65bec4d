/** `String.prototype.trim` and the JavaScript notion of white space it
    strips, plus the facts the console relies on: what trimming keeps, that
    it is idempotent, and that a string trims to "" exactly when it is all
    white space. */
module Text {

  /** WhiteSpace and LineTerminator code points of ECMAScript: tab, vertical
      tab, form feed, space, no-break space, byte-order mark, the Unicode
      space separators, and LF, CR, LS, PS. */
  predicate IsWhiteSpace(c: char) {
    || c == '\t' || c == '\n' || c == '\U{000B}' || c == '\U{000C}' || c == '\r'
    || c == ' ' || c == '\U{00A0}' || c == '\U{1680}'
    || ('\U{2000}' <= c <= '\U{200A}')
    || c == '\U{2028}' || c == '\U{2029}' || c == '\U{202F}' || c == '\U{205F}'
    || c == '\U{3000}' || c == '\U{FEFF}'
  }

  /** Every character is white space (the empty string included). */
  predicate IsBlank(s: string) {
    forall i | 0 <= i < |s| :: IsWhiteSpace(s[i])
  }

  /** Drops the leading white space (`TrimStartSuffix`,
      `TrimStartDropsBlank`). */
  function TrimStart(s: string): (r: string)
    ensures |r| <= |s|
  {
    if s != [] && IsWhiteSpace(s[0]) then TrimStart(s[1..]) else s
  }

  /** Drops the trailing white space (`TrimEndPrefix`,
      `TrimEndDropsBlank`). */
  function TrimEnd(s: string): (r: string)
    ensures |r| <= |s|
  {
    if s != [] && IsWhiteSpace(s[|s| - 1]) then TrimEnd(s[..|s| - 1]) else s
  }

  /** What `TrimStart` keeps is a suffix of `s` that does not start with
      white space. */
  lemma {:induction false} TrimStartSuffix(s: string)
    ensures TrimStart(s) == s[|s| - |TrimStart(s)|..]
    ensures TrimStart(s) != [] ==> !IsWhiteSpace(TrimStart(s)[0])
  {
    if s != [] && IsWhiteSpace(s[0]) {
      TrimStartSuffix(s[1..]);
    }
  }

  /** What `TrimEnd` keeps is a prefix of `s` that does not end with white
      space. */
  lemma {:induction false} TrimEndPrefix(s: string)
    ensures TrimEnd(s) == s[..|TrimEnd(s)|]
    ensures TrimEnd(s) != [] ==> !IsWhiteSpace(TrimEnd(s)[|TrimEnd(s)| - 1])
  {
    if s != [] && IsWhiteSpace(s[|s| - 1]) {
      var p := s[..|s| - 1];
      TrimEndPrefix(p);
      assert TrimEnd(p) == s[..|TrimEnd(p)|];
    }
  }

  /** What `TrimStart` drops is all white space. */
  lemma {:induction false} TrimStartDropsBlank(s: string)
    ensures IsBlank(s[..|s| - |TrimStart(s)|])
  {
    if s != [] && IsWhiteSpace(s[0]) {
      var r := TrimStart(s[1..]);
      TrimStartSuffix(s[1..]);
      TrimStartDropsBlank(s[1..]);
      BlankCons(s[0], s[1..][..|s| - 1 - |r|]);
      assert s[..|s| - |r|] == [s[0]] + s[1..][..|s| - 1 - |r|];
    }
  }

  /** What `TrimEnd` drops is all white space. */
  lemma {:induction false} TrimEndDropsBlank(s: string)
    ensures IsBlank(s[|TrimEnd(s)|..])
  {
    if s != [] && IsWhiteSpace(s[|s| - 1]) {
      var p := s[..|s| - 1];
      var r := TrimEnd(p);
      TrimEndPrefix(p);
      TrimEndDropsBlank(p);
      assert s[|r|..] == p[|r|..] + [s[|s| - 1]];
      BlankSnoc(p[|r|..], s[|s| - 1]);
    }
  }

  lemma BlankCons(c: char, b: string)
    requires IsWhiteSpace(c) && IsBlank(b)
    ensures IsBlank([c] + b)
  {
  }

  lemma BlankSnoc(b: string, c: char)
    requires IsBlank(b) && IsWhiteSpace(c)
    ensures IsBlank(b + [c])
  {
  }

  /** `s.trim()` */
  function Trim(s: string): string {
    TrimEnd(TrimStart(s))
  }

  /** Cutting a blank prefix and then a blank suffix leaves a slice with
      only white space outside it. */
  lemma BlankOutside(s: string, t: string, r: string)
    requires |t| <= |s| && t == s[|s| - |t|..] && IsBlank(s[..|s| - |t|])
    requires |r| <= |t| && r == t[..|r|] && IsBlank(t[|r|..])
    ensures exists i, j :: 0 <= i <= j <= |s| && r == s[i..j] && IsBlank(s[..i]) && IsBlank(s[j..])
  {
    var i := |s| - |t|;
    var j := i + |r|;
    assert r == s[i..j];
    assert s[j..] == t[|r|..];
  }

  /** The trimmed string is the slice `s[i..j]` of the input, and
      everything outside it is white space. */
  lemma TrimIsSlice(s: string)
    ensures exists i, j :: 0 <= i <= j <= |s| && Trim(s) == s[i..j]
                           && IsBlank(s[..i]) && IsBlank(s[j..])
  {
    TrimStartSuffix(s);
    TrimEndPrefix(TrimStart(s));
    TrimStartDropsBlank(s);
    TrimEndDropsBlank(TrimStart(s));
    BlankOutside(s, TrimStart(s), TrimEnd(TrimStart(s)));
  }

  /** The trimmed string neither starts nor ends with white space. */
  lemma TrimEnds(s: string)
    ensures Trim(s) != [] ==> !IsWhiteSpace(Trim(s)[0]) && !IsWhiteSpace(Trim(s)[|Trim(s)| - 1])
  {
    var t := TrimStart(s);
    var r := TrimEnd(t);
    TrimStartSuffix(s);
    TrimEndPrefix(t);
    if r != [] {
      assert r[0] == t[0];
    }
  }

  /** A string trims to "" exactly when it is all white space: `s.trim()`
      is falsy exactly for blank strings. */
  lemma TrimEmptyIffBlank(s: string)
    ensures Trim(s) == [] <==> IsBlank(s)
  {
    var t := TrimStart(s);
    TrimStartSuffix(s);
    TrimEndPrefix(t);
    TrimStartDropsBlank(s);
    TrimEndDropsBlank(t);
    if Trim(s) == [] {
      assert t[0..] == t;
      assert t == [];
      assert s[..|s|] == s;
    }
  }

  /** Trimming twice is trimming once. */
  lemma TrimIdempotent(s: string)
    ensures Trim(Trim(s)) == Trim(s)
  {
    var r := Trim(s);
    TrimEnds(s);
    if r != [] {
      assert TrimStart(r) == r;
      assert TrimEnd(r) == r;
    }
  }
}
