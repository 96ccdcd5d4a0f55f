/** The two Python string builtins the core relies on: `str.upper()` (feed
    ids are case-folded before lookup) and `str.split()` with no argument
    (the station catalog's space-separated route field). */
module StringOps {

  // ---------------------------------------------------------------------
  // str.upper()
  // ---------------------------------------------------------------------

  /** Upper case of one character. ASCII letters map as usual; besides them,
      dotless i (U+0131) and long s (U+017F) are the only characters whose
      upper case is a single ASCII letter. Every other character is kept. */
  function UpperChar(c: char): (u: char)
    ensures 'a' <= c <= 'z' ==> 'A' <= u <= 'Z' && u as int - c as int == 'A' as int - 'a' as int
    ensures u != c ==> 'A' <= u <= 'Z'
  {
    if 'a' <= c <= 'z' then (c as int - 'a' as int + 'A' as int) as char
    else if c == '\U{131}' then 'I'
    else if c == '\U{17F}' then 'S'
    else c
  }

  function ToUpper(s: string): (r: string)
    ensures |r| == |s|
    ensures forall i :: 0 <= i < |s| ==> r[i] == UpperChar(s[i])
  {
    seq(|s|, i requires 0 <= i < |s| => UpperChar(s[i]))
  }

  lemma UpperCharIdempotent(c: char)
    ensures UpperChar(UpperChar(c)) == UpperChar(c)
  {
  }

  /** Folding twice is folding once. */
  lemma ToUpperIdempotent(s: string)
    ensures ToUpper(ToUpper(s)) == ToUpper(s)
  {
    forall i | 0 <= i < |s|
      ensures ToUpper(ToUpper(s))[i] == ToUpper(s)[i]
    {
      UpperCharIdempotent(s[i]);
    }
  }

  // ---------------------------------------------------------------------
  // str.split() with no separator
  // ---------------------------------------------------------------------

  /** The characters `str.isspace()` accepts, which `str.split()` treats as
      separators. */
  predicate IsSpace(c: char)
  {
    c == ' ' || '\t' <= c <= '\r' || '\U{1C}' <= c <= '\U{1F}'
    || c == '\U{85}' || c == '\U{A0}' || c == '\U{1680}'
    || '\U{2000}' <= c <= '\U{200A}' || c == '\U{2028}' || c == '\U{2029}'
    || c == '\U{202F}' || c == '\U{205F}' || c == '\U{3000}'
  }

  /** A token `split()` can return: non-empty, no separator inside. */
  predicate IsToken(t: string)
  {
    t != [] && forall i :: 0 <= i < |t| ==> !IsSpace(t[i])
  }

  /** Length of the run of non-space characters at the start of `s`. */
  function RunLength(s: string): (n: nat)
    ensures n <= |s|
    ensures forall i :: 0 <= i < n ==> !IsSpace(s[i])
    ensures n < |s| ==> IsSpace(s[n])
  {
    if s == [] || IsSpace(s[0]) then 0 else 1 + RunLength(s[1..])
  }

  /** `s.split()`: maximal runs of non-space characters, in order; leading,
      trailing and repeated separators produce no empty tokens. */
  function Split(s: string): (tokens: seq<string>)
    ensures forall i :: 0 <= i < |tokens| ==> IsToken(tokens[i])
    decreases |s|
  {
    if s == [] then []
    else if IsSpace(s[0]) then Split(s[1..])
    else
      var n := RunLength(s);
      [s[..n]] + Split(s[n..])
  }

  /** A blank string (empty, or whitespace only) splits into no token. */
  lemma {:induction false} BlankSplit(s: string)
    requires forall i :: 0 <= i < |s| ==> IsSpace(s[i])
    ensures Split(s) == []
    decreases |s|
  {
    if s != [] {
      BlankSplit(s[1..]);
    }
  }

  /** `" ".join(tokens)`. */
  function JoinSpaced(tokens: seq<string>): string
  {
    if tokens == [] then ""
    else if |tokens| == 1 then tokens[0]
    else tokens[0] + " " + JoinSpaced(tokens[1..])
  }

  lemma {:induction false} RunLengthOfToken(t: string, rest: string)
    requires IsToken(t)
    requires rest == [] || IsSpace(rest[0])
    ensures RunLength(t + rest) == |t|
    decreases |t|
  {
    var s := t + rest;
    assert s[0] == t[0];
    if |t| > 1 {
      assert s[1..] == t[1..] + rest;
      RunLengthOfToken(t[1..], rest);
    } else {
      assert s[1..] == rest;
    }
  }

  /** Splitting a space-joined list of tokens gives the tokens back: the
      route field "A C E" holds exactly the routes A, C and E. */
  lemma {:induction false} SplitJoinSpaced(tokens: seq<string>)
    requires forall i :: 0 <= i < |tokens| ==> IsToken(tokens[i])
    ensures Split(JoinSpaced(tokens)) == tokens
    decreases |tokens|
  {
    if tokens == [] {
    } else if |tokens| == 1 {
      var t := tokens[0];
      RunLengthOfToken(t, []);
      assert t + [] == t;
      assert t[|t|..] == [];
    } else {
      var t := tokens[0];
      var rest := JoinSpaced(tokens[1..]);
      var s := t + " " + rest;
      assert s == t + (" " + rest);
      RunLengthOfToken(t, " " + rest);
      assert s[..|t|] == t;
      assert s[|t|..] == " " + rest;
      assert Split(" " + rest) == Split(rest) by {
        assert (" " + rest)[1..] == rest;
      }
      SplitJoinSpaced(tokens[1..]);
    }
  }

  /** Leading, trailing and repeated whitespace produce no empty token. */
  lemma SplitSample()
    ensures Split(" A C  E ") == ["A", "C", "E"]
  {
    var s := " A C  E ";
    assert s[1..] == "A C  E ";
    assert Split(s) == Split("A C  E ");
    assert RunLength("A C  E ") == 1;
    assert "A C  E "[..1] == "A" && "A C  E "[1..] == " C  E ";
    assert " C  E "[1..] == "C  E ";
    assert RunLength("C  E ") == 1;
    assert "C  E "[..1] == "C" && "C  E "[1..] == "  E ";
    assert "  E "[1..] == " E " && " E "[1..] == "E ";
    assert RunLength("E ") == 1;
    assert "E "[..1] == "E" && "E "[1..] == " ";
    assert " "[1..] == "";
  }
}
