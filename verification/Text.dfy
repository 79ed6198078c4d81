/** Strings as the pipeline handles them: whitespace stripping and substring search. */
module Text {

  /** The characters for which str.isspace() holds. */
  predicate IsSpace(c: char) {
    var n := c as int;
    || 0x09 <= n <= 0x0D || 0x1C <= n <= 0x20 || n == 0x85 || n == 0xA0 || n == 0x1680
    || 0x2000 <= n <= 0x200A || n == 0x2028 || n == 0x2029 || n == 0x202F || n == 0x205F || n == 0x3000
  }

  /** str.rstrip(): the longest prefix that does not end in whitespace. */
  function RStrip(s: string): (r: string)
    ensures r <= s
    ensures r == "" || !IsSpace(r[|r| - 1])
    ensures forall i :: |r| <= i < |s| ==> IsSpace(s[i])
  {
    if s == "" || !IsSpace(s[|s| - 1]) then s else RStrip(s[..|s| - 1])
  }

  function LStrip(s: string): (r: string)
    ensures |r| <= |s| && r == s[|s| - |r|..]
    ensures r == "" || !IsSpace(r[0])
    ensures forall i :: 0 <= i < |s| - |r| ==> IsSpace(s[i])
  {
    if s == "" || !IsSpace(s[0]) then s else LStrip(s[1..])
  }

  /** str.strip(). */
  function Strip(s: string): (r: string)
    ensures r == "" || (!IsSpace(r[0]) && !IsSpace(r[|r| - 1]))
  {
    RStrip(LStrip(s))
  }

  /** Nothing but whitespace. */
  predicate Blank(s: string) { s == "" || (IsSpace(s[0]) && Blank(s[1..])) }

  lemma BlankIffStripped(s: string)
    ensures Blank(s) <==> Strip(s) == ""
  {
    BlankIffLStripped(s);
    assert LStrip(s) != "" ==> Strip(s) != "";
  }

  lemma {:induction false} BlankIffLStripped(s: string)
    ensures Blank(s) <==> LStrip(s) == ""
  {
    if s != "" && IsSpace(s[0]) {
      BlankIffLStripped(s[1..]);
    }
  }

  /** str.strip() takes off whitespace at both ends, and nothing else. */
  lemma StripExact(s: string) returns (pre: string, post: string)
    ensures s == pre + Strip(s) + post && Blank(pre) && Blank(post)
  {
    pre := LStripExact(s);
    post := RStripExact(LStrip(s));
  }

  lemma LStripExact(s: string) returns (pre: string)
    ensures s == pre + LStrip(s) && Blank(pre)
  {
    pre := s[..|s| - |LStrip(s)|];
    AllSpaces(pre);
  }

  lemma RStripExact(s: string) returns (post: string)
    ensures s == RStrip(s) + post && Blank(post)
  {
    post := s[|RStrip(s)|..];
    AllSpaces(post);
  }

  lemma {:induction false} AllSpaces(s: string)
    requires forall i :: 0 <= i < |s| ==> IsSpace(s[i])
    ensures Blank(s)
  {
    if s != "" {
      AllSpaces(s[1..]);
    }
  }

  /** The code points of whitespace, one by one. */
  lemma SpacesListed(c: char)
    ensures IsSpace(c) <==>
            c as int in {0x09, 0x0A, 0x0B, 0x0C, 0x0D, 0x1C, 0x1D, 0x1E, 0x1F, 0x20, 0x85, 0xA0, 0x1680, 0x2000, 0x2001,
                         0x2002, 0x2003, 0x2004, 0x2005, 0x2006, 0x2007, 0x2008, 0x2009, 0x200A, 0x2028, 0x2029, 0x202F,
                         0x205F, 0x3000}
  {}

  ghost predicate Contains(s: string, part: string) {
    exists i: nat :: i <= |s| && part <= s[i..]
  }
}
