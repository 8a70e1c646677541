// The little text handling the keys of the live position book rest on.
module Text {

  predicate Blank(c: char) { c == ' ' || c == '\t' || c == '\n' || c == '\r' }

  function StripLeft(s: string): string
  {
    if s != "" && Blank(s[0]) then StripLeft(s[1..]) else s
  }

  function Strip(s: string): string
    decreases |s|
  {
    var t := StripLeft(s);
    if t != "" && Blank(t[|t| - 1]) then StripRight(t) else t
  }

  function StripRight(s: string): string
  {
    if s != "" && Blank(s[|s| - 1]) then StripRight(s[..|s| - 1]) else s
  }

  // Stripping leaves the text from its first character that is not blank to its
  // last, and nothing of a text that is all blank.
  lemma StripKeepsTheCore(s: string) returns (i: nat, j: nat)
    ensures i <= j <= |s| && Strip(s) == s[i..j]
    ensures forall k :: 0 <= k < |s| && !(i <= k < j) ==> Blank(s[k])
    ensures i < j ==> !Blank(s[i]) && !Blank(s[j - 1])
  {
    i := LeftCore(s);
    j := RightCore(s[i..]);
    j := i + j;
  }

  lemma {:induction false} LeftCore(s: string) returns (i: nat)
    ensures i <= |s| && StripLeft(s) == s[i..] && forall k :: 0 <= k < i ==> Blank(s[k])
    ensures i < |s| ==> !Blank(s[i])
  {
    i := 0;
    if s != "" && Blank(s[0]) {
      i := LeftCore(s[1..]);
      i := i + 1;
    }
  }

  lemma {:induction false} RightCore(s: string) returns (j: nat)
    ensures j <= |s| && StripRight(s) == s[..j] && forall k :: j <= k < |s| ==> Blank(s[k])
    ensures j > 0 ==> !Blank(s[j - 1])
  {
    j := |s|;
    if s != "" && Blank(s[|s| - 1]) {
      j := RightCore(s[..|s| - 1]);
    }
  }

  function Upper(s: string): string
  {
    seq(|s|, i requires 0 <= i < |s| => if 'a' <= s[i] <= 'z' then s[i] - 'a' + 'A' else s[i])
  }
}
