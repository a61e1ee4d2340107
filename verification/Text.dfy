/** The part of Python's string handling that the service's checks rely on. */
module Text {

  // The characters str.strip() removes (str.isspace()).
  predicate IsSpace(c: char) {
    var n := c as int;
    || 0x09 <= n <= 0x0d
    || 0x1c <= n <= 0x20
    || n == 0x85 || n == 0xa0 || n == 0x1680
    || 0x2000 <= n <= 0x200a
    || n == 0x2028 || n == 0x2029 || n == 0x202f || n == 0x205f || n == 0x3000
  }

  lemma Spaces(c: char)
    ensures c in {' ', '\t', '\n', '\r'} ==> IsSpace(c)
    ensures '!' <= c <= '~' ==> !IsSpace(c)
  {
  }

  // `not s.strip()`: nothing is left once white space is stripped from both ends.
  predicate Blank(s: string) {
    forall i :: 0 <= i < |s| ==> IsSpace(s[i])
  }

  function StripLeft(s: string): (r: string)
    ensures |r| <= |s| && s[|s| - |r|..] == r
    ensures forall i :: 0 <= i < |s| - |r| ==> IsSpace(s[i])
    ensures r == [] || !IsSpace(r[0])
  {
    if s != [] && IsSpace(s[0]) then StripLeft(s[1..]) else s
  }

  function StripRight(s: string): (r: string)
    ensures |r| <= |s| && s[..|r|] == r
    ensures forall i :: |r| <= i < |s| ==> IsSpace(s[i])
    ensures r == [] || !IsSpace(r[|r| - 1])
  {
    if s != [] && IsSpace(s[|s| - 1]) then StripRight(s[..|s| - 1]) else s
  }

  /** r is what is left of s: a slice with only white space around it and none at its ends. */
  ghost predicate Trims(r: string, s: string) {
    && (exists i: nat :: SliceAt(r, s, i))
    && (r == [] || (!IsSpace(r[0]) && !IsSpace(r[|r| - 1])))
  }

  ghost predicate SliceAt(r: string, s: string, i: nat) {
    && i + |r| <= |s| && s[i..i + |r|] == r
    && SpaceBetween(s, 0, i) && SpaceBetween(s, i + |r|, |s|)
  }

  function Strip(s: string): string {
    StripRight(StripLeft(s))
  }

  // Being white space from one index to another, said so that it can be shifted.
  ghost predicate SpaceBetween(s: string, i: nat, j: nat)
    requires i <= j <= |s|
  {
    forall k :: i <= k < j ==> IsSpace(s[k])
  }

  lemma ShiftSpace(s: string, i: nat, j: nat)
    requires i <= |s| && j <= |s| - i && SpaceBetween(s[i..], j, |s| - i)
    ensures SpaceBetween(s, i + j, |s|)
  {
    forall k | i + j <= k < |s| ensures IsSpace(s[k]) {
      assert s[i..][k - i] == s[k];
    }
  }

  lemma SliceOfSlice(s: string, i: nat, n: nat)
    requires i + n <= |s|
    ensures s[i..i + n] == s[i..][..n]
  {
  }

  lemma MiddleOf(s: string, i: nat, n: nat)
    requires i <= |s| && n <= |s| - i && SpaceBetween(s, 0, i) && SpaceBetween(s[i..], n, |s| - i)
    ensures SliceAt(s[i..][..n], s, i)
  {
    SliceOfSlice(s, i, n);
    ShiftSpace(s, i, n);
  }

  lemma LeftSpace(s: string)
    ensures var i := |s| - |StripLeft(s)|; s[i..] == StripLeft(s) && SpaceBetween(s, 0, i)
  {
  }

  lemma RightSpace(s: string)
    ensures var n := |StripRight(s)|; s[..n] == StripRight(s) && SpaceBetween(s, n, |s|)
  {
  }

  lemma StripEnds(s: string)
    requires Strip(s) != []
    ensures !IsSpace(Strip(s)[0]) && !IsSpace(Strip(s)[|Strip(s)| - 1])
  {
    var l := StripLeft(s);
    assert StripRight(l)[0] == l[0];
  }

  lemma StripTrims(s: string)
    ensures Trims(Strip(s), s)
  {
    LeftSpace(s);
    var i, l := |s| - |StripLeft(s)|, StripLeft(s);
    RightSpace(l);
    MiddleOf(s, i, |StripRight(l)|);
    if Strip(s) != [] {
      StripEnds(s);
    }
  }

  // `not s.strip()` is exactly Blank.
  lemma StripEmptyIffBlank(s: string)
    ensures Strip(s) == [] <==> Blank(s)
  {
    var l := StripLeft(s);
    var r := StripRight(l);
    if l != [] {
      assert l[0] == s[|s| - |l|];
      assert r != [];
    }
  }
}
