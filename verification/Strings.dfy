/** Characters and positions in strings, as the standard library of the program defines them. */
module Strings {

  /** The code points that strings.TrimSpace removes. */
  predicate IsSpace(c: char) {
    var k := c as int;
    || 0x09 <= k <= 0x0D || k == 0x20 || k == 0x85 || k == 0xA0 || k == 0x1680
    || 0x2000 <= k <= 0x200A || k == 0x2028 || k == 0x2029 || k == 0x202F || k == 0x205F || k == 0x3000
  }

  function TrimLeft(s: string): string {
    if s != "" && IsSpace(s[0]) then TrimLeft(s[1..]) else s
  }

  function TrimRight(s: string): string {
    if s != "" && IsSpace(s[|s| - 1]) then TrimRight(s[..|s| - 1]) else s
  }

  function Trim(s: string): string {
    TrimRight(TrimLeft(s))
  }

  /** Index of the first occurrence of a character, or -1. */
  function IndexOf(s: string, c: char): (k: int)
    ensures -1 <= k < |s|
    ensures k >= 0 ==> s[k] == c && forall j :: 0 <= j < k ==> s[j] != c
    ensures k < 0 ==> c !in s
  {
    if s == [] then -1
    else if s[0] == c then 0
    else
      var k := IndexOf(s[1..], c);
      assert s == [s[0]] + s[1..];
      if k < 0 then -1 else k + 1
  }

  lemma IndexOfIs(s: string, c: char, k: nat)
    requires k < |s| && s[k] == c && c !in s[..k]
    ensures IndexOf(s, c) == k
  {
    assert s[k] in s;
    forall j | 0 <= j < k ensures s[j] != c {
      assert s[..k][j] == s[j];
    }
  }

  ghost predicate Blank(s: string) {
    forall i :: 0 <= i < |s| ==> IsSpace(s[i])
  }

  lemma {:induction false} TrimLeftCuts(s: string) returns (a: string)
    ensures s == a + TrimLeft(s) && Blank(a) && (TrimLeft(s) != "" ==> !IsSpace(TrimLeft(s)[0]))
  {
    if s != "" && IsSpace(s[0]) {
      var rest := TrimLeftCuts(s[1..]);
      a := [s[0]] + rest;
    } else {
      a := "";
    }
  }

  lemma {:induction false} TrimRightCuts(s: string) returns (b: string)
    ensures s == TrimRight(s) + b && Blank(b)
    ensures TrimRight(s) != "" ==> TrimRight(s)[0] == s[0] && !IsSpace(TrimRight(s)[|TrimRight(s)| - 1])
  {
    if s != "" && IsSpace(s[|s| - 1]) {
      var rest := TrimRightCuts(s[..|s| - 1]);
      b := rest + [s[|s| - 1]];
    } else {
      b := "";
    }
  }

  /** Trimming cuts off white space at both ends, and all of it. */
  lemma TrimCuts(s: string) returns (a: string, b: string)
    ensures s == a + Trim(s) + b && Blank(a) && Blank(b)
    ensures Trim(s) != "" ==> !IsSpace(Trim(s)[0]) && !IsSpace(Trim(s)[|Trim(s)| - 1])
  {
    a := TrimLeftCuts(s);
    b := TrimRightCuts(TrimLeft(s));
  }
}
