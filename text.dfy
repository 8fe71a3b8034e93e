/** The few JavaScript string operations the core relies on. */
module Text {

  /** The characters matched by the regular-expression class `\s` and
      removed by `String.prototype.trim`: ECMAScript WhiteSpace and
      LineTerminator. */
  predicate IsJsSpace(c: char) {
    var n := c as int;
    (0x09 <= n <= 0x0D) || n == 0x20 || n == 0xA0 || n == 0x1680 ||
    (0x2000 <= n <= 0x200A) || n == 0x2028 || n == 0x2029 || n == 0x202F ||
    n == 0x205F || n == 0x3000 || n == 0xFEFF
  }

  function TrimStart(s: string): (r: string)
    ensures |r| <= |s|
    ensures r == [] || !IsJsSpace(r[0])
    ensures r == s[|s| - |r|..]
  {
    if s != [] && IsJsSpace(s[0]) then TrimStart(s[1..]) else s
  }

  function TrimEnd(s: string): (r: string)
    ensures |r| <= |s|
    ensures r == [] || !IsJsSpace(r[|r| - 1])
    ensures r == s[..|r|]
  {
    if s != [] && IsJsSpace(s[|s| - 1]) then TrimEnd(s[..|s| - 1]) else s
  }

  /** `s.trim()`. */
  function Trim(s: string): string {
    TrimEnd(TrimStart(s))
  }

  /** `s.trim().length === 0`. */
  predicate IsBlank(s: string) {
    |Trim(s)| == 0
  }

  lemma {:induction false} TrimStartEmpty(s: string)
    ensures TrimStart(s) == [] <==> forall i :: 0 <= i < |s| ==> IsJsSpace(s[i])
  {
    if s != [] && IsJsSpace(s[0]) {
      TrimStartEmpty(s[1..]);
      assert forall i :: 1 <= i < |s| ==> s[i] == s[1..][i - 1];
    }
  }

  /** A string is blank exactly when every character is white space. */
  lemma BlankIff(s: string)
    ensures IsBlank(s) <==> forall i :: 0 <= i < |s| ==> IsJsSpace(s[i])
  {
    TrimStartEmpty(s);
    var t := TrimStart(s);
    if t != [] {
      assert !IsJsSpace(t[0]);
      assert TrimEnd(t) != [] by {
        var e := TrimEnd(t);
        if e == [] {
          TrimEndEmptyOnlyIfSpaces(t);
        }
      }
    }
  }

  lemma {:induction false} TrimEndEmptyOnlyIfSpaces(s: string)
    requires TrimEnd(s) == []
    ensures forall i :: 0 <= i < |s| ==> IsJsSpace(s[i])
  {
    if s != [] {
      TrimEndEmptyOnlyIfSpaces(s[..|s| - 1]);
      assert forall i :: 0 <= i < |s| - 1 ==> s[i] == s[..|s| - 1][i];
    }
  }

  function StartsWith(s: string, prefix: string): bool {
    |prefix| <= |s| && s[..|prefix|] == prefix
  }

  function EndsWith(s: string, suffix: string): bool {
    |suffix| <= |s| && s[|s| - |suffix|..] == suffix
  }

  /** t occurs in s starting at offset i. */
  predicate OccursAt(s: string, t: string, i: int) {
    0 <= i <= |s| - |t| && s[i..i + |t|] == t
  }

  /** `s.includes(t)`: t occurs in s at some offset. */
  function Includes(s: string, t: string): (b: bool)
    ensures b <==> exists i :: OccursAt(s, t, i)
  {
    if StartsWith(s, t) then
      assert OccursAt(s, t, 0);
      true
    else if s == [] then
      assert forall i :: !OccursAt(s, t, i);
      false
    else
      var r := Includes(s[1..], t);
      assert forall i :: OccursAt(s[1..], t, i) <==> OccursAt(s, t, i + 1);
      assert !OccursAt(s, t, 0);
      assert forall i :: OccursAt(s, t, i) ==> i == 0 || OccursAt(s[1..], t, i - 1);
      r
  }

  /** Upper-casing of the ASCII letters a-z; every other character is kept. */
  function UpperChar(c: char): char {
    if 'a' <= c <= 'z' then (c as int - 32) as char else c
  }

  function ToUpperAscii(s: string): (r: string)
    ensures |r| == |s|
  {
    seq(|s|, i requires 0 <= i < |s| => UpperChar(s[i]))
  }
}
