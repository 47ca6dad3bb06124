/** The few `java.lang.String` operations the user service relies on. */
module JavaText {
  /** `Character` test used by `String.trim`: code points up to U+0020 are stripped. */
  predicate IsTrimmed(c: char) {
    c <= ' '
  }

  /** `s` without its leading run of trimmed characters. */
  function TrimStart(s: string): (r: string)
    ensures |r| <= |s| && r == s[|s| - |r|..]
    ensures r != [] ==> !IsTrimmed(r[0])
    ensures forall i | 0 <= i < |s| - |r| :: IsTrimmed(s[i])
  {
    if s != [] && IsTrimmed(s[0]) then TrimStart(s[1..]) else s
  }

  /** `s` without its trailing run of trimmed characters. */
  function TrimEnd(s: string): (r: string)
    ensures |r| <= |s| && r == s[..|r|]
    ensures r != [] ==> !IsTrimmed(r[|r| - 1])
    ensures forall i | |r| <= i < |s| :: IsTrimmed(s[i])
  {
    if s != [] && IsTrimmed(s[|s| - 1]) then TrimEnd(s[..|s| - 1]) else s
  }

  /** `r` is the part of `s` starting at `a`, and every character of `s`
      before or after that part is trimmed. */
  predicate Middle(s: string, a: nat, r: string) {
    && a + |r| <= |s| && (forall i | 0 <= i < |r| :: r[i] == s[a + i])
    && (forall i | 0 <= i < a :: IsTrimmed(s[i]))
    && (forall i | a + |r| <= i < |s| :: IsTrimmed(s[i]))
  }

  /** Stripping a trimmed front off `s`, leaving `t`, and then a trimmed
      back off `t`, leaving `r`, keeps the middle of `s` and removes only
      trimmed characters. */
  lemma TrimKeepsMiddle(s: string, t: string, r: string)
    requires |t| <= |s| && t == s[|s| - |t|..] && (t != [] ==> !IsTrimmed(t[0]))
    requires forall i | 0 <= i < |s| - |t| :: IsTrimmed(s[i])
    requires |r| <= |t| && r == t[..|r|] && (r != [] ==> !IsTrimmed(r[|r| - 1]))
    requires forall i | |r| <= i < |t| :: IsTrimmed(t[i])
    ensures Middle(s, |s| - |t|, r)
    ensures r != [] ==> !IsTrimmed(r[0]) && !IsTrimmed(r[|r| - 1])
    ensures r == [] <==> forall i | 0 <= i < |s| :: IsTrimmed(s[i])
  {
    var a := |s| - |t|;
    forall i | 0 <= i < |r| ensures r[i] == s[a + i] {
      assert r[i] == t[i];
    }
    forall i | a + |r| <= i < |s| ensures IsTrimmed(s[i]) {
      assert s[i] == t[i - a];
    }
    if t != [] {
      assert s[a] == t[0];
    }
  }

  /** `String.trim`: the part of `s` between its leading and trailing runs
      of trimmed characters, starting and ending with a kept character, and
      empty exactly when every character of `s` is trimmed. */
  function Trim(s: string): (r: string)
    ensures |r| <= |s|
    ensures r != [] ==> !IsTrimmed(r[0]) && !IsTrimmed(r[|r| - 1])
    ensures r == [] <==> forall i | 0 <= i < |s| :: IsTrimmed(s[i])
    ensures exists a | 0 <= a <= |s| :: Middle(s, a, r)
  {
    var t := TrimStart(s);
    var r := TrimEnd(t);
    TrimKeepsMiddle(s, t, r);
    assert Middle(s, |s| - |t|, r);
    r
  }

  /** `s.trim().isEmpty()`: every character is at or below U+0020. */
  predicate IsBlank(s: string): (blank: bool)
    ensures blank <==> forall i | 0 <= i < |s| :: IsTrimmed(s[i])
  {
    Trim(s) == []
  }

  /** `Character.toUpperCase` on the ASCII letters; every other character is kept. */
  function UpperChar(c: char): char {
    if 'a' <= c <= 'z' then (c as int - 32) as char else c
  }

  /** `String.toUpperCase`, character by character. */
  function ToUpper(s: string): (r: string)
    ensures |r| == |s|
    ensures forall i | 0 <= i < |s| :: r[i] == UpperChar(s[i])
  {
    if s == [] then [] else [UpperChar(s[0])] + ToUpper(s[1..])
  }

  /** Upper-cased text holds no lower-case ASCII letter. */
  lemma ToUpperChars(s: string)
    ensures forall i | 0 <= i < |s| :: !('a' <= ToUpper(s)[i] <= 'z')
    ensures forall i | 0 <= i < |s| :: UpperChar(ToUpper(s)[i]) == ToUpper(s)[i]
  {
  }
}
