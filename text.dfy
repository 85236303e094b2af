/**
 * The handful of java.lang.String operations the application relies on,
 * on strings as sequences of characters.
 *
 * Case mapping covers ASCII and the Latin-1 letters (the accented letters of
 * the French texts the application stores); other scripts are left as they are.
 */
module Text {

  /** Character.toLowerCase restricted to ASCII and Latin-1. */
  function LowerChar(c: char): (r: char)
    ensures 'A' <= c <= 'Z' ==> r as int == c as int + 32
    ensures !('A' <= c <= 'Z') && !('À' <= c <= 'Þ') ==> r == c
  {
    if 'A' <= c <= 'Z' || ('À' <= c <= 'Þ' && c != '×') then
      (c as int + 32) as char
    else
      c
  }

  /**
   * Character.toUpperCase restricted to ASCII and Latin-1: the small letters
   * move down by 32, except 'ÿ' and 'µ', whose capitals lie outside Latin-1;
   * 'ß' has no single-character capital and is kept.
   */
  function UpperChar(c: char): (r: char)
    ensures 'a' <= c <= 'z' ==> r as int == c as int - 32
    ensures c == 'ÿ' ==> r == '\U{0178}'
    ensures c == 'µ' ==> r == '\U{039C}'
    ensures !('a' <= c <= 'z') && !('à' <= c <= 'ÿ') && c != 'µ' ==> r == c
  {
    if 'a' <= c <= 'z' || ('à' <= c <= 'þ' && c != '÷') then
      (c as int - 32) as char
    else if c == 'ÿ' then
      '\U{0178}'
    else if c == 'µ' then
      '\U{039C}'
    else
      c
  }

  /** String.toLowerCase: every character mapped, length kept. */
  function ToLower(s: string): (r: string)
    ensures |r| == |s|
    ensures forall i :: 0 <= i < |s| ==> r[i] == LowerChar(s[i])
  {
    seq(|s|, i requires 0 <= i < |s| => LowerChar(s[i]))
  }

  /**
   * String.toUpperCase, same restriction as UpperChar, except that 'ß'
   * becomes "SS": the length is kept exactly when the text has no 'ß'.
   */
  function ToUpper(s: string): (r: string)
    ensures 'ß' !in r
    ensures 'ß' !in s ==> |r| == |s| && forall i :: 0 <= i < |s| ==> r[i] == UpperChar(s[i])
    ensures 'ß' in s ==> |r| > |s|
  {
    if s == [] then []
    else if s[0] == 'ß' then "SS" + ToUpper(s[1..])
    else [UpperChar(s[0])] + ToUpper(s[1..])
  }

  /**
   * String.length(): the number of UTF-16 code units, two for a character
   * outside the Basic Multilingual Plane.
   */
  function Utf16Length(s: string): (n: nat)
    ensures |s| <= n <= 2 * |s|
  {
    if s == [] then 0
    else (if s[0] as int < 0x1_0000 then 1 else 2) + Utf16Length(s[1..])
  }

  /** On text of the Basic Multilingual Plane, the UTF-16 length is the length. */
  lemma {:induction false} Utf16LengthBmp(s: string)
    requires forall i :: 0 <= i < |s| ==> s[i] as int < 0x1_0000
    ensures Utf16Length(s) == |s|
  {
    if s != [] {
      assert forall i :: 0 <= i < |s[1..]| ==> s[1..][i] == s[i + 1];
      Utf16LengthBmp(s[1..]);
    }
  }

  lemma LowerCharIdempotent(c: char)
    ensures LowerChar(LowerChar(c)) == LowerChar(c)
  {
  }

  lemma UpperCharIdempotent(c: char)
    ensures UpperChar(UpperChar(c)) == UpperChar(c)
  {
  }

  /** Lower-casing twice is lower-casing once. */
  lemma ToLowerIdempotent(s: string)
    ensures ToLower(ToLower(s)) == ToLower(s)
  {
    forall i | 0 <= i < |s| ensures ToLower(ToLower(s))[i] == ToLower(s)[i] {
      LowerCharIdempotent(s[i]);
    }
  }

  /** String.startsWith. */
  predicate StartsWith(s: string, prefix: string)
  {
    |prefix| <= |s| && s[..|prefix|] == prefix
  }

  /** A text followed by anything starts with that text. */
  lemma StartsWithAppend(a: string, b: string)
    ensures StartsWith(a + b, a)
  {
    assert (a + b)[..|a|] == a;
  }

  /** String.contains: `part` occurs in `s` at some offset. */
  predicate Contains(s: string, part: string)
    decreases |s|
  {
    StartsWith(s, part) || (|s| > 0 && Contains(s[1..], part))
  }

  /** An occurrence of `part` at offset `at`. */
  ghost predicate OccursAt(s: string, part: string, at: int)
  {
    0 <= at && at + |part| <= |s| && s[at..at + |part|] == part
  }

  /** An occurrence at any offset makes Contains hold. */
  lemma {:induction false} OccursAtContains(s: string, part: string, at: int)
    requires OccursAt(s, part, at)
    ensures Contains(s, part)
    decreases at
  {
    if at > 0 {
      assert s[1..][at - 1..at - 1 + |part|] == s[at..at + |part|];
      OccursAtContains(s[1..], part, at - 1);
    }
  }

  /** Contains yields an offset where `part` occurs. */
  lemma {:induction false} ContainsOccurs(s: string, part: string) returns (at: nat)
    requires Contains(s, part)
    ensures OccursAt(s, part, at)
    decreases |s|
  {
    if StartsWith(s, part) {
      at := 0;
    } else {
      var k := ContainsOccurs(s[1..], part);
      assert s[1..][k..k + |part|] == s[k + 1..k + 1 + |part|];
      at := k + 1;
    }
  }

  /** Contains holds exactly when there is an offset where `part` occurs. */
  lemma ContainsIff(s: string, part: string)
    ensures Contains(s, part) <==> exists at :: OccursAt(s, part, at)
  {
    if Contains(s, part) {
      var at := ContainsOccurs(s, part);
    }
    if exists at :: OccursAt(s, part, at) {
      var at :| OccursAt(s, part, at);
      OccursAtContains(s, part, at);
    }
  }

  /** A string occurs in any string that has it as a slice. */
  lemma ContainsSlice(s: string, at: nat, len: nat)
    requires at + len <= |s|
    ensures Contains(s, s[at..at + len])
  {
    assert OccursAt(s, s[at..at + len], at);
    ContainsIff(s, s[at..at + len]);
  }
  /** A text occurs in any text built around it. */
  lemma ContainsMiddle(before: string, part: string, after: string)
    ensures Contains(before + part + after, part)
  {
    var s := before + part + after;
    ContainsSlice(s, |before|, |part|);
    assert s[|before|..|before| + |part|] == part;
  }


  /** A single character is contained exactly when it is an element. */
  lemma ContainsChar(s: string, c: char)
    ensures Contains(s, [c]) <==> c in s
  {
    ContainsIff(s, [c]);
    if c in s {
      var i :| 0 <= i < |s| && s[i] == c;
      assert OccursAt(s, [c], i);
    }
    if exists at :: OccursAt(s, [c], at) {
      var at :| OccursAt(s, [c], at);
      assert s[at] == s[at..at + 1][0];
    }
  }

  /** Every character of a contained part is a character of the string; in particular its first. */
  lemma ContainsHead(s: string, part: string)
    requires |part| > 0 && Contains(s, part)
    ensures part[0] in s
  {
    var at := ContainsOccurs(s, part);
    assert s[at] == s[at..at + |part|][0];
  }

  /** Java's notion of white space for String.trim: any character up to U+0020. */
  predicate IsTrimmable(c: char)
  {
    c <= ' '
  }

  function TrimStart(s: string): (r: string)
    ensures |r| <= |s| && r == s[|s| - |r|..]
    ensures r == [] || !IsTrimmable(r[0])
  {
    if |s| > 0 && IsTrimmable(s[0]) then TrimStart(s[1..]) else s
  }

  function TrimEnd(s: string): (r: string)
    ensures |r| <= |s| && r == s[..|r|]
    ensures r == [] || !IsTrimmable(r[|r| - 1])
  {
    if |s| > 0 && IsTrimmable(s[|s| - 1]) then TrimEnd(s[..|s| - 1]) else s
  }

  /** String.trim: no trimmable character at either end of the result. */
  function Trim(s: string): (r: string)
    ensures |r| <= |s|
    ensures r == [] || (!IsTrimmable(r[0]) && !IsTrimmable(r[|r| - 1]))
  {
    TrimEnd(TrimStart(s))
  }

  /** A trimmed string is its own trim. */
  lemma TrimIdempotent(s: string)
    ensures Trim(Trim(s)) == Trim(s)
  {
  }

  /** String.replace(CharSequence, CharSequence) for a one-character target. */
  function ReplaceChar(s: string, target: char, replacement: string): (r: string)
    ensures target !in replacement ==> target !in r
    ensures forall c :: c !in s && c !in replacement ==> c !in r
  {
    if s == [] then []
    else (if s[0] == target then replacement else [s[0]]) + ReplaceChar(s[1..], target, replacement)
  }

  /** Replacing in a concatenation replaces in each part. */
  lemma {:induction false} ReplaceCharAppend(a: string, b: string, target: char, replacement: string)
    ensures ReplaceChar(a + b, target, replacement) == ReplaceChar(a, target, replacement) + ReplaceChar(b, target, replacement)
    decreases |a|
  {
    if a != [] {
      assert (a + b)[0] == a[0] && (a + b)[1..] == a[1..] + b;
      ReplaceCharAppend(a[1..], b, target, replacement);
    } else {
      assert a + b == b;
    }
  }

  /** Replacing in a one-character string. */
  lemma ReplaceCharSingle(c: char, target: char, replacement: string)
    ensures ReplaceChar([c], target, replacement) == if c == target then replacement else [c]
  {
    assert [c][1..] == [];
  }

  /** Replacing a character that does not occur changes nothing. */
  lemma {:induction false} ReplaceCharAbsent(s: string, target: char, replacement: string)
    requires target !in s
    ensures ReplaceChar(s, target, replacement) == s
    decreases |s|
  {
    if s != [] {
      ReplaceCharAbsent(s[1..], target, replacement);
      assert s == [s[0]] + s[1..];
    }
  }
}
