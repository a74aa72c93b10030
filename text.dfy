/**
  The .NET string operations the corpus parser and the Oracle query cleaning
  rely on, over `string` = `seq<char>` with ordinal (code-point) comparison.
 */
module Text {

  /** The ASCII characters `char.IsWhiteSpace` accepts. */
  predicate IsWhiteSpace(c: char) {
    c == ' ' || c == '\t' || c == '\n' || c == '\r' || c == '\U{B}' || c == '\U{C}'
  }

  /** `string.IsNullOrWhiteSpace`: the empty string or whitespace only. */
  predicate IsNullOrWhiteSpace(s: string) {
    forall k | 0 <= k < |s| :: IsWhiteSpace(s[k])
  }

  /** Ordinal `string.StartsWith`. */
  predicate StartsWith(s: string, prefix: string) {
    |prefix| <= |s| && s[..|prefix|] == prefix
  }

  /** Leading whitespace removed. */
  function TrimStart(s: string): (r: string)
    ensures |r| <= |s| && r == s[|s| - |r|..]
    ensures forall k | 0 <= k < |s| - |r| :: IsWhiteSpace(s[k])
    ensures r == [] || !IsWhiteSpace(r[0])
  {
    if s != [] && IsWhiteSpace(s[0]) then TrimStart(s[1..]) else s
  }

  /** Trailing whitespace removed. */
  function TrimEnd(s: string): (r: string)
    ensures |r| <= |s| && r == s[..|r|]
    ensures forall k | |r| <= k < |s| :: IsWhiteSpace(s[k])
    ensures r == [] || !IsWhiteSpace(r[|r| - 1])
  {
    if s != [] && IsWhiteSpace(s[|s| - 1]) then TrimEnd(s[..|s| - 1]) else s
  }

  /**
    `string.Trim`: the longest slice of `s` that neither starts nor ends with
    whitespace; what is cut off on either side is whitespace.
   */
  function Trim(s: string): (r: string)
    ensures |r| <= |s|
    ensures exists i :: TrimmedAt(s, r, i)
    ensures r == [] || (!IsWhiteSpace(r[0]) && !IsWhiteSpace(r[|r| - 1]))
  {
    var t := TrimStart(s);
    var r := TrimEnd(t);
    assert r == s[|s| - |t|..|s| - |t| + |r|];
    assert TrimmedAt(s, r, |s| - |t|);
    r
  }

  /** `r` is the slice of `s` at `i`, and everything outside it is whitespace. */
  predicate TrimmedAt(s: string, r: string, i: int) {
    && 0 <= i <= |s| - |r|
    && r == s[i..i + |r|]
    && (forall k | 0 <= k < i :: IsWhiteSpace(s[k]))
    && (forall k | i + |r| <= k < |s| :: IsWhiteSpace(s[k]))
  }

  /** Trimming is the identity on a string with no whitespace at either end. */
  lemma TrimUntrimmed(s: string)
    requires s == [] || (!IsWhiteSpace(s[0]) && !IsWhiteSpace(s[|s| - 1]))
    ensures Trim(s) == s
  {
  }

  function LowerChar(c: char): char {
    if 'A' <= c <= 'Z' then (c as int + 32) as char else c
  }

  /** ASCII `ToLower`: upper-case letters become lower-case, nothing else changes. */
  function ToLower(s: string): (r: string)
    ensures |r| == |s|
    ensures forall k | 0 <= k < |s| :: !('A' <= r[k] <= 'Z')
    ensures forall k | 0 <= k < |s| :: !('A' <= s[k] <= 'Z') ==> r[k] == s[k]
    ensures forall k | 0 <= k < |s| :: 'A' <= s[k] <= 'Z' ==> r[k] as int == s[k] as int + 32
  {
    if s == [] then [] else [LowerChar(s[0])] + ToLower(s[1..])
  }

  /** Lower-casing twice is lower-casing once. */
  lemma ToLowerIdempotent(s: string)
    ensures ToLower(ToLower(s)) == ToLower(s)
  {
    var t := ToLower(s);
    assert ToLower(t) == t;
  }

  /**
    The parts of `s` between occurrences of `sep`, as `String.Split(char)`
    returns them: one more part than there are separators, none of them
    holding a separator, and joining them back with `sep` gives `s`.
   */
  function Split(s: string, sep: char): (r: seq<string>)
    ensures |r| >= 1
    ensures forall k | 0 <= k < |r| :: sep !in r[k]
    ensures Join(r, sep) == s
    ensures sep in s <==> |r| >= 2
  {
    if s == [] then [""]
    else
      var rest := Split(s[1..], sep);
      if s[0] == sep then
        assert s == [sep] + s[1..];
        [""] + rest
      else
        var r := [[s[0]] + rest[0]] + rest[1..];
        assert r[1..] == rest[1..];
        assert Join(r, sep) == s by {
          if |rest| == 1 {
          } else {
            assert Join(rest, sep) == rest[0] + [sep] + Join(rest[1..], sep);
          }
        }
        r
  }

  /** `String.Join` of at least one part. */
  function Join(parts: seq<string>, sep: char): string
    requires |parts| >= 1
  {
    if |parts| == 1 then parts[0] else parts[0] + [sep] + Join(parts[1..], sep)
  }

  /**
    `s.Split(sep)[1]` is the text strictly between the first separator and
    the next one (or the end of `s`).
   */
  lemma {:induction false} SecondField(s: string, sep: char)
    requires sep in s
    ensures var f := Split(s, sep);
      var i := |f[0]|;
      var j := i + 1 + |f[1]|;
      j <= |s| && s[..i] == f[0] && sep !in s[..i] && s[i] == sep
      && s[i + 1..j] == f[1] && (j == |s| || s[j] == sep)
  {
    var f := Split(s, sep);
    assert s == f[0] + [sep] + Join(f[1..], sep);
    var g := f[1..];
    if |g| == 1 {
      assert Join(g, sep) == f[1];
    } else {
      assert Join(g, sep) == f[1] + [sep] + Join(g[1..], sep);
    }
  }

  /** Ordinal `String.Replace`: left-to-right, non-overlapping occurrences of `pattern`. */
  function Replace(s: string, pattern: string, replacement: string): string
    requires pattern != []
    decreases |s|
  {
    if |s| < |pattern| then s
    else if s[..|pattern|] == pattern then replacement + Replace(s[|pattern|..], pattern, replacement)
    else [s[0]] + Replace(s[1..], pattern, replacement)
  }

  /** `pattern` occurs somewhere in `s`. */
  ghost predicate Occurs(s: string, pattern: string) {
    exists i :: OccursAt(s, pattern, i)
  }

  /** `pattern` occurs in `s` starting at index `i`. */
  predicate OccursAt(s: string, pattern: string, i: int) {
    0 <= i <= |s| - |pattern| && s[i..i + |pattern|] == pattern
  }

  /** A one-character pattern occurs only where the character is. */
  lemma OccurrenceHoldsChar(s: string, c: char, i: int)
    requires OccursAt(s, [c], i)
    ensures s[i] == c
  {
    assert s[i..i + 1][0] == s[i];
  }

  /** A replacement no longer than the pattern never lengthens the string. */
  lemma {:induction false} ReplaceNoLonger(s: string, pattern: string, replacement: string)
    requires pattern != [] && |replacement| <= |pattern|
    ensures |Replace(s, pattern, replacement)| <= |s|
    decreases |s|
  {
    if |s| < |pattern| {
    } else if s[..|pattern|] == pattern {
      ReplaceNoLonger(s[|pattern|..], pattern, replacement);
    } else {
      ReplaceNoLonger(s[1..], pattern, replacement);
    }
  }

  /** A replacement of equal length keeps the length. */
  lemma {:induction false} ReplaceSameLength(s: string, pattern: string, replacement: string)
    requires pattern != [] && |replacement| == |pattern|
    ensures |Replace(s, pattern, replacement)| == |s|
    decreases |s|
  {
    if |s| < |pattern| {
    } else if s[..|pattern|] == pattern {
      ReplaceSameLength(s[|pattern|..], pattern, replacement);
    } else {
      ReplaceSameLength(s[1..], pattern, replacement);
    }
  }

  /** Every character of the result comes from `s` or from the replacement. */
  lemma {:induction false} ReplaceChars(s: string, pattern: string, replacement: string, c: char)
    requires pattern != []
    requires c in Replace(s, pattern, replacement)
    ensures c in s || c in replacement
    decreases |s|
  {
    if |s| < |pattern| {
    } else if s[..|pattern|] == pattern {
      if c !in replacement {
        ReplaceChars(s[|pattern|..], pattern, replacement, c);
      }
    } else if c != s[0] {
      ReplaceChars(s[1..], pattern, replacement, c);
    }
  }

  /** Replacing a single character removes every occurrence of it. */
  lemma {:induction false} ReplaceRemovesChar(s: string, c: char, replacement: string)
    requires c !in replacement
    ensures c !in Replace(s, [c], replacement)
    decreases |s|
  {
    if |s| < 1 {
    } else if s[..1] == [c] {
      ReplaceRemovesChar(s[1..], c, replacement);
    } else {
      ReplaceRemovesChar(s[1..], c, replacement);
    }
  }

  /** Where the pattern does not occur, Replace changes nothing. */
  lemma {:induction false} ReplaceAbsent(s: string, pattern: string, replacement: string)
    requires pattern != [] && !Occurs(s, pattern)
    ensures Replace(s, pattern, replacement) == s
    decreases |s|
  {
    if |s| < |pattern| {
    } else {
      assert !OccursAt(s, pattern, 0);
      assert s[0..|pattern|] == s[..|pattern|];
      assert !Occurs(s[1..], pattern) by {
        forall i | OccursAt(s[1..], pattern, i)
          ensures false
        {
          assert s[1..][i..i + |pattern|] == s[i + 1..i + 1 + |pattern|];
          assert OccursAt(s, pattern, i + 1);
        }
      }
      ReplaceAbsent(s[1..], pattern, replacement);
    }
  }
}
