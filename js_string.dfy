/**
 * The JavaScript string operations the forms rely on: `length` (in UTF-16
 * code units), `trim`, `split` on a one-character separator and `join`.
 * A string is a sequence of Unicode scalar values.
 */
module JsString {

  /** `s.length`: characters outside the Basic Multilingual Plane count twice. */
  function Utf16Length(s: string): (n: nat)
    ensures |s| <= n <= 2 * |s|
    ensures (forall i :: 0 <= i < |s| ==> s[i] as int <= 0xFFFF) ==> n == |s|
  {
    if s == [] then 0
    else (if s[0] as int > 0xFFFF then 2 else 1) + Utf16Length(s[1..])
  }

  /**
   * The characters `trim` removes: ECMAScript's WhiteSpace (tab, vertical tab,
   * form feed, space, no-break space, the byte order mark and the space
   * separators) and LineTerminator (line feed, carriage return, line and
   * paragraph separators).
   */
  predicate IsWhitespace(c: char)
  {
    var n := c as int;
    || n == 0x09 || n == 0x0A || n == 0x0B || n == 0x0C || n == 0x0D || n == 0x20
    || n == 0xA0 || n == 0x1680 || (0x2000 <= n <= 0x200A)
    || n == 0x2028 || n == 0x2029 || n == 0x202F || n == 0x205F || n == 0x3000
    || n == 0xFEFF
  }

  /** The number of whitespace characters at the start of `s`. */
  function LeadingWhitespace(s: string): (n: nat)
    ensures n <= |s|
    ensures forall i :: 0 <= i < n ==> IsWhitespace(s[i])
    ensures n < |s| ==> !IsWhitespace(s[n])
  {
    if s != [] && IsWhitespace(s[0]) then 1 + LeadingWhitespace(s[1..]) else 0
  }

  /** The number of whitespace characters at the end of `s`. */
  function TrailingWhitespace(s: string): (n: nat)
    ensures n <= |s|
    ensures forall i :: |s| - n <= i < |s| ==> IsWhitespace(s[i])
    ensures n < |s| ==> !IsWhitespace(s[|s| - 1 - n])
  {
    if s != [] && IsWhitespace(s[|s| - 1]) then 1 + TrailingWhitespace(s[..|s| - 1]) else 0
  }

  /**
   * `s.trim()`: `s` without its leading and trailing whitespace. The result
   * is a slice of `s` that neither starts nor ends with whitespace, and it is
   * empty exactly when `s` is all whitespace.
   */
  function Trim(s: string): (r: string)
    ensures r != [] ==> !IsWhitespace(r[0]) && !IsWhitespace(r[|r| - 1])
    ensures r == [] <==> forall i :: 0 <= i < |s| ==> IsWhitespace(s[i])
    ensures var lo := LeadingWhitespace(s);
            && lo + |r| <= |s|
            && r == s[lo..lo + |r|]
            && (forall i :: lo + |r| <= i < |s| ==> IsWhitespace(s[i]))
  {
    var lo := LeadingWhitespace(s);
    var t := s[lo..];
    var r := t[..|t| - TrailingWhitespace(t)];
    assert r == s[lo..lo + |r|];
    r
  }

  /** Trimming a string that is already trimmed changes nothing. */
  lemma TrimIdempotent(s: string)
    ensures Trim(Trim(s)) == Trim(s)
  {
    var r := Trim(s);
    if r != [] {
      assert LeadingWhitespace(r) == 0;
      assert TrailingWhitespace(r) == 0;
    }
  }

  /** A non-empty string that is its own trim neither starts nor ends with whitespace. */
  lemma TrimmedEnds(s: string)
    requires Trim(s) == s && s != ""
    ensures !IsWhitespace(s[0]) && !IsWhitespace(s[|s| - 1])
  {
  }

  /** Every character of a trimmed string comes from the original. */
  lemma TrimKeepsCharacters(s: string, c: char)
    requires c in Trim(s)
    ensures c in s
  {
    var r := Trim(s);
    var lo := LeadingWhitespace(s);
    var k :| 0 <= k < |r| && r[k] == c;
    assert s[lo + k] == c;
  }

  /** `parts.join(sep)`. */
  function Join(parts: seq<string>, sep: char): string
  {
    if |parts| == 0 then ""
    else if |parts| == 1 then parts[0]
    else parts[0] + [sep] + Join(parts[1..], sep)
  }

  /** The number of occurrences of `c` in `s`. */
  function Count(s: string, c: char): nat
  {
    if s == [] then 0 else (if s[0] == c then 1 else 0) + Count(s[1..], c)
  }

  /** A character that does not occur is counted zero times. */
  lemma {:induction false} CountAbsent(s: string, c: char)
    requires c !in s
    ensures Count(s, c) == 0
  {
    if s != [] {
      assert c !in s[1..] by {
        assert forall x :: x in s[1..] ==> x in s;
      }
      CountAbsent(s[1..], c);
    }
  }

  /**
   * `s.split(sep)`: the pieces between occurrences of `sep`, one more than
   * there are separators (so the empty string splits to one empty piece);
   * joining them again gives back `s`.
   */
  function Split(s: string, sep: char): (r: seq<string>)
    ensures |r| == Count(s, sep) + 1
    ensures forall i :: 0 <= i < |r| ==> sep !in r[i]
    ensures Join(r, sep) == s
  {
    if s == [] then [""]
    else
      var rest := Split(s[1..], sep);
      if s[0] == sep then
        assert [sep] + Join(rest, sep) == s;
        [""] + rest
      else
        var r := [[s[0]] + rest[0]] + rest[1..];
        assert r[1..] == rest[1..];
        assert Join(r, sep) == s by {
          if |rest| > 1 {
            assert rest == [rest[0]] + rest[1..];
          }
        }
        r
  }

  /** Splitting a join of separator-free pieces gives back the pieces. */
  lemma {:induction false} SplitJoin(parts: seq<string>, sep: char)
    requires |parts| >= 1
    requires forall i :: 0 <= i < |parts| ==> sep !in parts[i]
    ensures Split(Join(parts, sep), sep) == parts
    decreases |Join(parts, sep)|
  {
    var s := Join(parts, sep);
    if |parts[0]| > 0 {
      var c := parts[0][0];
      var shorter := parts[0 := parts[0][1..]];
      assert Join(shorter, sep) == s[1..] by {
        if |parts| > 1 {
          assert s == parts[0] + ([sep] + Join(parts[1..], sep));
        }
      }
      assert sep !in shorter[0] by {
        assert forall x :: x in shorter[0] ==> x in parts[0];
      }
      SplitJoin(shorter, sep);
      assert c != sep;
      assert [c] + shorter[0] == parts[0];
      assert parts == [parts[0]] + shorter[1..];
    } else if |parts| > 1 {
      assert s == [sep] + Join(parts[1..], sep);
      SplitJoin(parts[1..], sep);
      assert parts == [""] + parts[1..];
    }
  }
}
