/**
 * The JavaScript string built-ins the portfolio code relies on:
 * `trim` and the regular-expression class `\s`, `split` and `join`,
 * `toLowerCase` (ASCII letters), `includes`, and the decimal rendering of
 * a non-negative integer in a template string.
 */
module Text {

  import opened Wrappers

  /** JavaScript truthiness of a string that may be missing: present and non-empty. */
  predicate Truthy(o: Option<string>) {
    o.Some? && o.value != ""
  }

  /** The characters of ECMAScript's WhiteSpace and LineTerminator
      productions: what `\s` matches and what `String.prototype.trim` removes. */
  predicate IsSpace(c: char) {
    || c == ' ' || c == '\t' || c == '\n' || c == '\r'
    || c == '\U{000B}' || c == '\U{000C}' || c == '\U{00A0}' || c == '\U{1680}'
    || ('\U{2000}' <= c <= '\U{200A}')
    || c == '\U{2028}' || c == '\U{2029}' || c == '\U{202F}' || c == '\U{205F}'
    || c == '\U{3000}' || c == '\U{FEFF}'
  }

  predicate NoSpace(s: string) {
    forall i :: 0 <= i < |s| ==> !IsSpace(s[i])
  }

  /** Neither empty nor starting or ending with white space. */
  predicate IsTrimmedWord(s: string) {
    s != [] && !IsSpace(s[0]) && !IsSpace(s[|s| - 1])
  }

  // ---------------------------------------------------------------- trim

  /** Drops the leading white space, and only that. */
  function TrimStart(s: string): (r: string)
    ensures |r| <= |s| && r == s[|s| - |r|..]
    ensures forall k :: 0 <= k < |s| - |r| ==> IsSpace(s[k])
    ensures r == [] || !IsSpace(r[0])
  {
    if s != [] && IsSpace(s[0]) then
      var r := TrimStart(s[1..]);
      assert s[1..][|s| - 1 - |r|..] == s[|s| - |r|..];
      assert forall k :: 1 <= k < |s| - |r| ==> s[k] == s[1..][k - 1];
      r
    else
      s
  }

  /** Drops the trailing white space, and only that. */
  function TrimEnd(s: string): (r: string)
    ensures |r| <= |s| && r == s[..|r|]
    ensures forall k :: |r| <= k < |s| ==> IsSpace(s[k])
    ensures r == [] || !IsSpace(r[|r| - 1])
  {
    if s != [] && IsSpace(s[|s| - 1]) then
      var r := TrimEnd(s[..|s| - 1]);
      assert s[..|s| - 1][..|r|] == s[..|r|];
      r
    else
      s
  }

  /** Trimming the end of a suffix of `s` cuts out a slice of `s`, with
      only white space after it. */
  lemma TrimEndOfSuffix(s: string, t: string)
    requires |t| <= |s| && t == s[|s| - |t|..]
    ensures var i, r := |s| - |t|, TrimEnd(t);
      && i + |r| <= |s| && (forall k :: 0 <= k < |r| ==> r[k] == s[i + k])
      && (forall k :: i + |r| <= k < |s| ==> IsSpace(s[k]))
  {
    var i, r := |s| - |t|, TrimEnd(t);
    forall k | i + |r| <= k < |s| ensures IsSpace(s[k]) {
      assert s[k] == t[k - i];
    }
  }

  /** Trimming the end of a string that does not start with white space
      leaves a string that does not either. */
  lemma TrimEndKeepsStart(t: string)
    requires t == [] || !IsSpace(t[0])
    ensures var r := TrimEnd(t); r == [] || !IsSpace(r[0])
  {
    var r := TrimEnd(t);
    assert r != [] ==> r[0] == t[0];
  }

  /** `s.trim()`: the result is the part of `s` left after dropping white
      space at both ends; it neither starts nor ends with white space. */
  function Trim(s: string): (r: string)
    ensures r == [] || (!IsSpace(r[0]) && !IsSpace(r[|r| - 1]))
    ensures var i := |s| - |TrimStart(s)|;
      && i + |r| <= |s| && (forall k :: 0 <= k < |r| ==> r[k] == s[i + k])
      && (forall k :: 0 <= k < i ==> IsSpace(s[k]))
      && (forall k :: i + |r| <= k < |s| ==> IsSpace(s[k]))
  {
    TrimEndOfSuffix(s, TrimStart(s));
    TrimEndKeepsStart(TrimStart(s));
    TrimEnd(TrimStart(s))
  }

  /** Trimming leaves a string unchanged exactly when it has nothing to trim. */
  lemma TrimFixedPoint(s: string)
    ensures Trim(s) == s <==> (s == [] || (!IsSpace(s[0]) && !IsSpace(s[|s| - 1])))
  {
    if s != [] && !IsSpace(s[0]) && !IsSpace(s[|s| - 1]) {
      assert TrimStart(s) == s;
    }
  }

  /** Leading white space in front of a trimmed word is what `trim` removes. */
  lemma {:induction false} TrimLeadingSpace(s: string)
    requires IsTrimmedWord(s)
    ensures Trim(" " + s) == s
  {
    assert (" " + s)[1..] == s;
    assert TrimStart(" " + s) == TrimStart(s) == s;
    TrimFixedPoint(s);
  }

  // ---------------------------------------------------------------- split and join

  /** `s.split(sep)` for a one-character separator: the pieces between the
      separators, in order; `""` splits into `[""]`. */
  function Split(s: string, sep: char): (parts: seq<string>)
    ensures |parts| >= 1
    ensures forall i :: 0 <= i < |parts| ==> sep !in parts[i]
  {
    if s == [] then [""]
    else
      var rest := Split(s[1..], sep);
      if s[0] == sep then [""] + rest
      else [[s[0]] + rest[0]] + rest[1..]
  }

  /** `parts.join(sep)`. */
  function Join(parts: seq<string>, sep: string): string {
    if |parts| == 0 then ""
    else if |parts| == 1 then parts[0]
    else parts[0] + sep + Join(parts[1..], sep)
  }

  function Last<T>(s: seq<T>): T
    requires |s| > 0
  {
    s[|s| - 1]
  }

  /** Joining the pieces of a split with the same separator gives back the string. */
  lemma {:induction false} JoinSplit(s: string, sep: char)
    ensures Join(Split(s, sep), [sep]) == s
  {
    if s != [] {
      var rest := Split(s[1..], sep);
      JoinSplit(s[1..], sep);
      if s[0] == sep {
        assert Split(s, sep) == [""] + rest;
        assert Join([""] + rest, [sep]) == "" + [sep] + Join(rest, [sep]);
      } else {
        var parts := [[s[0]] + rest[0]] + rest[1..];
        assert Split(s, sep) == parts;
        if |rest| == 1 {
          assert Join(parts, [sep]) == [s[0]] + rest[0];
        } else {
          assert parts[1..] == rest[1..];
          assert Join(parts, [sep]) == [s[0]] + rest[0] + [sep] + Join(rest[1..], [sep]);
          assert Join(rest, [sep]) == rest[0] + [sep] + Join(rest[1..], [sep]);
        }
        assert s == [s[0]] + s[1..];
      }
    }
  }

  /** Splitting `a + sep + b` at the first separator. */
  lemma {:induction false} SplitAfterFirst(a: string, sep: char, b: string)
    requires sep !in a
    ensures Split(a + [sep] + b, sep) == [a] + Split(b, sep)
  {
    if a == [] {
      assert a + [sep] + b == [sep] + b;
      assert ([sep] + b)[1..] == b;
    } else {
      var s := a + [sep] + b;
      assert s[0] == a[0] && s[1..] == a[1..] + [sep] + b;
      SplitAfterFirst(a[1..], sep, b);
      assert a == [a[0]] + a[1..];
    }
  }

  /** Splitting `a + sep + b` gives the pieces of `a` followed by those of `b`. */
  lemma {:induction false} SplitConcat(a: string, sep: char, b: string)
    ensures Split(a + [sep] + b, sep) == Split(a, sep) + Split(b, sep)
  {
    var s := a + [sep] + b;
    if a == [] {
      assert s == [sep] + b && s[1..] == b;
    } else {
      assert s[0] == a[0] && s[1..] == a[1..] + [sep] + b;
      SplitConcat(a[1..], sep, b);
    }
  }

  /** A string without the separator splits into itself. */
  lemma {:induction false} SplitWithoutSeparator(a: string, sep: char)
    requires sep !in a
    ensures Split(a, sep) == [a]
  {
    if a != [] {
      SplitWithoutSeparator(a[1..], sep);
      assert a == [a[0]] + a[1..];
    }
  }

  /** Splitting a join gives back the pieces, when no piece holds the separator. */
  lemma {:induction false} SplitJoin(parts: seq<string>, sep: char)
    requires |parts| >= 1
    requires forall i :: 0 <= i < |parts| ==> sep !in parts[i]
    ensures Split(Join(parts, [sep]), sep) == parts
  {
    if |parts| == 1 {
      SplitWithoutSeparator(parts[0], sep);
    } else {
      SplitJoin(parts[1..], sep);
      SplitAfterFirst(parts[0], sep, Join(parts[1..], [sep]));
      assert parts == [parts[0]] + parts[1..];
    }
  }

  /** The last piece of a split is the text after the last separator, or the
      whole string when it has none. */
  lemma SplitLast(s: string, sep: char)
    ensures |Split(s, sep)| == 1 <==> sep !in s
    ensures var l := Last(Split(s, sep));
      && |l| <= |s| && l == s[|s| - |l|..]
      && (|l| == |s| <==> sep !in s)
      && (|l| < |s| ==> s[|s| - |l| - 1] == sep)
  {
    LastPieceIsSuffix(s, sep);
    var parts := Split(s, sep);
    var l := Last(parts);
    assert sep !in l by { assert l == parts[|parts| - 1]; }
    if sep !in s {
      SplitWithoutSeparator(s, sep);
    } else {
      JoinSplit(s, sep);
    }
  }

  /** The last piece of a split is a suffix, preceded by a separator when it
      is not the whole string. */
  lemma {:induction false} LastPieceIsSuffix(s: string, sep: char)
    ensures var l := Last(Split(s, sep));
      && |l| <= |s| && l == s[|s| - |l|..]
      && (|l| < |s| ==> s[|s| - |l| - 1] == sep)
      && (|Split(s, sep)| > 1 <==> |l| < |s|)
  {
    if s != [] {
      var t := s[1..];
      LastPieceIsSuffix(t, sep);
      var rest := Split(t, sep);
      var l := Last(Split(s, sep));
      if s[0] == sep || |rest| > 1 {
        assert l == Last(rest);
        assert t[|t| - |l|..] == s[|s| - |l|..];
        if |l| < |t| {
          assert s[|s| - |l| - 1] == t[|t| - |l| - 1];
        }
      } else {
        assert |rest[0]| == |t| && rest[0] == t;
        assert l == [s[0]] + t;
        assert s == [s[0]] + t;
      }
    }
  }

  // ---------------------------------------------------------------- case, search, numbers

  /** `toLowerCase` on one character: an ASCII capital becomes its small
      letter, every other character is kept. */
  function LowerChar(c: char): (r: char)
    ensures 'A' <= c <= 'Z' ==> 'a' <= r <= 'z' && r as int == c as int + 32
    ensures !('A' <= c <= 'Z') ==> r == c
    ensures !('A' <= r <= 'Z')
  {
    if 'A' <= c <= 'Z' then (c as int + 32) as char else c
  }

  /** `s.toLowerCase()` on ASCII letters; other characters are kept. */
  function Lower(s: string): (r: string)
    ensures |r| == |s|
    ensures forall i :: 0 <= i < |s| ==> r[i] == LowerChar(s[i])
    ensures forall i :: 0 <= i < |r| ==> !('A' <= r[i] <= 'Z')
    ensures (forall i :: 0 <= i < |s| ==> !('A' <= s[i] <= 'Z')) ==> r == s
  {
    seq(|s|, i requires 0 <= i < |s| => LowerChar(s[i]))
  }

  /** Concatenation is associative; stated once so that filter proofs can
      regroup their pieces in one step. */
  lemma AppendAssoc<T>(a: seq<T>, b: seq<T>, c: seq<T>)
    ensures a + (b + c) == (a + b) + c
  {
  }

  /** `s.includes(t)`. */
  predicate Contains(s: string, t: string)
    decreases |s|
  {
    if |s| < |t| then false
    else s[..|t|] == t || (s != [] && Contains(s[1..], t))
  }

  /** `includes` finds `t` exactly when `t` occurs in `s` at some position. */
  lemma {:induction false} ContainsIsOccurrence(s: string, t: string)
    ensures Contains(s, t) <==> exists i :: 0 <= i <= |s| - |t| && s[i..][..|t|] == t
    decreases |s|
  {
    if |s| >= |t| && s != [] {
      ContainsIsOccurrence(s[1..], t);
      if s[..|t|] == t {
        assert s[0..][..|t|] == t;
      }
      if Contains(s[1..], t) {
        var i :| 0 <= i <= |s| - 1 - |t| && s[1..][i..][..|t|] == t;
        assert s[i + 1..] == s[1..][i..];
      }
      if exists i :: 0 <= i <= |s| - |t| && s[i..][..|t|] == t {
        var i :| 0 <= i <= |s| - |t| && s[i..][..|t|] == t;
        if i > 0 {
          assert s[1..][i - 1..] == s[i..];
        } else {
          assert s[..|t|] == t;
        }
      }
    } else if s == [] && |t| == 0 {
      assert s[0..][..0] == t;
    }
  }

  function DigitChar(d: nat): (c: char)
    requires d < 10
    ensures '0' <= c <= '9'
  {
    ('0' as int + d) as char
  }

  /** The decimal digits of a number, as a template string writes it. */
  function DecimalString(n: nat): (r: string)
    ensures r != []
    ensures forall i :: 0 <= i < |r| ==> '0' <= r[i] <= '9'
    ensures r[0] == '0' ==> n == 0
    ensures r[0] == '0' ==> r == "0"
  {
    if n < 10 then [DigitChar(n)] else DecimalString(n / 10) + [DigitChar(n % 10)]
  }

  /** Reads a string of decimal digits back as a number. */
  function DecimalValue(s: string): nat
    requires forall i :: 0 <= i < |s| ==> '0' <= s[i] <= '9'
  {
    if s == [] then 0
    else DecimalValue(s[..|s| - 1]) * 10 + (s[|s| - 1] as int - '0' as int)
  }

  /** The decimal rendering is read back as the same number. */
  lemma {:induction false} DecimalRoundTrip(n: nat)
    ensures DecimalValue(DecimalString(n)) == n
  {
    if n >= 10 {
      DecimalRoundTrip(n / 10);
      var r := DecimalString(n);
      assert r[..|r| - 1] == DecimalString(n / 10);
    }
  }
}
