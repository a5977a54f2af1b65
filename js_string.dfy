/**
 * The JavaScript string built-ins the server code relies on, stated over
 * strings of Unicode scalar values: `indexOf`/`includes`, `startsWith`,
 * `endsWith`, `trim`, `split` on one character, `substring` (with its
 * clamping and argument swap), `toLowerCase`, `String.prototype.replace`
 * with a string pattern (first occurrence only, `$` patterns expanded),
 * and `length` counted in UTF-16 code units.
 */
module JsString {
  import opened Common

  // ---------------------------------------------------------------------------
  // Searching

  /** `pat` occurs in `s` starting at index `i`. */
  predicate MatchAt(s: string, pat: string, i: nat)
  {
    i + |pat| <= |s| && s[i..i + |pat|] == pat
  }

  /** The first index at or after `from` where `pat` occurs. */
  function IndexFrom(s: string, pat: string, from: nat): Option<nat>
    requires from <= |s| + 1
    decreases |s| + 1 - from
  {
    if from + |pat| > |s| then None
    else if s[from..from + |pat|] == pat then Some(from)
    else IndexFrom(s, pat, from + 1)
  }

  /** `s.indexOf(pat)`, with `None` for -1. */
  function IndexOf(s: string, pat: string): Option<nat>
  {
    IndexFrom(s, pat, 0)
  }

  /** The search from `from` finds the least occurrence at or after `from`, or reports that there is none. */
  lemma {:induction false} IndexFromSpec(s: string, pat: string, from: nat)
    requires from <= |s| + 1
    ensures var r := IndexFrom(s, pat, from);
      && (r.Some? ==> from <= r.value && MatchAt(s, pat, r.value))
      && (r.Some? ==> forall j :: from <= j < r.value ==> !MatchAt(s, pat, j))
      && (r.None? ==> forall j :: from <= j <= |s| ==> !MatchAt(s, pat, j))
    decreases |s| + 1 - from
  {
    if from + |pat| <= |s| && s[from..from + |pat|] != pat {
      IndexFromSpec(s, pat, from + 1);
    }
  }

  /** `indexOf` finds the least index where `pat` occurs; it finds none exactly when `pat` occurs nowhere. */
  lemma IndexOfSpec(s: string, pat: string)
    ensures IndexOf(s, pat).Some? ==> MatchAt(s, pat, IndexOf(s, pat).value)
    ensures IndexOf(s, pat).Some? ==> forall j :: 0 <= j < IndexOf(s, pat).value ==> !MatchAt(s, pat, j)
    ensures IndexOf(s, pat).None? <==> forall j :: 0 <= j <= |s| ==> !MatchAt(s, pat, j)
  {
    IndexFromSpec(s, pat, 0);
  }

  /** An occurrence with none before it is the one `indexOf` reports. */
  lemma IndexOfAt(s: string, pat: string, i: nat)
    requires MatchAt(s, pat, i)
    requires forall j :: 0 <= j < i ==> !MatchAt(s, pat, j)
    ensures IndexOf(s, pat) == Some(i)
  {
    IndexOfSpec(s, pat);
  }

  /** `s.includes(pat)`. */
  predicate Includes(s: string, pat: string)
  {
    IndexOf(s, pat).Some?
  }

  /** `s.includes(pat)` holds exactly when `pat` occurs somewhere in `s`. */
  lemma IncludesIff(s: string, pat: string)
    ensures Includes(s, pat) <==> exists j :: 0 <= j <= |s| && MatchAt(s, pat, j)
  {
    IndexOfSpec(s, pat);
    if Includes(s, pat) {
      assert MatchAt(s, pat, IndexOf(s, pat).value);
    }
  }

  /** A witness of an occurrence makes `includes` true. */
  lemma IncludesAt(s: string, pat: string, j: nat)
    requires MatchAt(s, pat, j)
    ensures Includes(s, pat)
  {
    IndexOfSpec(s, pat);
  }

  /** A pattern whose first character does not occur in `s` is not included in `s`. */
  lemma ExcludedByFirstChar(s: string, pat: string)
    requires |pat| > 0 && pat[0] !in s
    ensures !Includes(s, pat)
  {
    IncludesIff(s, pat);
  }

  predicate StartsWith(s: string, p: string)
  {
    |p| <= |s| && s[..|p|] == p
  }

  predicate EndsWith(s: string, p: string)
  {
    |p| <= |s| && s[|s| - |p|..] == p
  }

  // ---------------------------------------------------------------------------
  // Substrings

  function Clamp(x: int, n: nat): (r: nat)
    ensures r <= n
  {
    if x < 0 then 0 else if x > n then n else x
  }

  /**
   * `s.substring(start, end)`: both arguments are clamped to `[0, |s|]` and
   * swapped when the start is past the end.
   */
  function Substring(s: string, start: int, end: int): (r: string)
    ensures |r| <= |s|
    ensures 0 <= start <= end <= |s| ==> r == s[start..end]
    ensures 0 <= end <= start <= |s| ==> r == s[end..start]
  {
    var a := Clamp(start, |s|);
    var b := Clamp(end, |s|);
    if a <= b then s[a..b] else s[b..a]
  }

  /** A negative bound counts as 0 and a bound past the end as the length, in either argument. */
  lemma SubstringClamped(s: string, start: int, end: int)
    ensures start <= 0 && 0 <= end <= |s| ==> Substring(s, start, end) == s[..end]
    ensures end <= 0 && 0 <= start <= |s| ==> Substring(s, start, end) == s[..start]
    ensures 0 <= start <= |s| <= end ==> Substring(s, start, end) == s[start..]
    ensures 0 <= end <= |s| <= start ==> Substring(s, start, end) == s[end..]
    ensures (start <= 0 && end <= 0) || (start >= |s| && end >= |s|) ==> Substring(s, start, end) == ""
    ensures (start <= 0 && end >= |s|) || (end <= 0 && start >= |s|) ==> Substring(s, start, end) == s
  {
  }

  // ---------------------------------------------------------------------------
  // Whitespace and trim

  /** The characters ECMAScript's `trim` removes: WhiteSpace and LineTerminator. */
  predicate IsJsWhitespace(c: char)
  {
    || c == '\t' || c == '\n' || c == '\U{000B}' || c == '\U{000C}' || c == '\r' || c == ' '
    || c == '\U{00A0}' || c == '\U{1680}' || ('\U{2000}' <= c <= '\U{200A}')
    || c == '\U{2028}' || c == '\U{2029}' || c == '\U{202F}' || c == '\U{205F}'
    || c == '\U{3000}' || c == '\U{FEFF}'
  }

  /** `s.trimStart()`: leading white space removed. */
  function TrimStart(s: string): string
  {
    if s != "" && IsJsWhitespace(s[0]) then TrimStart(s[1..]) else s
  }

  /** `s.trimEnd()`: trailing white space removed. */
  function TrimEnd(s: string): string
  {
    if s != "" && IsJsWhitespace(s[|s| - 1]) then TrimEnd(s[..|s| - 1]) else s
  }

  /** `trimStart` keeps a suffix of the string that does not start with white space. */
  lemma {:induction false} TrimStartSuffix(s: string)
    ensures |TrimStart(s)| <= |s| && TrimStart(s) == s[|s| - |TrimStart(s)|..]
    ensures TrimStart(s) != "" ==> !IsJsWhitespace(TrimStart(s)[0])
    decreases |s|
  {
    if s != "" && IsJsWhitespace(s[0]) {
      TrimStartSuffix(s[1..]);
      assert s[1..][|s[1..]| - |TrimStart(s[1..])|..] == s[|s| - |TrimStart(s)|..];
    }
  }

  /** `trimEnd` keeps a prefix of the string that does not end with white space. */
  lemma {:induction false} TrimEndPrefix(s: string)
    ensures |TrimEnd(s)| <= |s| && TrimEnd(s) == s[..|TrimEnd(s)|]
    ensures TrimEnd(s) != "" ==> !IsJsWhitespace(TrimEnd(s)[|TrimEnd(s)| - 1])
    decreases |s|
  {
    if s != "" && IsJsWhitespace(s[|s| - 1]) {
      TrimEndPrefix(s[..|s| - 1]);
      assert s[..|s| - 1][..|TrimEnd(s)|] == s[..|TrimEnd(s)|];
    }
  }

  /** `s.trim()`. */
  function Trim(s: string): string
  {
    TrimEnd(TrimStart(s))
  }

  /** Every character of `s` is whitespace. */
  predicate AllWhitespace(s: string)
  {
    forall i :: 0 <= i < |s| ==> IsJsWhitespace(s[i])
  }

  lemma {:induction false} TrimStartEmptyIff(s: string)
    ensures TrimStart(s) == "" <==> AllWhitespace(s)
    decreases |s|
  {
    if s != "" && IsJsWhitespace(s[0]) {
      TrimStartEmptyIff(s[1..]);
      assert AllWhitespace(s[1..]) ==> AllWhitespace(s) by {
        if AllWhitespace(s[1..]) {
          forall i | 0 <= i < |s| ensures IsJsWhitespace(s[i]) {
            if i > 0 { assert s[i] == s[1..][i - 1]; }
          }
        }
      }
    } else if s != "" {
      assert !AllWhitespace(s);
    }
  }

  lemma {:induction false} TrimEndEmptyIff(s: string)
    ensures TrimEnd(s) == "" <==> AllWhitespace(s)
    decreases |s|
  {
    if s != "" && IsJsWhitespace(s[|s| - 1]) {
      var init := s[..|s| - 1];
      TrimEndEmptyIff(init);
      assert AllWhitespace(init) ==> AllWhitespace(s) by {
        if AllWhitespace(init) {
          forall i | 0 <= i < |s| ensures IsJsWhitespace(s[i]) {
            if i < |s| - 1 { assert s[i] == init[i]; }
          }
        }
      }
    } else if s != "" {
      assert !AllWhitespace(s);
    }
  }

  /** `s.trim() === ''` holds exactly for blank and whitespace-only strings. */
  lemma TrimEmptyIff(s: string)
    ensures Trim(s) == "" <==> AllWhitespace(s)
  {
    TrimStartEmptyIff(s);
    TrimStartSuffix(s);
    TrimEndEmptyIff(TrimStart(s));
  }

  // ---------------------------------------------------------------------------
  // Splitting on one character

  /** `s.split(sep)` for a one-character separator. */
  function Split(s: string, sep: char): (r: seq<string>)
    ensures |r| >= 1
    decreases |s|
  {
    if s == "" then [""]
    else if s[0] == sep then [""] + Split(s[1..], sep)
    else
      var rest := Split(s[1..], sep);
      [[s[0]] + rest[0]] + rest[1..]
  }

  /** Number of occurrences of `c` in `s`. */
  function Count(s: string, c: char): nat
  {
    if s == "" then 0 else (if s[0] == c then 1 else 0) + Count(s[1..], c)
  }

  /** The pieces joined back with the separator between them. */
  function Join(parts: seq<string>, sep: char): string
    requires |parts| >= 1
    decreases |parts|
  {
    if |parts| == 1 then parts[0] else parts[0] + [sep] + Join(parts[1..], sep)
  }

  /** Joining splits at any inner piece boundary. */
  lemma {:induction false} JoinSplitAt(parts: seq<string>, sep: char, b: nat)
    requires 1 <= b < |parts|
    ensures Join(parts, sep) == Join(parts[..b], sep) + [sep] + Join(parts[b..], sep)
    decreases b
  {
    if b > 1 {
      JoinSplitAt(parts[1..], sep, b - 1);
      assert parts[1..][..b - 1] == parts[..b][1..];
      assert parts[1..][b - 1..] == parts[b..];
      calc {
        Join(parts, sep);
        parts[0] + [sep] + Join(parts[1..], sep);
        parts[0] + [sep] + (Join(parts[..b][1..], sep) + [sep] + Join(parts[b..], sep));
        (parts[..b][0] + [sep] + Join(parts[..b][1..], sep)) + [sep] + Join(parts[b..], sep);
        Join(parts[..b], sep) + [sep] + Join(parts[b..], sep);
      }
    } else {
      assert parts[..1] == [parts[0]] && parts[1..] == parts[b..];
    }
  }

  /** Splitting yields one more piece than there are separators. */
  lemma {:induction false} SplitCount(s: string, sep: char)
    ensures |Split(s, sep)| == Count(s, sep) + 1
    decreases |s|
  {
    if s != "" { SplitCount(s[1..], sep); }
  }

  /** No piece contains the separator. */
  lemma {:induction false} SplitPiecesFree(s: string, sep: char)
    ensures forall k :: 0 <= k < |Split(s, sep)| ==> sep !in Split(s, sep)[k]
    decreases |s|
  {
    if s != "" {
      SplitPiecesFree(s[1..], sep);
      if s[0] != sep {
        var rest := Split(s[1..], sep);
        assert sep !in rest[0];
        assert Split(s, sep)[0] == [s[0]] + rest[0];
        assert forall k :: 1 <= k < |Split(s, sep)| ==> Split(s, sep)[k] == rest[k];
      }
    }
  }

  /** Joining the pieces with the separator gives back the string. */
  lemma {:induction false} SplitJoin(s: string, sep: char)
    ensures Join(Split(s, sep), sep) == s
    decreases |s|
  {
    if s != "" {
      SplitJoin(s[1..], sep);
      var rest := Split(s[1..], sep);
      if s[0] == sep {
        assert Split(s, sep)[1..] == rest;
      } else {
        var r := Split(s, sep);
        if |rest| == 1 {
          assert r == [[s[0]] + rest[0]];
        } else {
          assert r[1..] == rest[1..];
          assert Join(rest, sep) == rest[0] + [sep] + Join(rest[1..], sep);
        }
      }
    }
  }

  // ---------------------------------------------------------------------------
  // Case mapping

  /**
   * The lower-case form of one character, for the characters whose lower-case
   * form is ASCII: `A`-`Z` and U+212A KELVIN SIGN (which lower-cases to `k`).
   */
  function LowerChar(c: char): char
  {
    if 'A' <= c <= 'Z' then (c as int + 32) as char
    else if c == '\U{212A}' then 'k'
    else c
  }

  /** `s.toLowerCase()`, restricted as `LowerChar` is. */
  function ToLower(s: string): (r: string)
    ensures |r| == |s|
    ensures forall i :: 0 <= i < |s| ==> r[i] == LowerChar(s[i])
  {
    if s == "" then "" else [LowerChar(s[0])] + ToLower(s[1..])
  }

  /** A string that has no character `toLowerCase` changes is its own lower case. */
  lemma ToLowerUnchanged(s: string)
    requires forall i :: 0 <= i < |s| ==> LowerChar(s[i]) == s[i]
    ensures ToLower(s) == s
  {
    assert forall i :: 0 <= i < |s| ==> ToLower(s)[i] == s[i];
  }

  // ---------------------------------------------------------------------------
  // String.prototype.replace with a string pattern

  /**
   * ECMAScript GetSubstitution for a string pattern (no capture groups): `$$`
   * gives `$`, `$&` the matched text, `` $` `` the text before the match,
   * `$'` the text after it; every other `$` stands for itself.
   */
  function Substitution(rep: string, matched: string, before: string, after: string): string
    decreases |rep|
  {
    if rep == "" then ""
    else if rep[0] == '$' && |rep| >= 2 && rep[1] == '$' then "$" + Substitution(rep[2..], matched, before, after)
    else if rep[0] == '$' && |rep| >= 2 && rep[1] == '&' then matched + Substitution(rep[2..], matched, before, after)
    else if rep[0] == '$' && |rep| >= 2 && rep[1] == '`' then before + Substitution(rep[2..], matched, before, after)
    else if rep[0] == '$' && |rep| >= 2 && rep[1] == '\'' then after + Substitution(rep[2..], matched, before, after)
    else [rep[0]] + Substitution(rep[1..], matched, before, after)
  }

  /** A replacement without `$` is inserted literally. */
  lemma {:induction false} SubstitutionLiteral(rep: string, matched: string, before: string, after: string)
    requires '$' !in rep
    ensures Substitution(rep, matched, before, after) == rep
    decreases |rep|
  {
    if rep != "" {
      assert '$' !in rep[1..];
      SubstitutionLiteral(rep[1..], matched, before, after);
    }
  }

  /** `$&` in a replacement stands for the matched text. */
  lemma {:induction false} SubstitutionMatched(a: string, b: string, matched: string, before: string, after: string)
    requires '$' !in a && '$' !in b
    ensures Substitution(a + "$&" + b, matched, before, after) == a + matched + b
    decreases |a|
  {
    if a == "" {
      calc {
        Substitution(a + "$&" + b, matched, before, after);
      == { assert a + "$&" + b == "$&" + b; }
        Substitution("$&" + b, matched, before, after);
      == { SubstitutionAmpersand(b, matched, before, after); }
        matched + Substitution(b, matched, before, after);
      == { SubstitutionLiteral(b, matched, before, after); }
        a + matched + b;
      }
    } else {
      var tail := a[1..] + "$&" + b;
      calc {
        Substitution(a + "$&" + b, matched, before, after);
      == { assert a + "$&" + b == [a[0]] + tail; }
        Substitution([a[0]] + tail, matched, before, after);
      == { SubstitutionPlainHead(a[0], tail, matched, before, after); }
        [a[0]] + Substitution(tail, matched, before, after);
      == { SubstitutionMatched(a[1..], b, matched, before, after); }
        [a[0]] + (a[1..] + matched + b);
      == { assert a == [a[0]] + a[1..]; }
        a + matched + b;
      }
    }
  }

  lemma SubstitutionAmpersand(b: string, matched: string, before: string, after: string)
    ensures Substitution("$&" + b, matched, before, after) == matched + Substitution(b, matched, before, after)
  {
    var r := "$&" + b;
    assert r[0] == '$' && r[1] == '&' && r[2..] == b;
  }

  lemma SubstitutionPlainHead(c: char, rest: string, matched: string, before: string, after: string)
    requires c != '$'
    ensures Substitution([c] + rest, matched, before, after) == [c] + Substitution(rest, matched, before, after)
  {
    var r := [c] + rest;
    assert r[0] == c && r[1..] == rest;
  }

  /** `$$` stands for one `$`, `` $` `` for the text before the match and `$'` for the text after it; a final `$` is kept. */
  lemma SubstitutionSpecials(b: string, matched: string, before: string, after: string)
    ensures Substitution("$$" + b, matched, before, after) == "$" + Substitution(b, matched, before, after)
    ensures Substitution("$`" + b, matched, before, after) == before + Substitution(b, matched, before, after)
    ensures Substitution("$'" + b, matched, before, after) == after + Substitution(b, matched, before, after)
    ensures Substitution("$", matched, before, after) == "$"
  {
    assert ("$$" + b)[2..] == b && ("$`" + b)[2..] == b && ("$'" + b)[2..] == b;
    assert "$"[1..] == "";
  }

  /** `s.replace(pat, rep)` for a string `pat`: only the first occurrence is replaced. */
  function ReplaceFirst(s: string, pat: string, rep: string): string
  {
    IndexOfSpec(s, pat);
    match IndexOf(s, pat)
    case None => s
    case Some(i) =>
      s[..i] + Substitution(rep, pat, s[..i], s[i + |pat|..]) + s[i + |pat|..]
  }

  /** A string that does not contain the pattern is returned unchanged. */
  lemma ReplaceFirstAbsent(s: string, pat: string, rep: string)
    requires forall j :: 0 <= j <= |s| ==> !MatchAt(s, pat, j)
    ensures ReplaceFirst(s, pat, rep) == s
  {
    IndexOfSpec(s, pat);
  }

  /**
   * The first occurrence, at `i`, is replaced by the substituted replacement;
   * the text before and after it is kept verbatim, later occurrences included.
   */
  lemma ReplaceFirstAt(s: string, pat: string, rep: string, i: nat)
    requires MatchAt(s, pat, i)
    requires forall j :: 0 <= j < i ==> !MatchAt(s, pat, j)
    ensures ReplaceFirst(s, pat, rep) == s[..i] + Substitution(rep, pat, s[..i], s[i + |pat|..]) + s[i + |pat|..]
  {
    IndexOfAt(s, pat, i);
  }

  // ---------------------------------------------------------------------------
  // Length

  /** `s.length`: the number of UTF-16 code units, two for a character above U+FFFF. */
  function Utf16Length(s: string): (n: nat)
    ensures |s| <= n <= 2 * |s|
  {
    if s == "" then 0 else (if s[0] as int >= 0x10000 then 2 else 1) + Utf16Length(s[1..])
  }

  /** A string of Basic Multilingual Plane characters has one code unit per character. */
  lemma {:induction false} Utf16LengthBmp(s: string)
    requires forall i :: 0 <= i < |s| ==> s[i] as int < 0x10000
    ensures Utf16Length(s) == |s|
    decreases |s|
  {
    if s != "" { Utf16LengthBmp(s[1..]); }
  }
}
