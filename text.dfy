/** String helpers shared by the components: prefix tests, the global
    placeholder replacement used by the prompt tester, ASCII lower-casing,
    whitespace trimming and decimal rendering of numbers. */
module Text {

  // ---------------------------------------------------------------------
  // Prefixes and occurrences

  predicate StartsWith(s: string, prefix: string) {
    |prefix| <= |s| && s[..|prefix|] == prefix
  }

  predicate OccursAt(s: string, p: string, i: int) {
    0 <= i && i + |p| <= |s| && s[i..i + |p|] == p
  }

  predicate Contains(s: string, p: string) {
    exists i | 0 <= i <= |s| :: OccursAt(s, p, i)
  }

  // ---------------------------------------------------------------------
  // Global replacement: `s.replace(/p/g, v)` for a pattern without regular
  // expression metacharacters and a value without `$` patterns. The scan
  // goes left to right; after a match it resumes behind the match.

  function ReplaceAll(s: string, p: string, v: string): string
    requires |p| > 0
    decreases |s|
  {
    if |s| < |p| then s
    else if s[..|p|] == p then v + ReplaceAll(s[|p|..], p, v)
    else [s[0]] + ReplaceAll(s[1..], p, v)
  }

  /** The pieces of `s` between the matches that ReplaceAll finds. */
  function Split(s: string, p: string): (parts: seq<string>)
    requires |p| > 0
    ensures |parts| >= 1
    decreases |s|
  {
    if |s| < |p| then [s]
    else if s[..|p|] == p then [""] + Split(s[|p|..], p)
    else
      var rest := Split(s[1..], p);
      [[s[0]] + rest[0]] + rest[1..]
  }

  function Join(parts: seq<string>, sep: string): string
    requires |parts| >= 1
  {
    if |parts| == 1 then parts[0] else parts[0] + sep + Join(parts[1..], sep)
  }

  lemma JoinConsFirst(c: char, parts: seq<string>, sep: string)
    requires |parts| >= 1
    ensures Join([[c] + parts[0]] + parts[1..], sep) == [c] + Join(parts, sep)
  {
    var q := [[c] + parts[0]] + parts[1..];
    if |parts| > 1 {
      assert q[1..] == parts[1..];
    }
  }

  /** Replacing every match by `v` is the same as gluing the pieces between
      the matches back together with `v`. */
  lemma {:induction false} ReplaceAllIsJoinOfSplit(s: string, p: string, v: string)
    requires |p| > 0
    ensures ReplaceAll(s, p, v) == Join(Split(s, p), v)
    decreases |s|
  {
    if |s| < |p| {
    } else if s[..|p|] == p {
      ReplaceAllIsJoinOfSplit(s[|p|..], p, v);
      var rest := Split(s[|p|..], p);
      assert ([""] + rest)[1..] == rest;
    } else {
      ReplaceAllIsJoinOfSplit(s[1..], p, v);
      JoinConsFirst(s[0], Split(s[1..], p), v);
    }
  }

  /** Gluing the pieces back with the pattern itself gives the input back. */
  lemma {:induction false} SplitJoinRoundTrip(s: string, p: string)
    requires |p| > 0
    ensures Join(Split(s, p), p) == s
    decreases |s|
  {
    if |s| < |p| {
    } else if s[..|p|] == p {
      var rest := Split(s[|p|..], p);
      assert Join(Split(s, p), p) == p + Join(rest, p) by {
        assert ([""] + rest)[1..] == rest;
      }
      SplitJoinRoundTrip(s[|p|..], p);
      assert s == p + s[|p|..];
    } else {
      var rest := Split(s[1..], p);
      assert Join(Split(s, p), p) == [s[0]] + Join(rest, p) by {
        JoinConsFirst(s[0], rest, p);
      }
      SplitJoinRoundTrip(s[1..], p);
      assert s == [s[0]] + s[1..];
    }
  }

  lemma JoinFirstIsPrefix(parts: seq<string>, sep: string)
    requires |parts| >= 1
    ensures StartsWith(Join(parts, sep), parts[0])
  {
  }

  /** No piece between two matches contains the pattern: the scan would
      have matched it. */
  lemma {:induction false} SplitPiecesArePatternFree(s: string, p: string)
    requires |p| > 0
    ensures forall k :: 0 <= k < |Split(s, p)| ==> !Contains(Split(s, p)[k], p)
    decreases |s|
  {
    var parts := Split(s, p);
    if |s| < |p| {
      forall i | OccursAt(s, p, i) ensures false { }
    } else if s[..|p|] == p {
      SplitPiecesArePatternFree(s[|p|..], p);
      var rest := Split(s[|p|..], p);
      assert parts == [""] + rest;
      forall k | 0 <= k < |parts| ensures !Contains(parts[k], p) {
        if k == 0 {
          forall i | OccursAt(parts[0], p, i) ensures false { }
        } else {
          assert parts[k] == rest[k - 1];
        }
      }
    } else {
      SplitPiecesArePatternFree(s[1..], p);
      var rest := Split(s[1..], p);
      var head := [s[0]] + rest[0];
      assert parts == [head] + rest[1..];
      SplitJoinRoundTrip(s[1..], p);
      JoinFirstIsPrefix(rest, p);
      forall k | 0 <= k < |parts| ensures !Contains(parts[k], p) {
        if k == 0 {
          forall i | OccursAt(head, p, i) ensures false {
            if i > 0 {
              assert head[i..i + |p|] == rest[0][i - 1..i - 1 + |p|];
              assert OccursAt(rest[0], p, i - 1);
            }
          }
        } else {
          assert parts[k] == rest[k];
        }
      }
    }
  }

  /** Replacing the pattern by itself changes nothing. */
  lemma ReplaceAllWithItself(s: string, p: string)
    requires |p| > 0
    ensures ReplaceAll(s, p, p) == s
  {
    ReplaceAllIsJoinOfSplit(s, p, p);
    SplitJoinRoundTrip(s, p);
  }

  /** A pattern that does not occur leaves the text unchanged. */
  lemma {:induction false} ReplaceAllAbsent(s: string, p: string, v: string)
    requires |p| > 0 && !Contains(s, p)
    ensures ReplaceAll(s, p, v) == s
    decreases |s|
  {
    if |s| < |p| {
    } else {
      assert !OccursAt(s, p, 0);
      forall i | OccursAt(s[1..], p, i) ensures false {
        assert s[1..][i..i + |p|] == s[i + 1..i + 1 + |p|];
        assert OccursAt(s, p, i + 1);
      }
      ReplaceAllAbsent(s[1..], p, v);
      assert s == [s[0]] + s[1..];
    }
  }

  // ---------------------------------------------------------------------
  // Lower-casing (ASCII letters only)

  function LowerChar(c: char): char {
    if 'A' <= c <= 'Z' then (c as int + 32) as char else c
  }

  function ToLower(s: string): (r: string)
    ensures |r| == |s|
    ensures forall i :: 0 <= i < |s| ==> r[i] == LowerChar(s[i])
    ensures forall i :: 0 <= i < |r| ==> !('A' <= r[i] <= 'Z')
  {
    seq(|s|, i requires 0 <= i < |s| => LowerChar(s[i]))
  }

  // ---------------------------------------------------------------------
  // Trimming: `String.prototype.trim` for the common whitespace characters

  predicate IsSpace(c: char) {
    c == ' ' || c == '\t' || c == '\n' || c == '\r' || c == '\U{000B}' || c == '\U{000C}'
    || c == '\U{00A0}' || c == '\U{FEFF}'
  }

  function TrimStart(s: string): string {
    if |s| > 0 && IsSpace(s[0]) then TrimStart(s[1..]) else s
  }

  function TrimEnd(s: string): string {
    if |s| > 0 && IsSpace(s[|s| - 1]) then TrimEnd(s[..|s| - 1]) else s
  }

  function Trim(s: string): string {
    TrimEnd(TrimStart(s))
  }

  predicate AllSpace(s: string) {
    forall i :: 0 <= i < |s| ==> IsSpace(s[i])
  }

  lemma {:induction false} TrimStartEmptyIff(s: string)
    ensures TrimStart(s) == "" <==> AllSpace(s)
    decreases |s|
  {
    if |s| > 0 && IsSpace(s[0]) {
      TrimStartEmptyIff(s[1..]);
      assert AllSpace(s) <==> AllSpace(s[1..]) by {
        if AllSpace(s[1..]) {
          forall i | 0 <= i < |s| ensures IsSpace(s[i]) {
            if i > 0 { assert s[i] == s[1..][i - 1]; }
          }
        }
      }
    }
  }

  lemma {:induction false} TrimEndEmptyIff(s: string)
    ensures TrimEnd(s) == "" <==> AllSpace(s)
    decreases |s|
  {
    if |s| > 0 && IsSpace(s[|s| - 1]) {
      TrimEndEmptyIff(s[..|s| - 1]);
      assert AllSpace(s) <==> AllSpace(s[..|s| - 1]) by {
        if AllSpace(s[..|s| - 1]) {
          forall i | 0 <= i < |s| ensures IsSpace(s[i]) {
            if i < |s| - 1 { assert s[i] == s[..|s| - 1][i]; }
          }
        }
      }
    }
  }

  /** A string trims to nothing exactly when it is all whitespace. */
  lemma TrimEmptyIffAllSpace(s: string)
    ensures Trim(s) == "" <==> AllSpace(s)
  {
    TrimStartEmptyIff(s);
    TrimEndEmptyIff(TrimStart(s));
    TrimStartIsSuffix(s);
    var k := |s| - |TrimStart(s)|;
    if AllSpace(TrimStart(s)) {
      assert |TrimStart(s)| == 0;
      forall i | 0 <= i < |s| ensures IsSpace(s[i]) {
        assert s[i] == s[..k][i];
      }
    }
  }

  lemma {:induction false} TrimStartIsSuffix(s: string)
    ensures |TrimStart(s)| <= |s|
    ensures TrimStart(s) == s[|s| - |TrimStart(s)|..]
    ensures AllSpace(s[..|s| - |TrimStart(s)|])
    ensures |TrimStart(s)| > 0 ==> !IsSpace(TrimStart(s)[0])
    decreases |s|
  {
    if |s| > 0 && IsSpace(s[0]) {
      TrimStartIsSuffix(s[1..]);
      var k := |s| - |TrimStart(s)|;
      assert s[1..][..k - 1] == s[1..k];
      forall i | 0 <= i < k ensures IsSpace(s[..k][i]) {
        if i > 0 { assert s[..k][i] == s[1..][..k - 1][i - 1]; }
      }
    }
  }

  // ---------------------------------------------------------------------
  // Decimal rendering of numbers, as template literals print integers

  predicate IsDigit(c: char) {
    '0' <= c <= '9'
  }

  function DigitChar(d: nat): (c: char)
    requires d < 10
    ensures IsDigit(c) && c as int - '0' as int == d
  {
    ('0' as int + d) as char
  }

  function NatToString(n: nat): (r: string)
    ensures |r| >= 1
    ensures forall i :: 0 <= i < |r| ==> IsDigit(r[i])
    decreases n
  {
    if n < 10 then [DigitChar(n)] else NatToString(n / 10) + [DigitChar(n % 10)]
  }

  function IntToString(i: int): string {
    if i < 0 then "-" + NatToString(-i) else NatToString(i)
  }

  function ParseNat(s: string): nat
    requires forall i :: 0 <= i < |s| ==> IsDigit(s[i])
  {
    if |s| == 0 then 0
    else
      assert IsDigit(s[|s| - 1]);
      ParseNat(s[..|s| - 1]) * 10 + (s[|s| - 1] as int - '0' as int)
  }

  /** Reading back the decimal rendering of a number gives the number. */
  lemma {:induction false} ParseNatToString(n: nat)
    ensures ParseNat(NatToString(n)) == n
    decreases n
  {
    if n >= 10 {
      ParseNatToString(n / 10);
      var r := NatToString(n);
      assert r[..|r| - 1] == NatToString(n / 10);
    }
  }
}
