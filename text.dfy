/** The string handling the editor relies on: trimming surrounding
    whitespace, ASCII lower-casing and case-insensitive substring search. */
module Text {

  /** Space, tab, line feed, vertical tab, form feed and carriage return. */
  predicate IsWhitespace(c: char) {
    c == ' ' || c == '\t' || c == '\n' || c == '\U{000B}' || c == '\U{000C}' || c == '\r'
  }

  /** `s` without its leading whitespace. */
  function TrimStart(s: string): (r: string)
    ensures |r| <= |s| && r == s[|s| - |r|..]
    ensures forall i :: 0 <= i < |s| - |r| ==> IsWhitespace(s[i])
    ensures r == [] || !IsWhitespace(r[0])
  {
    if s == [] || !IsWhitespace(s[0]) then s else TrimStart(s[1..])
  }

  /** `s` without its trailing whitespace. */
  function TrimEnd(s: string): (r: string)
    ensures |r| <= |s| && r == s[..|r|]
    ensures forall i :: |r| <= i < |s| ==> IsWhitespace(s[i])
    ensures r == [] || !IsWhitespace(r[|r| - 1])
  {
    if s == [] || !IsWhitespace(s[|s| - 1]) then s else TrimEnd(s[..|s| - 1])
  }

  /** `s` without whitespace at either end. */
  function Trim(s: string): string {
    TrimEnd(TrimStart(s))
  }

  /** Taking n elements of the suffix from `start` is the slice of n
      elements at `start`. */
  lemma {:induction false} TakeOfDrop(s: string, start: nat, n: nat)
    requires start + n <= |s|
    ensures s[start..][..n] == s[start..start + n]
  {
    forall k | 0 <= k < n ensures s[start..][..n][k] == s[start..start + n][k] {
      assert s[start..][k] == s[start + k];
    }
  }

  /** The trimmed string is the piece of `s` starting at `start`, and
      everything around that piece is whitespace. */
  lemma TrimSlice(s: string) returns (start: nat)
    ensures start + |Trim(s)| <= |s| && Trim(s) == s[start..start + |Trim(s)|]
    ensures forall i :: 0 <= i < start || start + |Trim(s)| <= i < |s| ==> IsWhitespace(s[i])
  {
    var t := TrimStart(s);
    var r := TrimEnd(t);
    start := |s| - |t|;
    assert Trim(s) == r;
    assert r == s[start..][..|r|];
    TakeOfDrop(s, start, |r|);
    forall i | 0 <= i < start || start + |r| <= i < |s| ensures IsWhitespace(s[i]) {
      if start + |r| <= i {
        assert s[i] == t[i - start];
        assert IsWhitespace(t[i - start]);
      }
    }
  }

  /** The trimmed string neither starts nor ends with whitespace, and it is
      empty exactly when `s` is all whitespace. */
  lemma TrimEnds(s: string)
    ensures Trim(s) == [] || (!IsWhitespace(Trim(s)[0]) && !IsWhitespace(Trim(s)[|Trim(s)| - 1]))
    ensures Trim(s) == [] <==> forall i :: 0 <= i < |s| ==> IsWhitespace(s[i])
  {
    var t := TrimStart(s);
    var r := TrimEnd(t);
    assert r != [] ==> r[0] == t[0];
    if r != [] {
      assert !IsWhitespace(s[|s| - |t|]);
    }
  }

  /** Trimming a trimmed string changes nothing. */
  lemma TrimIdempotent(s: string)
    ensures Trim(Trim(s)) == Trim(s)
  {
    var r := Trim(s);
    if r != [] {
      assert TrimStart(r) == r;
      assert TrimEnd(r) == r;
    }
  }

  /** ASCII upper-case letters map to lower case; every other character is
      kept. */
  function LowerChar(c: char): (r: char)
    ensures 'A' <= c <= 'Z' ==> r as int == c as int + 32
    ensures !('A' <= c <= 'Z') ==> r == c
  {
    if 'A' <= c <= 'Z' then (c as int + 32) as char else c
  }

  function Lowercased(s: string): (r: string)
    ensures |r| == |s|
    ensures forall i :: 0 <= i < |s| ==> r[i] == LowerChar(s[i])
  {
    seq(|s|, i requires 0 <= i < |s| => LowerChar(s[i]))
  }

  /** Whether `sub` occurs in `s` as a contiguous piece, looking from the
      left. */
  function Contains(s: string, sub: string): bool {
    if |sub| > |s| then false else s[..|sub|] == sub || Contains(s[1..], sub)
  }

  predicate OccursAt(s: string, sub: string, i: int) {
    0 <= i <= |s| - |sub| && s[i..i + |sub|] == sub
  }

  /** A piece of `s` away from its first character is the same piece of
      its tail, one position earlier. */
  lemma TailSlice(s: string, i: nat, n: nat)
    requires 1 <= i && i + n <= |s|
    ensures s[i..i + n] == s[1..][i - 1..i - 1 + n]
  {
    var piece, tailPiece := s[i..i + n], s[1..][i - 1..i - 1 + n];
    forall k | 0 <= k < n ensures piece[k] == tailPiece[k] {
      assert s[1..][i - 1 + k] == s[i + k];
    }
  }

  /** The search finds `sub` exactly when it occurs somewhere in `s`. */
  lemma {:induction false} ContainsSpec(s: string, sub: string)
    ensures Contains(s, sub) <==> exists i :: OccursAt(s, sub, i)
  {
    if |sub| <= |s| && s[..|sub|] != sub {
      ContainsSpec(s[1..], sub);
      if Contains(s[1..], sub) {
        var i :| OccursAt(s[1..], sub, i);
        TailSlice(s, i + 1, |sub|);
        assert OccursAt(s, sub, i + 1);
      } else {
        forall i | 0 <= i <= |s| - |sub| ensures !OccursAt(s, sub, i) {
          if i > 0 {
            TailSlice(s, i, |sub|);
            assert !OccursAt(s[1..], sub, i - 1);
          }
        }
      }
    } else if |sub| <= |s| {
      assert OccursAt(s, sub, 0);
    }
  }

  /** Case-insensitive search, folding ASCII letters on both sides. */
  function ContainsIgnoringCase(s: string, sub: string): bool {
    Contains(Lowercased(s), Lowercased(sub))
  }

  /** Changing the case of ASCII letters in the text does not change what a
      case-insensitive search finds. */
  lemma {:induction false} IgnoringCaseAfterLowering(s: string, sub: string)
    ensures ContainsIgnoringCase(Lowercased(s), sub) == ContainsIgnoringCase(s, sub)
  {
    assert Lowercased(Lowercased(s)) == Lowercased(s) by {
      forall i | 0 <= i < |s| ensures LowerChar(LowerChar(s[i])) == LowerChar(s[i]) { }
    }
  }
}
