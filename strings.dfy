/**
 * The JavaScript string built-ins the bot relies on, on `seq<char>`:
 * `includes`, `startsWith`, `split` on a literal separator, global
 * literal `replace`, `trim` and `toLowerCase`.
 */
module Strings {

  /** `p` occurs in `s` starting at index `i`. */
  predicate OccursAt(s: string, p: string, i: int)
  {
    0 <= i && i + |p| <= |s| && s[i..i + |p|] == p
  }

  /** JavaScript `s.includes(p)`. */
  predicate Contains(s: string, p: string)
  {
    exists i | 0 <= i <= |s| - |p| :: OccursAt(s, p, i)
  }

  /** JavaScript `s.startsWith(p)`. */
  predicate StartsWith(s: string, p: string)
  {
    |p| <= |s| && s[..|p|] == p
  }

  /** `s` ends with `p`. */
  predicate EndsWith(s: string, p: string)
  {
    |p| <= |s| && s[|s| - |p|..] == p
  }

  /** A string in which the character `c` does not appear cannot contain a pattern starting with `c`. */
  lemma NoLeadCharNoOccurrence(s: string, p: string)
    requires p != ""
    requires forall k :: 0 <= k < |s| ==> s[k] != p[0]
    ensures !Contains(s, p)
  {
    forall i | 0 <= i <= |s| - |p| ensures !OccursAt(s, p, i) {
      assert s[i..i + |p|][0] == s[i];
    }
  }

  /** JavaScript `pieces.join(sep)`. */
  function Join(pieces: seq<string>, sep: string): string
  {
    if |pieces| == 0 then ""
    else if |pieces| == 1 then pieces[0]
    else pieces[0] + sep + Join(pieces[1..], sep)
  }

  lemma {:induction false} JoinFirstIsPrefix(pieces: seq<string>, sep: string)
    requires |pieces| >= 1
    ensures StartsWith(Join(pieces, sep), pieces[0])
  {
  }

  lemma {:induction false} JoinExtendFirst(c: char, pieces: seq<string>, sep: string)
    requires |pieces| >= 1
    ensures Join([[c] + pieces[0]] + pieces[1..], sep) == [c] + Join(pieces, sep)
  {
    var q := [[c] + pieces[0]] + pieces[1..];
    assert q[1..] == pieces[1..];
  }

  /**
   * JavaScript `s.split(sep)` for a non-empty literal separator: the pieces
   * between the leftmost non-overlapping occurrences of `sep`. Joining the
   * pieces with `sep` gives `s` back, and no piece contains `sep`.
   */
  function Split(s: string, sep: string): (r: seq<string>)
    requires sep != ""
    ensures |r| >= 1
    ensures Join(r, sep) == s
    ensures forall k :: 0 <= k < |r| ==> !Contains(r[k], sep)
    decreases |s|
  {
    if |s| < |sep| then
      [s]
    else if s[..|sep|] == sep then
      var rest := Split(s[|sep|..], sep);
      assert ([""] + rest)[1..] == rest;
      assert s == sep + s[|sep|..];
      [""] + rest
    else
      var rest := Split(s[1..], sep);
      var first := [s[0]] + rest[0];
      JoinExtendFirst(s[0], rest, sep);
      assert s == [s[0]] + s[1..];
      JoinFirstIsPrefix(rest, sep);
      assert !Contains(first, sep) by {
        if |sep| <= |first| {
          assert first[..|sep|] == s[..|sep|];
        }
        forall i | 1 <= i <= |first| - |sep| ensures !OccursAt(first, sep, i) {
          assert first[i..i + |sep|] == rest[0][i - 1..i - 1 + |sep|];
          assert !OccursAt(rest[0], sep, i - 1);
        }
      }
      [first] + rest[1..]
  }

  /** Splitting a string that does not contain the separator yields the string alone. */
  lemma SplitWithoutSeparator(s: string, sep: string)
    requires sep != "" && !Contains(s, sep)
    ensures Split(s, sep) == [s]
  {
    var r := Split(s, sep);
    if |r| >= 2 {
      assert Join(r, sep) == r[0] + sep + Join(r[1..], sep);
      assert s[|r[0]|..|r[0]| + |sep|] == sep;
      assert OccursAt(s, sep, |r[0]|);
    }
  }

  /** The character `c` does not occur in `s`. */
  predicate Lacks(s: string, c: char)
  {
    forall k :: 0 <= k < |s| ==> s[k] != c
  }

  /** Splitting on one character: a leading piece without it comes off as the first piece. */
  lemma {:induction false} SplitAfterPiece(a: string, c: char, rest: string)
    requires Lacks(a, c)
    ensures Split(a + [c] + rest, [c]) == [a] + Split(rest, [c])
    decreases |a|
  {
    var s := a + [c] + rest;
    if |a| == 0 {
      assert s[..1] == [c];
      assert s[1..] == rest;
    } else {
      assert s[0] == a[0];
      assert s[..1] != [c];
      assert s[1..] == a[1..] + [c] + rest;
      SplitAfterPiece(a[1..], c, rest);
      assert [s[0]] + a[1..] == a;
    }
  }

  /**
   * Splitting on a single character undoes joining with it, provided no
   * piece contains that character.
   */
  lemma {:induction false} SplitJoin(pieces: seq<string>, c: char)
    requires |pieces| >= 1
    requires forall k :: 0 <= k < |pieces| ==> Lacks(pieces[k], c)
    ensures Split(Join(pieces, [c]), [c]) == pieces
  {
    if |pieces| == 1 {
      NoLeadCharNoOccurrence(pieces[0], [c]);
      SplitWithoutSeparator(pieces[0], [c]);
    } else {
      SplitJoin(pieces[1..], c);
      SplitAfterPiece(pieces[0], c, Join(pieces[1..], [c]));
      assert [pieces[0]] + pieces[1..] == pieces;
    }
  }

  /**
   * JavaScript `s.replace(/p/g, v)` for a literal pattern `p`: every
   * leftmost non-overlapping occurrence of `p` is replaced by `v`.
   * (The `$`-patterns JavaScript interprets in `v` are not modelled.)
   */
  function ReplaceAll(s: string, p: string, v: string): (r: string)
    requires p != ""
    ensures r == Join(Split(s, p), v)
    ensures !Contains(s, p) ==> r == s
  {
    if !Contains(s, p) then
      SplitWithoutSeparator(s, p);
      s
    else
      Join(Split(s, p), v)
  }

  /** Applies the literal replacements in order, like a chain of `.replace` calls. */
  function ReplaceEach(s: string, subs: seq<(string, string)>): string
    requires forall k :: 0 <= k < |subs| ==> subs[k].0 != ""
    decreases |subs|
  {
    if |subs| == 0 then s else ReplaceEach(ReplaceAll(s, subs[0].0, subs[0].1), subs[1..])
  }

  /** A text in which no pattern of the chain occurs comes out of the chain unchanged. */
  lemma {:induction false} ReplaceEachUntouched(s: string, subs: seq<(string, string)>)
    requires forall k :: 0 <= k < |subs| ==> subs[k].0 != ""
    requires forall k :: 0 <= k < |subs| ==> !Contains(s, subs[k].0)
    ensures ReplaceEach(s, subs) == s
  {
    if |subs| > 0 {
      ReplaceEachUntouched(s, subs[1..]);
    }
  }

  /** A text without the character `c` passes unchanged through a chain whose patterns all start with `c`. */
  lemma ReplaceEachSkipsLeadChar(s: string, subs: seq<(string, string)>, c: char)
    requires forall k :: 0 <= k < |subs| ==> subs[k].0 != "" && subs[k].0[0] == c
    requires forall k :: 0 <= k < |s| ==> s[k] != c
    ensures ReplaceEach(s, subs) == s
  {
    forall k | 0 <= k < |subs| ensures !Contains(s, subs[k].0) {
      NoLeadCharNoOccurrence(s, subs[k].0);
    }
    ReplaceEachUntouched(s, subs);
  }

  /** A character outside the Basic Multilingual Plane, which UTF-16 stores as a surrogate pair. */
  predicate IsAstral(c: char)
  {
    c as int >= 0x1_0000
  }

  /**
   * JavaScript `s.length`: the number of UTF-16 code units, one per
   * character plus one more for each character above U+FFFF (a surrogate
   * pair). It is zero only for the empty string, and it equals the number
   * of characters when every character lies in the Basic Multilingual
   * Plane.
   */
  function Utf16Length(s: string): (n: nat)
    ensures n == |s| + |set k | 0 <= k < |s| && IsAstral(s[k])|
    ensures |s| <= n <= 2 * |s|
    ensures n == 0 <==> s == ""
    ensures (forall k :: 0 <= k < |s| ==> !IsAstral(s[k])) ==> n == |s|
    decreases |s|
  {
    if |s| == 0 then 0
    else
      var init := s[..|s| - 1];
      var last := |s| - 1;
      assert (set k | 0 <= k < |s| && IsAstral(s[k]))
             == (set k | 0 <= k < |init| && IsAstral(init[k])) + (if IsAstral(s[last]) then {last} else {});
      Utf16Length(init) + (if IsAstral(s[last]) then 2 else 1)
  }

  /** The characters JavaScript's `trim` strips and its regular expressions match with `\s`. */
  predicate IsWhitespace(c: char)
  {
    || c == ' ' || c == '\t' || c == '\n' || c == '\r' || c == '\U{B}' || c == '\U{C}'
    || c == '\U{A0}' || c == '\U{1680}' || ('\U{2000}' <= c <= '\U{200A}')
    || c == '\U{2028}' || c == '\U{2029}' || c == '\U{202F}' || c == '\U{205F}'
    || c == '\U{3000}' || c == '\U{FEFF}'
  }

  /** Neither end of `s` is whitespace. */
  predicate IsTrimmed(s: string)
  {
    s == [] || (!IsWhitespace(s[0]) && !IsWhitespace(s[|s| - 1]))
  }

  function TrimStart(s: string): (r: string)
    ensures |r| <= |s| && r == s[|s| - |r|..]
    ensures r == [] || !IsWhitespace(r[0])
    ensures forall k :: 0 <= k < |s| - |r| ==> IsWhitespace(s[k])
  {
    if s != [] && IsWhitespace(s[0]) then TrimStart(s[1..]) else s
  }

  function TrimEnd(s: string): (r: string)
    ensures |r| <= |s| && r == s[..|r|]
    ensures r == [] || !IsWhitespace(r[|r| - 1])
    ensures forall k :: |r| <= k < |s| ==> IsWhitespace(s[k])
  {
    if s != [] && IsWhitespace(s[|s| - 1]) then TrimEnd(s[..|s| - 1]) else s
  }

  /**
   * JavaScript `s.trim()`: the result has no whitespace at either end, a
   * string that is already trimmed is returned as it is, and the result is
   * empty exactly when `s` is all whitespace.
   */
  function Trim(s: string): (r: string)
    ensures IsTrimmed(r)
    ensures IsTrimOf(r, s)
    ensures IsTrimmed(s) ==> r == s
    ensures r == "" <==> forall k :: 0 <= k < |s| ==> IsWhitespace(s[k])
  {
    var t := TrimStart(s);
    var r := TrimEnd(t);
    assert r != [] ==> r[0] == t[0];
    assert SliceAmidWhitespace(r, s, |s| - |t|);
    r
  }

  /**
   * `r` is `s` with whitespace removed at its two ends only: a slice of
   * `s` with nothing but whitespace before and after it.
   */
  ghost predicate IsTrimOf(r: string, s: string)
  {
    exists i :: SliceAmidWhitespace(r, s, i)
  }

  /** `r` is the slice of `s` that starts at `i`, and only whitespace lies outside it. */
  ghost predicate SliceAmidWhitespace(r: string, s: string, i: int)
  {
    0 <= i <= |s| - |r| && r == s[i..i + |r|]
    && (forall k :: 0 <= k < i ==> IsWhitespace(s[k]))
    && (forall k :: i + |r| <= k < |s| ==> IsWhitespace(s[k]))
  }

  /**
   * A trimmed slice with only whitespace around it is unique, so the
   * contract of `Trim` fixes its result.
   */
  lemma TrimOfIsUnique(r1: string, r2: string, s: string)
    requires IsTrimmed(r1) && IsTrimOf(r1, s)
    requires IsTrimmed(r2) && IsTrimOf(r2, s)
    ensures r1 == r2
  {
    var i1 :| SliceAmidWhitespace(r1, s, i1);
    var i2 :| SliceAmidWhitespace(r2, s, i2);
    if r1 != [] && r2 != [] {
      assert s[i1] == r1[0] && s[i2] == r2[0];
      assert i1 == i2;
      assert s[i1 + |r1| - 1] == r1[|r1| - 1] && s[i2 + |r2| - 1] == r2[|r2| - 1];
      assert |r1| == |r2|;
    }
  }

  /** `toLowerCase` on one character; only the ASCII letters are folded. */
  function LowerChar(c: char): (d: char)
    ensures IsWhitespace(d) <==> IsWhitespace(c)
    ensures ('A' <= c <= 'Z') ==> 'a' <= d <= 'z'
  {
    if 'A' <= c <= 'Z' then (c as int + 32) as char else c
  }

  /** JavaScript `s.toLowerCase()`, restricted to the ASCII letters. */
  function ToLower(s: string): (r: string)
    ensures |r| == |s|
    ensures forall k :: 0 <= k < |s| ==> r[k] == LowerChar(s[k])
  {
    seq(|s|, k requires 0 <= k < |s| => LowerChar(s[k]))
  }

  /** `s` has no upper-case letter left. */
  predicate IsLower(s: string)
  {
    ToLower(s) == s
  }

  /** Lowercasing is idempotent, and it keeps a trimmed string trimmed. */
  lemma ToLowerProperties(s: string)
    ensures IsLower(ToLower(s))
    ensures IsTrimmed(s) ==> IsTrimmed(ToLower(s))
  {
    var t := ToLower(s);
    assert ToLower(t) == t by {
      forall k | 0 <= k < |t| ensures ToLower(t)[k] == t[k] {
      }
    }
  }
}
