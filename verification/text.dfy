/** The string operations the JavaScript source relies on, restricted to what
    the marketplace uses: ASCII lower-casing (`toLowerCase`), substring search
    (`includes`, an unanchored regular-expression alternative), prefix test
    (`startsWith`), whitespace trimming (`trim`) and splitting on one character
    (`split(' ')`). Whitespace is a fixed set of characters. */
module Text {

  /** The whitespace characters recognised by `trim` and by `\s` in a regular
      expression, restricted to space, tab, line feed, carriage return,
      vertical tab and form feed; the last five are the consecutive code
      points 9 to 13. */
  predicate IsSpace(c: char) {
    c == ' ' || '\t' <= c <= '\r'
  }

  /** `\d` in a JavaScript regular expression. */
  predicate IsDigit(c: char) {
    '0' <= c <= '9'
  }

  predicate IsUpper(c: char) {
    'A' <= c <= 'Z'
  }

  function LowerChar(c: char): (r: char)
    ensures !IsUpper(r)
    ensures IsUpper(c) ==> r as int == c as int + 32
    ensures !IsUpper(c) ==> r == c
  {
    if IsUpper(c) then (c as int + 32) as char else c
  }

  /** `toLowerCase`, for the ASCII letters. */
  function Lower(s: string): (r: string)
    ensures |r| == |s|
    ensures forall i :: 0 <= i < |s| ==> r[i] == LowerChar(s[i])
  {
    if s == [] then [] else [LowerChar(s[0])] + Lower(s[1..])
  }

  lemma {:induction false} LowerIdempotent(s: string)
    ensures Lower(Lower(s)) == Lower(s)
  {
    var once := Lower(s);
    var twice := Lower(once);
    assert forall i :: 0 <= i < |s| ==> twice[i] == once[i];
  }

  lemma LowerAppend(a: string, b: string)
    ensures Lower(a + b) == Lower(a) + Lower(b)
  {
    var l := Lower(a + b);
    var r := Lower(a) + Lower(b);
    assert forall i :: 0 <= i < |l| ==> l[i] == r[i];
  }

  /** Lower-casing leaves every character that is not an upper-case letter in
      place, so it keeps the positions of `.`, `/` and the like. */
  lemma LowerKeeps(s: string, i: int, c: char)
    requires 0 <= i < |s| && !IsUpper(c)
    ensures Lower(s)[i] == c <==> s[i] == c || (IsUpper(s[i]) && LowerChar(s[i]) == c)
  {
  }

  predicate StartsWith(s: string, prefix: string)
    ensures StartsWith(s, prefix) ==> |prefix| <= |s| && forall i :: 0 <= i < |prefix| ==> s[i] == prefix[i]
  {
    |prefix| <= |s| && s[..|prefix|] == prefix
  }

  /** `s.includes(sub)`: `sub` occurs somewhere in `s`, scanned from the left. */
  predicate Contains(s: string, sub: string)
    ensures Contains(s, sub) ==> |sub| <= |s|
    decreases |s|
  {
    StartsWith(s, sub) || (|s| > 0 && Contains(s[1..], sub))
  }

  /** The occurrence the search looks for. */
  ghost predicate OccursAt(s: string, sub: string, i: int) {
    0 <= i && i + |sub| <= |s| && s[i..i + |sub|] == sub
  }

  /** The scan finds `sub` exactly when it occurs at some position. */
  lemma {:induction false} ContainsIff(s: string, sub: string)
    ensures Contains(s, sub) <==> exists i :: OccursAt(s, sub, i)
    decreases |s|
  {
    if StartsWith(s, sub) {
      assert OccursAt(s, sub, 0);
    } else if |s| == 0 {
    } else {
      ContainsIff(s[1..], sub);
      if exists i :: OccursAt(s, sub, i) {
        var i :| OccursAt(s, sub, i);
        assert i != 0;
        assert s[1..][i - 1..i - 1 + |sub|] == s[i..i + |sub|];
        assert OccursAt(s[1..], sub, i - 1);
      }
      if exists i :: OccursAt(s[1..], sub, i) {
        var i :| OccursAt(s[1..], sub, i);
        assert s[1..][i..i + |sub|] == s[i + 1..i + 1 + |sub|];
        assert OccursAt(s, sub, i + 1);
      }
    }
  }

  /** An occurrence anywhere is found. */
  lemma ContainsAt(s: string, sub: string, i: int)
    requires OccursAt(s, sub, i)
    ensures Contains(s, sub)
  {
    ContainsIff(s, sub);
  }

  /** Every string contains the empty string (`s.includes('')` is true). */
  lemma ContainsEmpty(s: string)
    ensures Contains(s, "")
  {
    assert OccursAt(s, "", 0);
    ContainsIff(s, "");
  }

  /** `trimStart`: drops the leading whitespace. */
  function TrimStart(s: string): (r: string)
    ensures |r| <= |s| && r == s[|s| - |r|..]
    ensures r != [] ==> !IsSpace(r[0])
    ensures forall i :: 0 <= i < |s| - |r| ==> IsSpace(s[i])
  {
    if s != [] && IsSpace(s[0]) then TrimStart(s[1..]) else s
  }

  /** `trimEnd`: drops the trailing whitespace. */
  function TrimEnd(s: string): (r: string)
    ensures |r| <= |s| && r == s[..|r|]
    ensures r != [] ==> !IsSpace(r[|r| - 1])
    ensures forall i :: |r| <= i < |s| ==> IsSpace(s[i])
  {
    if s != [] && IsSpace(s[|s| - 1]) then TrimEnd(s[..|s| - 1]) else s
  }

  /** `trim`. */
  function Trim(s: string): (r: string)
    ensures |r| <= |s|
    ensures r != [] ==> !IsSpace(r[0]) && !IsSpace(r[|r| - 1])
    ensures (forall k :: 0 <= k < |s| ==> !IsSpace(s[k])) ==> r == s
  {
    TrimEnd(TrimStart(s))
  }

  /** Where the trimmed text sits in `s`: everything before offset `off` and
      everything after the trimmed text is whitespace, and the trimmed text
      neither starts nor ends with whitespace. */
  lemma TrimWindow(s: string) returns (off: nat, t: string)
    ensures t == Trim(s)
    ensures off + |t| <= |s| && t == s[off..off + |t|]
    ensures forall k :: 0 <= k < off ==> IsSpace(s[k])
    ensures forall k :: off + |t| <= k < |s| ==> IsSpace(s[k])
    ensures t != [] ==> !IsSpace(t[0]) && !IsSpace(t[|t| - 1])
  {
    var a := TrimStart(s);
    t := TrimEnd(a);
    off := Window(s, a, t);
  }

  /** The window facts for any `a` that `TrimStart` could return and any `t`
      that `TrimEnd` could return for it. */
  lemma Window(s: string, a: string, t: string) returns (off: nat)
    requires |a| <= |s| && a == s[|s| - |a|..]
    requires a != [] ==> !IsSpace(a[0])
    requires forall i :: 0 <= i < |s| - |a| ==> IsSpace(s[i])
    requires |t| <= |a| && t == a[..|t|]
    requires t != [] ==> !IsSpace(t[|t| - 1])
    requires forall i :: |t| <= i < |a| ==> IsSpace(a[i])
    ensures off + |t| <= |s| && t == s[off..off + |t|]
    ensures forall k :: 0 <= k < off ==> IsSpace(s[k])
    ensures forall k :: off + |t| <= k < |s| ==> IsSpace(s[k])
    ensures t != [] ==> !IsSpace(t[0]) && !IsSpace(t[|t| - 1])
  {
    off := |s| - |a|;
    forall k | off + |t| <= k < |s|
      ensures IsSpace(s[k])
    {
      assert s[k] == a[k - off];
    }
    if t != [] {
      assert t[0] == a[0];
    }
  }

  /** `Trim(s)` is at least two characters long exactly when `s` has two
      distinct non-whitespace positions. */
  lemma TrimLengthAtLeastTwo(s: string)
    ensures |Trim(s)| >= 2 <==> exists i, j :: 0 <= i < j < |s| && !IsSpace(s[i]) && !IsSpace(s[j])
  {
    var off, t := TrimWindow(s);
    if |t| >= 2 {
      assert s[off] == t[0] && s[off + |t| - 1] == t[|t| - 1];
    }
    if exists i, j :: 0 <= i < j < |s| && !IsSpace(s[i]) && !IsSpace(s[j]) {
      var i, j :| 0 <= i < j < |s| && !IsSpace(s[i]) && !IsSpace(s[j]);
      assert off <= i && j < off + |t|;
    }
  }

  /** `s.split(sep)` for a one-character separator: the pieces between the
      separators, in order, including empty pieces where separators are
      adjacent or at either end. */
  function Split(s: string, sep: char): (parts: seq<string>)
    ensures |parts| >= 1
    ensures forall k :: 0 <= k < |parts| ==> sep !in parts[k]
  {
    if s == [] then [""]
    else
      var rest := Split(s[1..], sep);
      if s[0] == sep then [""] + rest
      else [[s[0]] + rest[0]] + rest[1..]
  }

  /** `parts.join(sep)`. */
  function Join(parts: seq<string>, sep: char): string
    requires |parts| >= 1
  {
    if |parts| == 1 then parts[0] else parts[0] + [sep] + Join(parts[1..], sep)
  }

  /** The first two pieces of a join, and the join of the rest after them. */
  lemma JoinFirstTwo(parts: seq<string>, sep: char)
    requires |parts| >= 2
    ensures Join(parts, sep) ==
      parts[0] + [sep] + parts[1] + (if |parts| == 2 then [] else [sep] + Join(parts[2..], sep))
  {
    assert parts[1..][0] == parts[1];
    if |parts| > 2 {
      assert parts[1..][1..] == parts[2..];
    }
  }

  /** Splitting loses nothing: joining the pieces restores the string. */
  lemma {:induction false} JoinSplit(s: string, sep: char)
    ensures Join(Split(s, sep), sep) == s
  {
    if s != [] {
      JoinSplit(s[1..], sep);
      var rest := Split(s[1..], sep);
      if s[0] != sep {
        if |rest| == 1 {
          assert Split(s, sep) == [[s[0]] + rest[0]];
        } else {
          assert Split(s, sep)[1..] == rest[1..];
        }
      } else {
        assert Split(s, sep)[1..] == rest;
      }
    }
  }

  /** A piece before the first separator: splitting `w + [sep] + t` where `w`
      holds no separator yields `w` followed by the pieces of `t`. */
  lemma {:induction false} SplitAfterFirst(w: string, t: string, sep: char)
    requires sep !in w
    ensures Split(w + [sep] + t, sep) == [w] + Split(t, sep)
    decreases |w|
  {
    if w == [] {
      assert w + [sep] + t == [sep] + t;
      assert ([sep] + t)[1..] == t;
    } else {
      SplitAfterFirst(w[1..], t, sep);
      assert (w + [sep] + t)[1..] == w[1..] + [sep] + t;
      assert [w[0]] + w[1..] == w;
    }
  }

  /** A string without the separator is a single piece. */
  lemma {:induction false} SplitNoSeparator(s: string, sep: char)
    requires sep !in s
    ensures Split(s, sep) == [s]
  {
    if s != [] {
      SplitNoSeparator(s[1..], sep);
      assert [s[0]] + s[1..] == s;
    }
  }
}
