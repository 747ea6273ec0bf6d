/** String helpers with the semantics of the JavaScript built-ins the source
    relies on: `String.prototype.split` on a single character, `Array.join`,
    `String.prototype.trim` and `Array.prototype.pop` on a split result. */
module Strings {

  /** `parts.join([sep])`; a split always yields at least one part. */
  function Join(parts: seq<string>, sep: char): string
    requires |parts| >= 1
    decreases |parts|
  {
    if |parts| == 1 then parts[0] else parts[0] + [sep] + Join(parts[1..], sep)
  }

  /** `s.split(sep)` for a one-character separator: every occurrence of `sep`
      ends a part, so repeated separators give empty parts and the empty
      string gives `[""]`. Splitting and joining are inverse. */
  function Split(s: string, sep: char): (parts: seq<string>)
    ensures |parts| >= 1
    ensures forall i :: 0 <= i < |parts| ==> sep !in parts[i]
    ensures Join(parts, sep) == s
    decreases |s|
  {
    if s == [] then [""]
    else
      var rest := Split(s[1..], sep);
      if s[0] == sep then [""] + rest
      else
        assert Join(rest, sep) == s[1..];
        var parts := [[s[0]] + rest[0]] + rest[1..];
        assert parts[1..] == rest[1..];
        parts
  }

  /** Joining parts that contain no separator and splitting again gives the
      parts back. */
  lemma {:induction false} SplitJoin(parts: seq<string>, sep: char)
    requires |parts| >= 1
    requires forall i :: 0 <= i < |parts| ==> sep !in parts[i]
    ensures Split(Join(parts, sep), sep) == parts
    decreases |parts|, |parts[0]|
  {
    var s := Join(parts, sep);
    if |parts| == 1 {
      SplitNoSep(parts[0], sep);
    } else if parts[0] == [] {
      assert s == [sep] + Join(parts[1..], sep);
      assert s[1..] == Join(parts[1..], sep);
      SplitJoin(parts[1..], sep);
    } else {
      var tail := [parts[0][1..]] + parts[1..];
      assert tail[1..] == parts[1..];
      assert Join(tail, sep) == parts[0][1..] + [sep] + Join(parts[1..], sep);
      assert s == [parts[0][0]] + Join(tail, sep);
      assert s[1..] == Join(tail, sep);
      assert parts[0][0] != sep by { assert parts[0][0] in parts[0]; }
      forall i | 0 <= i < |tail| ensures sep !in tail[i] {
        if i == 0 {
          assert forall c :: c in parts[0][1..] ==> c in parts[0];
        } else {
          assert tail[i] == parts[i];
        }
      }
      SplitJoin(tail, sep);
      assert [parts[0][0]] + parts[0][1..] == parts[0];
    }
  }

  lemma {:induction false} SplitNoSep(s: string, sep: char)
    requires sep !in s
    ensures Split(s, sep) == [s]
    decreases |s|
  {
    if s != [] {
      assert forall c :: c in s[1..] ==> c in s;
      SplitNoSep(s[1..], sep);
      assert [s[0]] + s[1..] == s;
    }
  }

  /** `parts.pop()` on a non-empty array: its last element. */
  function Last<T>(parts: seq<T>): (x: T)
    requires |parts| >= 1
    ensures x in parts
  {
    parts[|parts| - 1]
  }

  /** Joining splits off the last part behind the final separator. */
  lemma {:induction false} JoinSnoc(parts: seq<string>, sep: char)
    requires |parts| >= 2
    ensures Join(parts, sep) == Join(parts[..|parts| - 1], sep) + [sep] + Last(parts)
    decreases |parts|
  {
    if |parts| > 2 {
      JoinSnoc(parts[1..], sep);
      assert parts[1..][..|parts| - 2] == parts[..|parts| - 1][1..];
    }
  }

  /** The last part of a split is a suffix of the input without `sep`, and
      it is preceded by `sep` whenever it is not the whole input. */
  lemma SplitLast(s: string, sep: char)
    ensures var v := Last(Split(s, sep));
      |v| <= |s| && v == s[|s| - |v|..] && sep !in v &&
      (|v| < |s| ==> s[|s| - |v| - 1] == sep)
  {
    var parts := Split(s, sep);
    if |parts| >= 2 {
      JoinSnoc(parts, sep);
      var front := Join(parts[..|parts| - 1], sep);
      assert s == front + [sep] + Last(parts);
      assert s[|s| - |Last(parts)| - 1] == sep;
    }
  }

  // ---------------------------------------------------------------------------
  // `String.prototype.trim`

  /** The characters ECMAScript's `trim` removes: WhiteSpace (TAB, VT, FF,
      SPACE, NO-BREAK SPACE, ZERO WIDTH NO-BREAK SPACE and the Unicode
      space separators) and LineTerminator (LF, CR, LS, PS). */
  predicate IsJsWhitespace(c: char) {
    var n := c as int;
    (9 <= n <= 13) || n == 0x20 || n == 0xA0 || n == 0x1680 ||
    (0x2000 <= n <= 0x200A) || n == 0x2028 || n == 0x2029 || n == 0x202F ||
    n == 0x205F || n == 0x3000 || n == 0xFEFF
  }

  /** Removes trailing whitespace: the result is a prefix of `s`, everything
      cut off is whitespace, and the result does not end in whitespace. */
  function TrimEnd(s: string): (r: string)
    ensures |r| <= |s| && r == s[..|r|]
    ensures forall i :: |r| <= i < |s| ==> IsJsWhitespace(s[i])
    ensures r == [] || !IsJsWhitespace(r[|r| - 1])
    decreases |s|
  {
    if s != [] && IsJsWhitespace(s[|s| - 1]) then TrimEnd(s[..|s| - 1]) else s
  }

  /** Removes leading whitespace: the result is a suffix of `s`, everything
      cut off is whitespace, and the result does not start with whitespace. */
  function TrimStart(s: string): (r: string)
    ensures |r| <= |s| && r == s[|s| - |r|..]
    ensures forall i :: 0 <= i < |s| - |r| ==> IsJsWhitespace(s[i])
    ensures r == [] || !IsJsWhitespace(r[0])
    decreases |s|
  {
    if s != [] && IsJsWhitespace(s[0]) then TrimStart(s[1..]) else s
  }

  /** `s.trim()`: the infix `s[i..j]` of `s` left after removing leading and
      trailing whitespace (`TrimEnd(s)` says where it stops). It is empty exactly when `s` is all whitespace,
      and otherwise begins and ends with a non-whitespace character. */
  function Trim(s: string): (r: string)
    ensures var e := TrimEnd(s); |r| <= |e| <= |s| && r == s[|e| - |r|..|e|]
    ensures var e := TrimEnd(s); forall i :: 0 <= i < |e| - |r| ==> IsJsWhitespace(s[i])
    ensures var e := TrimEnd(s); forall i :: |e| <= i < |s| ==> IsJsWhitespace(s[i])
    ensures r == [] <==> forall i :: 0 <= i < |s| ==> IsJsWhitespace(s[i])
    ensures r != [] ==> !IsJsWhitespace(r[0]) && !IsJsWhitespace(r[|r| - 1])
  {
    TrimParts(s);
    TrimStart(TrimEnd(s))
  }

  lemma TrimParts(s: string)
    ensures var e := TrimEnd(s); var r := TrimStart(e);
      && r == s[|e| - |r|..|e|]
      && (forall i :: 0 <= i < |e| - |r| ==> IsJsWhitespace(s[i]))
      && (r == [] <==> forall i :: 0 <= i < |s| ==> IsJsWhitespace(s[i]))
  {
    var e := TrimEnd(s);
    var r := TrimStart(e);
    forall i | 0 <= i < |e| - |r| ensures IsJsWhitespace(s[i]) {
      assert s[i] == e[i];
    }
    if r == [] {
      forall k | 0 <= k < |s| ensures IsJsWhitespace(s[k]) {
        if k < |e| { assert s[k] == e[k]; }
      }
    } else {
      assert r[0] == s[|e| - |r|];
    }
  }
}
