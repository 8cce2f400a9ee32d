/**
 * The two PHP string primitives the client relies on: `strpos`, read through
 * PHP's loose truthiness, and `join` with a one-character glue. `Split` is the
 * inverse of `Join` (PHP's `explode`), used to state what a joined form field
 * carries.
 */
module PhpStrings {
  import opened Dom

  /** `needle` occurs in `haystack` starting at index `k`. */
  predicate IsAt(haystack: string, needle: string, k: nat)
  {
    k + |needle| <= |haystack| && haystack[k..k + |needle|] == needle
  }

  predicate Contains(haystack: string, needle: string)
  {
    exists k: nat :: k <= |haystack| && IsAt(haystack, needle, k)
  }

  predicate StartsWith(haystack: string, needle: string)
  {
    IsAt(haystack, needle, 0)
  }

  /** The first occurrence of `needle` at or after `from`. */
  function FindFrom(haystack: string, needle: string, from: nat): (r: Option<nat>)
    decreases |haystack| - from
    ensures r.Some? ==> from <= r.value && IsAt(haystack, needle, r.value)
    ensures r.Some? ==> forall k: nat :: from <= k < r.value ==> !IsAt(haystack, needle, k)
    ensures r.None? ==> forall k: nat :: from <= k ==> !IsAt(haystack, needle, k)
  {
    if from + |needle| > |haystack| then None
    else if haystack[from..from + |needle|] == needle then Some(from)
    else FindFrom(haystack, needle, from + 1)
  }

  /**
   * PHP `strpos`: the index of the first occurrence of `needle`, or `None` for
   * PHP's `false`. An empty needle is found at 0, as in PHP 8.
   */
  function StrPos(haystack: string, needle: string): (r: Option<nat>)
    ensures r.Some? ==> IsAt(haystack, needle, r.value)
    ensures r.Some? ==> forall k: nat :: k < r.value ==> !IsAt(haystack, needle, k)
    ensures r.None? <==> !Contains(haystack, needle)
  {
    FindFrom(haystack, needle, 0)
  }

  /**
   * PHP's loose reading of a `strpos` result as a boolean: both `false` and the
   * index 0 are falsy, so only an occurrence found after the first character is
   * true. This is what `strpos(...) == True` and `!strpos(...)` test.
   */
  predicate Truthy(position: Option<nat>)
  {
    position.Some? && position.value != 0
  }

  /** A `strpos` result is truthy exactly when the needle occurs but not at the start. */
  lemma StrPosTruthy(haystack: string, needle: string)
    ensures Truthy(StrPos(haystack, needle))
      <==> Contains(haystack, needle) && !StartsWith(haystack, needle)
  {
    var p := StrPos(haystack, needle);
    if Contains(haystack, needle) {
      assert p.Some?;
      if StartsWith(haystack, needle) {
        assert p.value == 0;
      }
    }
  }

  /** PHP `join` (alias of `implode`) with a single-character glue. */
  function Join(parts: seq<string>, glue: char): string
  {
    if |parts| == 0 then ""
    else if |parts| == 1 then parts[0]
    else parts[0] + [glue] + Join(parts[1..], glue)
  }

  /** PHP `explode` on a single character: the pieces between separators. */
  function Split(s: string, separator: char): (pieces: seq<string>)
    ensures |pieces| >= 1
  {
    if s == [] then [""]
    else
      var rest := Split(s[1..], separator);
      if s[0] == separator then [""] + rest
      else [[s[0]] + rest[0]] + rest[1..]
  }

  lemma {:induction false} SplitWithoutSeparator(s: string, separator: char)
    requires separator !in s
    ensures Split(s, separator) == [s]
  {
    if s != [] {
      SplitWithoutSeparator(s[1..], separator);
      assert [s[0]] + s[1..] == s;
    }
  }

  lemma {:induction false} SplitAfterPiece(piece: string, rest: string, separator: char)
    requires separator !in piece
    ensures Split(piece + [separator] + rest, separator) == [piece] + Split(rest, separator)
  {
    var s := piece + [separator] + rest;
    if piece == [] {
      assert s[1..] == rest;
    } else {
      assert s[1..] == piece[1..] + [separator] + rest;
      SplitAfterPiece(piece[1..], rest, separator);
      assert [piece[0]] + piece[1..] == piece;
    }
  }

  /**
   * Joining pieces that do not contain the glue and splitting the result on the
   * glue gives the pieces back. The empty list is excluded: it joins to "", which
   * splits to [""].
   */
  lemma {:induction false} SplitJoin(parts: seq<string>, glue: char)
    requires |parts| >= 1
    requires forall i :: 0 <= i < |parts| ==> glue !in parts[i]
    ensures Split(Join(parts, glue), glue) == parts
  {
    if |parts| == 1 {
      SplitWithoutSeparator(parts[0], glue);
    } else {
      SplitJoin(parts[1..], glue);
      SplitAfterPiece(parts[0], Join(parts[1..], glue), glue);
      assert [parts[0]] + parts[1..] == parts;
    }
  }
}
