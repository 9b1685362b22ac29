/**
 * The JavaScript string operations the extension relies on, for a
 * one-character separator: `split`, `includes`, and the two reference
 * definitions "text before the first c" and "text after the last c"
 * that characterise what `split` followed by `[0]` or `pop()` returns.
 */
module JsString {
  import opened Wrappers

  /** Joins pieces with a separator: `parts.join(sep)`. */
  function Join(parts: seq<string>, sep: char): string
    requires |parts| >= 1
  {
    if |parts| == 1 then parts[0] else parts[0] + [sep] + Join(parts[1..], sep)
  }

  /**
   * `s.split(sep)`: the pieces between occurrences of `sep`, in order.
   * There is always at least one piece (`"".split("/")` is `[""]`), no piece
   * contains the separator, and joining the pieces gives `s` back.
   */
  function Split(s: string, sep: char): (parts: seq<string>)
    ensures |parts| >= 1
    ensures Join(parts, sep) == s
    ensures forall i :: 0 <= i < |parts| ==> sep !in parts[i]
  {
    if |s| == 0 then [""]
    else
      var rest := Split(s[1..], sep);
      if s[0] == sep then
        assert [""] + rest == [""] + rest[0..];
        [""] + rest
      else
        var parts := [[s[0]] + rest[0]] + rest[1..];
        assert parts[1..] == rest[1..];
        assert s == [s[0]] + s[1..];
        assert |rest| > 1 ==> Join(rest, sep) == rest[0] + [sep] + Join(rest[1..], sep);
        parts
  }

  /** The text before the first `c` of `s`, or all of `s` when there is none. */
  function BeforeFirst(s: string, c: char): (r: string)
    ensures r <= s
    ensures c !in r
    ensures |r| < |s| ==> s[|r|] == c
  {
    if |s| == 0 || s[0] == c then "" else [s[0]] + BeforeFirst(s[1..], c)
  }

  /** The text after the last `c` of `s`, or all of `s` when there is none. */
  function AfterLast(s: string, c: char): (r: string)
    ensures |r| <= |s| && s[|s| - |r|..] == r
    ensures c !in r
    ensures |r| < |s| ==> s[|s| - |r| - 1] == c
  {
    if |s| == 0 || s[|s| - 1] == c then ""
    else
      var init := s[..|s| - 1];
      var r := AfterLast(init, c);
      assert s[|s| - |r| - 1..] == init[|init| - |r|..] + [s[|s| - 1]];
      r + [s[|s| - 1]]
  }

  /** `needle` occurs in `hay` starting at index `i`. */
  predicate OccursAt(hay: string, needle: string, i: int)
  {
    0 <= i <= |hay| - |needle| && hay[i..i + |needle|] == needle
  }

  /** An occurrence past the first character is an occurrence in the tail. */
  lemma OccursAtShift(hay: string, needle: string, i: int)
    requires |hay| > 0 && i >= 1
    ensures OccursAt(hay, needle, i) <==> OccursAt(hay[1..], needle, i - 1)
  {
    if i <= |hay| - |needle| {
      assert hay[i..i + |needle|] == hay[1..][i - 1..i - 1 + |needle|];
    }
  }

  /** `hay.includes(needle)`: `needle` occurs somewhere in `hay`. */
  function Includes(hay: string, needle: string): (r: bool)
    ensures r <==> exists i :: OccursAt(hay, needle, i)
  {
    if needle <= hay then
      assert OccursAt(hay, needle, 0);
      true
    else if |hay| == 0 then
      false
    else
      var r := Includes(hay[1..], needle);
      if r then
        var i :| OccursAt(hay[1..], needle, i);
        assert hay[i + 1..i + 1 + |needle|] == hay[1..][i..i + |needle|];
        assert OccursAt(hay, needle, i + 1);
        r
      else
        forall i ensures !OccursAt(hay, needle, i) {
          if i >= 1 {
            OccursAtShift(hay, needle, i);
          }
        }
        r
  }

  /** A character of a piece is a character of the joined string. */
  lemma {:induction false} PieceCharsInJoin(parts: seq<string>, sep: char, i: nat, x: char)
    requires |parts| >= 1 && i < |parts|
    ensures x in parts[i] ==> x in Join(parts, sep)
  {
    if i > 0 {
      PieceCharsInJoin(parts[1..], sep, i - 1, x);
    }
  }

  /** `split` yields two or more pieces exactly when the separator occurs. */
  lemma {:induction false} SplitHasSeveralPiecesIff(s: string, sep: char)
    ensures |Split(s, sep)| >= 2 <==> sep in s
  {
    if |s| > 0 {
      SplitHasSeveralPiecesIff(s[1..], sep);
      assert s == [s[0]] + s[1..];
    }
  }

  /** The first piece of `split` is the text before the first separator. */
  lemma {:induction false} FirstPieceIsBeforeFirst(s: string, sep: char)
    ensures Split(s, sep)[0] == BeforeFirst(s, sep)
  {
    if |s| > 0 && s[0] != sep {
      FirstPieceIsBeforeFirst(s[1..], sep);
    }
  }

  /** Joining splits off the last piece after the last separator. */
  lemma {:induction false} JoinLast(parts: seq<string>, sep: char)
    requires |parts| >= 2
    ensures Join(parts, sep) == Join(parts[..|parts| - 1], sep) + [sep] + parts[|parts| - 1]
  {
    if |parts| > 2 {
      JoinLast(parts[1..], sep);
      assert parts[1..][..|parts| - 2] == parts[..|parts| - 1][1..];
    }
  }

  /** Any suffix free of `c` and preceded by `c` (or the whole text) is `AfterLast`. */
  lemma AfterLastUnique(s: string, c: char, r: string)
    requires |r| <= |s| && s[|s| - |r|..] == r && c !in r
    requires |r| < |s| ==> s[|s| - |r| - 1] == c
    ensures r == AfterLast(s, c)
  {
  }

  /** In `prefix + sep + r`, `r` is the suffix that follows the separator. */
  lemma SuffixAfterSeparator(prefix: string, sep: char, r: string)
    ensures var s := prefix + [sep] + r;
            s[|s| - |r|..] == r && s[|s| - |r| - 1] == sep
  {
  }

  /** The last piece of `split` (what `pop()` returns) is the text after the last separator. */
  lemma LastPieceIsAfterLast(s: string, sep: char)
    ensures Last(Split(s, sep)) == AfterLast(s, sep)
  {
    var parts := Split(s, sep);
    var r := Last(parts);
    if |parts| >= 2 {
      JoinLast(parts, sep);
      SuffixAfterSeparator(Join(parts[..|parts| - 1], sep), sep, r);
    }
    AfterLastUnique(s, sep, r);
  }

  /** Splitting a text that holds no separator gives that text as the one piece. */
  lemma {:induction false} SplitWithoutSeparator(s: string, sep: char)
    requires sep !in s
    ensures Split(s, sep) == [s]
  {
    if |s| > 0 {
      SplitWithoutSeparator(s[1..], sep);
      assert s == [s[0]] + s[1..];
    }
  }

  /** Splitting `p + sep + t`, with `p` free of the separator, peels off `p`. */
  lemma {:induction false} SplitAfterPiece(p: string, sep: char, t: string)
    requires sep !in p
    ensures Split(p + [sep] + t, sep) == [p] + Split(t, sep)
  {
    var s := p + [sep] + t;
    if |p| > 0 {
      assert s[0] == p[0] != sep;
      assert s[1..] == p[1..] + [sep] + t;
      SplitAfterPiece(p[1..], sep, t);
      var rest := Split(s[1..], sep);
      assert rest == [p[1..]] + Split(t, sep);
      assert Split(s, sep) == [[s[0]] + rest[0]] + rest[1..];
      assert [s[0]] + rest[0] == p;
    } else {
      assert s[0] == sep;
      assert s[1..] == t;
    }
  }

  /** `split` inverts `join` whenever no piece holds the separator. */
  lemma {:induction false} SplitJoin(parts: seq<string>, sep: char)
    requires |parts| >= 1
    requires forall i :: 0 <= i < |parts| ==> sep !in parts[i]
    ensures Split(Join(parts, sep), sep) == parts
  {
    if |parts| == 1 {
      SplitWithoutSeparator(parts[0], sep);
    } else {
      SplitJoin(parts[1..], sep);
      SplitAfterPiece(parts[0], sep, Join(parts[1..], sep));
      assert parts == [parts[0]] + parts[1..];
    }
  }
}
