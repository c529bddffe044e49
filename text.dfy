/** The string operations the handler applies to payload fields:
    `str.split(sep)`, taking its last piece, and `str.lower()`. */
module Text {

  /** `s.split(sep)` for a one-character separator: the pieces between
      separators, in order; never empty, and no piece contains `sep`. */
  function Split(s: string, sep: char): (parts: seq<string>)
    ensures |parts| >= 1
    ensures forall i :: 0 <= i < |parts| ==> sep !in parts[i]
  {
    if s == [] then [[]]
    else
      var rest := Split(s[1..], sep);
      if s[0] == sep then [[]] + rest
      else [[s[0]] + rest[0]] + rest[1..]
  }

  /** `sep.join(parts)`. */
  function Join(parts: seq<string>, sep: char): string
    requires |parts| >= 1
  {
    if |parts| == 1 then parts[0]
    else parts[0] + [sep] + Join(parts[1..], sep)
  }

  /** Joining the pieces of a split gives back the original string. */
  lemma {:induction false} JoinSplit(s: string, sep: char)
    ensures Join(Split(s, sep), sep) == s
  {
    if s != [] {
      var rest := Split(s[1..], sep);
      JoinSplit(s[1..], sep);
      if s[0] == sep {
        assert Split(s, sep)[1..] == rest;
      } else if |rest| > 1 {
        assert Split(s, sep)[1..] == rest[1..];
      }
    }
  }

  /** Splitting a string that starts with a separator-free `a` puts `a`
      in front of the first piece. */
  lemma {:induction false} SplitPrefix(a: string, b: string, sep: char)
    requires sep !in a
    ensures Split(a + b, sep) == [a + Split(b, sep)[0]] + Split(b, sep)[1..]
  {
    if a != [] {
      assert (a + b)[0] == a[0] && (a + b)[1..] == a[1..] + b;
      SplitPrefix(a[1..], b, sep);
      var rest := Split(a[1..] + b, sep);
      assert rest[0] == a[1..] + Split(b, sep)[0];
      assert rest[1..] == Split(b, sep)[1..];
      assert Split(a + b, sep) == [[a[0]] + rest[0]] + rest[1..];
      assert [a[0]] + (a[1..] + Split(b, sep)[0]) == a + Split(b, sep)[0];
    } else {
      assert a + b == b;
      var parts := Split(b, sep);
      assert a + parts[0] == parts[0];
      assert parts == [parts[0]] + parts[1..];
    }
  }

  /** Splitting the join of separator-free pieces gives back the pieces. */
  lemma {:induction false} SplitJoin(parts: seq<string>, sep: char)
    requires |parts| >= 1
    requires forall i :: 0 <= i < |parts| ==> sep !in parts[i]
    ensures Split(Join(parts, sep), sep) == parts
  {
    if |parts| == 1 {
      SplitPrefix(parts[0], [], sep);
      assert parts[0] + [] == parts[0];
    } else {
      var tail := Join(parts[1..], sep);
      SplitJoin(parts[1..], sep);
      SplitPrefix(parts[0], [sep] + tail, sep);
      assert parts[0] + [sep] + tail == parts[0] + ([sep] + tail);
      assert ([sep] + tail)[0] == sep && ([sep] + tail)[1..] == tail;
      var after := Split([sep] + tail, sep);
      assert after == [[]] + parts[1..];
      assert after[0] == [] && after[1..] == parts[1..];
      assert parts[0] + after[0] == parts[0];
      assert parts == [parts[0]] + parts[1..];
    }
  }

  /** `r` is the part of `s` after its last `sep`: a suffix of `s` free of
      `sep` that is either all of `s` or preceded by a `sep`. */
  ghost predicate IsLastSegment(s: string, r: string, sep: char)
  {
    && |r| <= |s|
    && r == s[|s| - |r|..]
    && sep !in r
    && (|r| == |s| || s[|s| - |r| - 1] == sep)
  }

  lemma {:induction false} LastPieceOfSplit(s: string, sep: char)
    ensures IsLastSegment(s, Split(s, sep)[|Split(s, sep)| - 1], sep)
  {
    if s != [] {
      var rest := Split(s[1..], sep);
      var r := rest[|rest| - 1];
      LastPieceOfSplit(s[1..], sep);
      assert s[1..][|s[1..]| - |r|..] == s[|s| - |r|..];
      if s[0] == sep {
        assert Split(s, sep)[|Split(s, sep)| - 1] == r;
      } else if |rest| == 1 {
        JoinSplit(s[1..], sep);
        assert Split(s, sep) == [[s[0]] + s[1..]];
        assert [s[0]] + s[1..] == s;
      } else {
        assert Split(s, sep)[|Split(s, sep)| - 1] == r;
        JoinSplit(s[1..], sep);
        assert Join(rest, sep) == rest[0] + [sep] + Join(rest[1..], sep);
        assert sep in s[1..] by {
          assert s[1..][|rest[0]|] == sep;
        }
      }
    }
  }

  /** At most one string is the last segment of `s`. */
  lemma LastSegmentUnique(s: string, r1: string, r2: string, sep: char)
    requires IsLastSegment(s, r1, sep) && IsLastSegment(s, r2, sep)
    ensures r1 == r2
  {
  }

  /** `s.split('/')[-1]`: the text after the last `/`, or `s` itself when
      there is none. */
  function LastSegment(s: string): (r: string)
    ensures IsLastSegment(s, r, '/')
    ensures '/' !in s ==> r == s
  {
    var parts := Split(s, '/');
    LastPieceOfSplit(s, '/');
    parts[|parts| - 1]
  }

  /** The branch names the handler derives from two typical refs. */
  lemma LastSegmentExamples()
    ensures LastSegment("refs/heads/feature/x") == "x"
    ensures LastSegment("main") == "main"
  {
  }

  predicate IsUpper(c: char)
  {
    'A' <= c <= 'Z'
  }

  /** `c.lower()` for ASCII; every other character is its own lower case here. */
  function LowerChar(c: char): (d: char)
    ensures !IsUpper(d)
    ensures IsUpper(c) ==> d as int == c as int + 32
    ensures !IsUpper(c) ==> d == c
  {
    if IsUpper(c) then (c as int + 32) as char else c
  }

  /** `s.lower()`, character by character. */
  function Lower(s: string): (r: string)
    ensures |r| == |s|
    ensures forall i :: 0 <= i < |s| ==> r[i] == LowerChar(s[i])
  {
    if s == [] then [] else [LowerChar(s[0])] + Lower(s[1..])
  }
}
