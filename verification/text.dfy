/** The string plumbing the formatters rely on: Python's `sep.join(lines)`, its inverse
    (`str.split(sep)`), and splitting a bullet line at its first ": ". */
module Text {
  import opened Wrappers

  /** The newline character every tool joins its lines with. */
  const NL: char := '\n'

  /** `s` does not contain the character `c`. */
  predicate NoChar(s: string, c: char) {
    forall i :: 0 <= i < |s| ==> s[i] != c
  }

  /** Python's `sep.join(lines)` for a one-character separator. */
  function Join(lines: seq<string>, sep: char): string
  {
    if |lines| == 0 then ""
    else if |lines| == 1 then lines[0]
    else lines[0] + [sep] + Join(lines[1..], sep)
  }

  /** A non-empty join starts with its first line, then the separator when more follow. */
  lemma JoinStartsWithFirst(lines: seq<string>, sep: char)
    requires |lines| > 0
    ensures lines[0] <= Join(lines, sep)
    ensures |lines| > 1 ==> lines[0] + [sep] <= Join(lines, sep)
  {
    if |lines| > 1 {
      assert Join(lines, sep) == (lines[0] + [sep]) + Join(lines[1..], sep);
    } else {
      assert Join(lines, sep) == lines[0];
    }
  }

  /** Python's `s.split(sep)`: the pieces between separators, always at least one. */
  function Split(s: string, sep: char): (pieces: seq<string>)
    ensures |pieces| >= 1
    decreases |s|
  {
    if |s| == 0 then [""]
    else
      var rest := Split(s[1..], sep);
      if s[0] == sep then [""] + rest
      else [[s[0]] + rest[0]] + rest[1..]
  }

  /** A string free of the separator splits into itself. */
  lemma {:induction false} SplitNoSep(a: string, sep: char)
    requires NoChar(a, sep)
    ensures Split(a, sep) == [a]
    decreases |a|
  {
    if |a| > 0 {
      SplitNoSep(a[1..], sep);
      assert [a[0]] + a[1..] == a;
    }
  }

  /** A separator-free prefix is glued onto the first piece of what follows it. */
  lemma {:induction false} SplitPrefix(a: string, t: string, sep: char)
    requires NoChar(a, sep)
    ensures Split(a + t, sep) == [a + Split(t, sep)[0]] + Split(t, sep)[1..]
    decreases |a|
  {
    if |a| > 0 {
      assert (a + t)[1..] == a[1..] + t;
      SplitPrefix(a[1..], t, sep);
      assert [a[0]] + (a[1..] + Split(t, sep)[0]) == a + Split(t, sep)[0];
    } else {
      var pieces := Split(t, sep);
      assert a + t == t;
      assert a + pieces[0] == pieces[0];
      assert [pieces[0]] + pieces[1..] == pieces;
    }
  }

  /** Splitting undoes joining, as long as no line contains the separator:
      the joined text has exactly `|lines|` physical lines, in order. */
  lemma {:induction false} SplitJoin(lines: seq<string>, sep: char)
    requires |lines| >= 1
    requires forall i :: 0 <= i < |lines| ==> NoChar(lines[i], sep)
    ensures Split(Join(lines, sep), sep) == lines
    decreases |lines|
  {
    if |lines| == 1 {
      SplitNoSep(lines[0], sep);
    } else {
      var tail := Join(lines[1..], sep);
      SplitJoin(lines[1..], sep);
      assert Split([sep] + tail, sep) == [""] + lines[1..] by {
        assert ([sep] + tail)[1..] == tail;
      }
      assert Join(lines, sep) == lines[0] + ([sep] + tail);
      SplitPrefix(lines[0], [sep] + tail, sep);
      assert lines[0] + "" == lines[0];
      assert ([""] + lines[1..])[1..] == lines[1..];
      assert lines == [lines[0]] + lines[1..];
    }
  }

  /** Joining undoes splitting, for every string. */
  lemma {:induction false} JoinSplit(s: string, sep: char)
    ensures Join(Split(s, sep), sep) == s
    decreases |s|
  {
    if |s| > 0 {
      var rest := Split(s[1..], sep);
      JoinSplit(s[1..], sep);
      if s[0] == sep {
        assert ([""] + rest)[1..] == rest;
        assert [s[0]] + s[1..] == s;
      } else {
        var first := [s[0]] + rest[0];
        var pieces := [first] + rest[1..];
        assert pieces[1..] == rest[1..];
        if |rest| == 1 {
          assert Join(rest, sep) == rest[0];
        } else {
          assert Join(rest, sep) == rest[0] + [sep] + Join(rest[1..], sep);
        }
        assert [s[0]] + s[1..] == s;
      }
    }
  }

  /** The two characters that end the start-time field of a bullet line. */
  const FieldSep: string := ": "

  /** `s` contains no occurrence of ": ". */
  predicate NoFieldSep(s: string) {
    forall i :: 0 <= i < |s| - 1 ==> !(s[i] == ':' && s[i + 1] == ' ')
  }

  /** `s.split(": ", 1)`: the text before the first ": " and the text after it,
      or `None` when `s` holds no ": ". */
  function SplitAtFieldSep(s: string): (r: Option<(string, string)>)
    ensures r.Some? ==> r.value.0 + FieldSep + r.value.1 == s
    ensures r.Some? ==> NoFieldSep(r.value.0)
    decreases |s|
  {
    if |s| < 2 then None
    else if s[0] == ':' && s[1] == ' ' then Some(("", s[2..]))
    else
      match SplitAtFieldSep(s[1..])
      case None => None
      case Some((before, after)) => Some(([s[0]] + before, after))
  }

  /** The first ": " of `a + ": " + b` is the one after `a`, when `a` holds none itself. */
  lemma {:induction false} SplitAtFieldSepAfter(a: string, b: string)
    requires NoFieldSep(a)
    ensures SplitAtFieldSep(a + FieldSep + b) == Some((a, b))
    decreases |a|
  {
    var s := a + FieldSep + b;
    if |a| == 0 {
      assert s == FieldSep + b;
      assert s[2..] == b;
    } else {
      assert s[1] == (if |a| == 1 then ':' else a[1]);
      assert !(s[0] == ':' && s[1] == ' ');
      assert s[1..] == a[1..] + FieldSep + b;
      SplitAtFieldSepAfter(a[1..], b);
      assert [a[0]] + a[1..] == a;
    }
  }
}
