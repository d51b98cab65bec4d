/** The `Array.prototype` operations the console's reducers are built
    from, `filter`, `map` and `join("\n")`, with the splitting that undoes
    the join. */
module Arrays {

  /** `s.filter(keep)`: exactly the elements that pass, in their order. */
  function Filter<T>(s: seq<T>, keep: T -> bool): (r: seq<T>)
    ensures |r| <= |s|
    ensures forall x | x in r :: x in s && keep(x)
    ensures forall x | x in s && keep(x) :: x in r
  {
    if s == [] then []
    else if keep(s[0]) then [s[0]] + Filter(s[1..], keep)
    else Filter(s[1..], keep)
  }

  /** Filtering distributes over concatenation, so the survivors keep
      their relative order. */
  lemma {:induction false} FilterAppend<T>(a: seq<T>, b: seq<T>, keep: T -> bool)
    ensures Filter(a + b, keep) == Filter(a, keep) + Filter(b, keep)
  {
    if a == [] {
      assert a + b == b;
    } else {
      assert (a + b)[1..] == a[1..] + b;
      FilterAppend(a[1..], b, keep);
    }
  }

  /** Filtering keeps a sequence whole exactly when every element passes. */
  lemma {:induction false} FilterKeepsAll<T>(s: seq<T>, keep: T -> bool)
    ensures Filter(s, keep) == s <==> forall x | x in s :: keep(x)
  {
    if s != [] {
      FilterKeepsAll(s[1..], keep);
      if !keep(s[0]) {
        assert |Filter(s, keep)| < |s|;
      }
    }
  }

  /** `s.map(f)`: one image per element, in order. */
  function Map<T, U>(s: seq<T>, f: T -> U): (r: seq<U>)
    ensures |r| == |s|
    ensures forall i | 0 <= i < |s| :: r[i] == f(s[i])
  {
    if s == [] then [] else [f(s[0])] + Map(s[1..], f)
  }

  /** Mapping distributes over concatenation. */
  lemma {:induction false} MapAppend<T, U>(a: seq<T>, b: seq<T>, f: T -> U)
    ensures Map(a + b, f) == Map(a, f) + Map(b, f)
  {
    if a == [] {
      assert a + b == b;
    } else {
      assert (a + b)[1..] == a[1..] + b;
      MapAppend(a[1..], b, f);
    }
  }

  /** `lines.join("\n")`: no separator after the last line. */
  function JoinLines(lines: seq<string>): (r: string)
    ensures lines == [] ==> r == []
    ensures |lines| == 1 ==> r == lines[0]
  {
    if lines == [] then []
    else if |lines| == 1 then lines[0]
    else lines[0] + "\n" + JoinLines(lines[1..])
  }

  /** `s.split("\n")`: always at least one piece. */
  function SplitLines(s: string): (r: seq<string>)
    ensures |r| >= 1
  {
    if s == [] then [[]]
    else
      var rest := SplitLines(s[1..]);
      if s[0] == '\n' then [[]] + rest
      else [[s[0]] + rest[0]] + rest[1..]
  }

  /** A character other than a newline joins the first piece. */
  lemma SplitNonNewline(c: char, s: string)
    requires c != '\n'
    ensures SplitLines([c] + s) == [[c] + SplitLines(s)[0]] + SplitLines(s)[1..]
  {
    assert ([c] + s)[0] == c && ([c] + s)[1..] == s;
  }

  /** A line without a newline runs up to the first separator. */
  lemma {:induction false} SplitLinePrefix(line: string, tail: string)
    requires '\n' !in line
    ensures SplitLines(line + tail)
         == [line + SplitLines(tail)[0]] + SplitLines(tail)[1..]
  {
    var r := SplitLines(tail);
    if line != [] {
      assert line[0] in line;
      assert line + tail == [line[0]] + (line[1..] + tail);
      SplitNonNewline(line[0], line[1..] + tail);
      SplitLinePrefix(line[1..], tail);
      assert [line[0]] + (line[1..] + r[0]) == line + r[0];
    } else {
      assert line + tail == tail && line + r[0] == r[0];
      assert [r[0]] + r[1..] == r;
    }
  }

  /** Splitting undoes joining when no line holds a newline: the lines of
      the joined text are the joined lines, one for one, in order. */
  lemma {:induction false} SplitJoin(lines: seq<string>)
    requires lines != []
    requires forall l | l in lines :: '\n' !in l
    ensures SplitLines(JoinLines(lines)) == lines
  {
    if |lines| == 1 {
      SplitLinePrefix(lines[0], []);
      assert lines[0] + [] == lines[0];
    } else {
      var rest := JoinLines(lines[1..]);
      SplitJoin(lines[1..]);
      assert "\n" + rest == ['\n'] + rest;
      assert SplitLines("\n" + rest) == [[]] + SplitLines(rest) by {
        assert ("\n" + rest)[1..] == rest;
      }
      assert lines[0] + "\n" + rest == lines[0] + ("\n" + rest);
      SplitLinePrefix(lines[0], "\n" + rest);
      assert lines[0] + [] == lines[0];
    }
  }

  /** The joined text ends in a newline only if its last line is empty. */
  lemma {:induction false} JoinLinesLast(lines: seq<string>)
    requires lines != [] && lines[|lines| - 1] != []
    ensures JoinLines(lines) != []
    ensures JoinLines(lines)[|JoinLines(lines)| - 1] == lines[|lines| - 1][|lines[|lines| - 1]| - 1]
  {
    if |lines| > 1 {
      JoinLinesLast(lines[1..]);
    }
  }

  /** Lines produced one per item and free of newlines are recovered by
      splitting their join. */
  lemma SplitJoinMap<T>(xs: seq<T>, f: T -> string)
    requires xs != []
    requires forall x | x in xs :: '\n' !in f(x)
    ensures SplitLines(JoinLines(Map(xs, f))) == Map(xs, f)
  {
    var lines := Map(xs, f);
    forall l | l in lines ensures '\n' !in l {
      var i :| 0 <= i < |lines| && lines[i] == l;
      assert xs[i] in xs;
    }
    SplitJoin(lines);
  }
}
