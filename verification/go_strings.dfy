/**
 * `strings.Split` for a one-character separator, as `main` uses it to cut
 * `"<rolls>d<sides>"` at the `d`, with its inverse `Join`.
 */
module GoStrings {

  /** The number of occurrences of `c` in `s`. */
  function Count(s: string, c: char): nat
    decreases |s|
  {
    if s == [] then 0
    else Count(s[..|s| - 1], c) + (if s[|s| - 1] == c then 1 else 0)
  }

  /** `strings.Join(pieces, string(sep))`. */
  function Join(pieces: seq<string>, sep: char): string
    requires |pieces| >= 1
    decreases |pieces|
  {
    if |pieces| == 1 then pieces[0]
    else Join(pieces[..|pieces| - 1], sep) + [sep] + pieces[|pieces| - 1]
  }

  /**
   * `strings.Split(s, string(sep))`: the pieces of `s` between the
   * separators. There is always one more piece than separators (the empty
   * string splits into one empty piece), no piece holds the separator, and
   * joining the pieces back gives `s`.
   */
  function Split(s: string, sep: char): (pieces: seq<string>)
    ensures |pieces| == Count(s, sep) + 1
    ensures forall i :: 0 <= i < |pieces| ==> sep !in pieces[i]
    ensures Join(pieces, sep) == s
    decreases |s|
  {
    if s == [] then [[]]
    else
      var init := Split(s[..|s| - 1], sep);
      var c := s[|s| - 1];
      assert s == s[..|s| - 1] + [c];
      if c == sep then
        assert (init + [[]])[..|init|] == init;
        init + [[]]
      else
        var n := |init| - 1;
        var pieces := init[..n] + [init[n] + [c]];
        JoinExtendLast(init, c, sep);
        pieces
  }

  /** Extending the last piece extends the joined string. */
  lemma JoinExtendLast(pieces: seq<string>, c: char, sep: char)
    requires |pieces| >= 1
    ensures var n := |pieces| - 1;
      Join(pieces[..n] + [pieces[n] + [c]], sep) == Join(pieces, sep) + [c]
  {
    var n := |pieces| - 1;
    var ext := pieces[..n] + [pieces[n] + [c]];
    if n > 0 {
      assert ext[..n] == pieces[..n];
    }
  }

  /** A string without the separator is one piece. */
  lemma {:induction false} SplitWhole(p: string, sep: char)
    requires sep !in p
    ensures Split(p, sep) == [p]
    decreases |p|
  {
    if p != [] {
      SplitWhole(p[..|p| - 1], sep);
      assert p == p[..|p| - 1] + [p[|p| - 1]];
    }
  }

  /** Appending a separator and a separator-free piece appends that piece. */
  lemma {:induction false} SplitExtend(x: string, p: string, sep: char)
    requires sep !in p
    ensures Split(x + [sep] + p, sep) == Split(x, sep) + [p]
    decreases |p|
  {
    var s := x + [sep] + p;
    if p == [] {
      assert s == x + [sep];
      assert s[..|s| - 1] == x;
    } else {
      var n := |p| - 1;
      assert s[..|s| - 1] == x + [sep] + p[..n];
      assert p == p[..n] + [p[n]];
      SplitExtend(x, p[..n], sep);
    }
  }

  /** Splitting undoes joining separator-free pieces. */
  lemma {:induction false} SplitJoin(pieces: seq<string>, sep: char)
    requires |pieces| >= 1
    requires forall i :: 0 <= i < |pieces| ==> sep !in pieces[i]
    ensures Split(Join(pieces, sep), sep) == pieces
    decreases |pieces|
  {
    if |pieces| == 1 {
      SplitWhole(pieces[0], sep);
    } else {
      var n := |pieces| - 1;
      SplitJoin(pieces[..n], sep);
      SplitExtend(Join(pieces[..n], sep), pieces[n], sep);
      assert pieces == pieces[..n] + [pieces[n]];
    }
  }

  /** Splitting yields exactly two pieces if and only if the separator occurs exactly once. */
  lemma TwoPiecesIffOneSeparator(s: string, sep: char)
    ensures |Split(s, sep)| == 2 <==> Count(s, sep) == 1
  {
  }
}
