/** Small value types and string helpers shared by the other modules. */
module Text {

  datatype Option<T> = None | Some(value: T)

  /** The pieces of `s` between occurrences of `sep`, as `str::split` yields them:
      there is always at least one piece, and `k` separators give `k + 1` pieces. */
  function Split(s: string, sep: char): (r: seq<string>)
    ensures |r| >= 1
    decreases |s|
  {
    if s == [] then [[]]
    else
      var rest := Split(s[1..], sep);
      if s[0] == sep then [[]] + rest
      else [[s[0]] + rest[0]] + rest[1..]
  }

  /** A string with no separator in it is a single piece. */
  lemma {:induction false} SplitWithout(s: string, sep: char)
    requires sep !in s
    ensures Split(s, sep) == [s]
    decreases |s|
  {
    if s != [] {
      SplitWithout(s[1..], sep);
      assert [s[0]] + s[1..] == s;
    }
  }

  /** One step of `Split`: the first character either ends the first piece
      or is prepended to it. */
  lemma SplitCons(c: char, t: string, sep: char)
    ensures var rest := Split(t, sep);
      Split([c] + t, sep) == if c == sep then [[]] + rest else [[c] + rest[0]] + rest[1..]
  {
    assert ([c] + t)[0] == c && ([c] + t)[1..] == t;
  }

  /** Prefixing the first piece of a non-empty list commutes with appending more pieces. */
  lemma JoinFirst(p: string, left: seq<string>, right: seq<string>)
    requires |left| >= 1
    ensures [p + (left + right)[0]] + (left + right)[1..] == ([p + left[0]] + left[1..]) + right
  {
    assert (left + right)[0] == left[0];
    assert (left + right)[1..] == left[1..] + right;
  }

  /** The inductive step of `SplitAround` for a leading separator: it
      closes an empty first piece. */
  lemma SplitAroundSep(a: string, sep: char, b: string)
    requires Split(a + [sep] + b, sep) == Split(a, sep) + Split(b, sep)
    ensures Split([sep] + a + [sep] + b, sep) == Split([sep] + a, sep) + Split(b, sep)
  {
    var t := a + [sep] + b;
    assert [sep] + a + [sep] + b == [sep] + t;
    SplitCons(sep, t, sep);
    SplitCons(sep, a, sep);
    var left := Split(a, sep);
    var right := Split(b, sep);
    assert [[]] + (left + right) == ([[]] + left) + right;
  }

  /** The inductive step of `SplitAround` for any other leading character:
      it joins the first piece. */
  lemma SplitAroundChar(c: char, a: string, sep: char, b: string)
    requires c != sep
    requires Split(a + [sep] + b, sep) == Split(a, sep) + Split(b, sep)
    ensures Split([c] + a + [sep] + b, sep) == Split([c] + a, sep) + Split(b, sep)
  {
    var t := a + [sep] + b;
    assert [c] + a + [sep] + b == [c] + t;
    SplitCons(c, t, sep);
    SplitCons(c, a, sep);
    JoinFirst([c], Split(a, sep), Split(b, sep));
  }

  /** Splitting at a separator splits the pieces of both sides apart. */
  lemma {:induction false} SplitAround(a: string, sep: char, b: string)
    ensures Split(a + [sep] + b, sep) == Split(a, sep) + Split(b, sep)
    decreases |a|
  {
    if a == [] {
      assert a + [sep] + b == [sep] + b;
      SplitCons(sep, b, sep);
    } else {
      SplitAround(a[1..], sep, b);
      if a[0] == sep {
        SplitAroundSep(a[1..], sep, b);
      } else {
        SplitAroundChar(a[0], a[1..], sep, b);
      }
      assert a == [a[0]] + a[1..];
    }
  }
}
