/** String helpers behind the request text: `str.startswith`, `"\n".join` and `str.split("\n")`. */
module Text {

  /** Python's `s.startswith(prefix)`. */
  predicate StartsWith(s: string, prefix: string) {
    |prefix| <= |s| && s[..|prefix|] == prefix
  }

  predicate NoNewline(s: string) {
    forall i :: 0 <= i < |s| ==> s[i] != '\n'
  }

  predicate AllNoNewline(xs: seq<string>) {
    forall i :: 0 <= i < |xs| ==> NoNewline(xs[i])
  }

  lemma NoNewlineAppend(a: string, b: string)
    requires NoNewline(a) && NoNewline(b)
    ensures NoNewline(a + b)
  {
    forall i | 0 <= i < |a + b| ensures (a + b)[i] != '\n' {
      if i >= |a| { assert (a + b)[i] == b[i - |a|]; }
    }
  }

  /** Python's `chr(10).join(xs)`. */
  function JoinLines(xs: seq<string>): string
    decreases |xs|
  {
    if |xs| == 0 then ""
    else if |xs| == 1 then xs[0]
    else xs[0] + "\n" + JoinLines(xs[1..])
  }

  /** Python's `s.split(chr(10))`: never empty, one piece more than there are newlines. */
  function SplitLines(s: string): (r: seq<string>)
    ensures |r| >= 1
    decreases |s|
  {
    if s == [] then [""]
    else if s[0] == '\n' then [""] + SplitLines(s[1..])
    else
      var rest := SplitLines(s[1..]);
      [[s[0]] + rest[0]] + rest[1..]
  }

  lemma {:induction false} SplitNoNewline(a: string)
    requires NoNewline(a)
    ensures SplitLines(a) == [a]
    decreases |a|
  {
    if a != [] {
      SplitNoNewline(a[1..]);
      assert [a[0]] + a[1..] == a;
    }
  }

  /** A line without a newline, a newline, then the rest: the line comes off first. */
  lemma {:induction false} SplitAppend(a: string, rest: string)
    requires NoNewline(a)
    ensures SplitLines(a + "\n" + rest) == [a] + SplitLines(rest)
    decreases |a|
  {
    var s := a + "\n" + rest;
    if a == [] {
      assert s == "\n" + rest;
      assert s[1..] == rest;
    } else {
      assert s[0] == a[0];
      assert s[1..] == a[1..] + "\n" + rest;
      SplitAppend(a[1..], rest);
      assert [a[0]] + a[1..] == a;
    }
  }

  /** Splitting undoes joining, for lines that hold no newline of their own. */
  lemma {:induction false} SplitJoinAppend(xs: seq<string>, rest: string)
    requires |xs| >= 1 && AllNoNewline(xs)
    ensures SplitLines(JoinLines(xs) + "\n" + rest) == xs + SplitLines(rest)
    decreases |xs|
  {
    assert NoNewline(xs[0]);
    if |xs| == 1 {
      SplitAppend(xs[0], rest);
    } else {
      var tail := JoinLines(xs[1..]) + "\n" + rest;
      assert JoinLines(xs) + "\n" + rest == xs[0] + "\n" + tail;
      SplitAppend(xs[0], tail);
      assert AllNoNewline(xs[1..]) by {
        forall i | 0 <= i < |xs[1..]| ensures NoNewline(xs[1..][i]) {
          assert xs[1..][i] == xs[i + 1];
        }
      }
      SplitJoinAppend(xs[1..], rest);
      assert [xs[0]] + xs[1..] == xs;
    }
  }

  /** Splitting at a newline between two parts splits each part on its own. */
  lemma {:induction false} SplitConcat(a: string, b: string)
    ensures SplitLines(a + "\n" + b) == SplitLines(a) + SplitLines(b)
    decreases |a|
  {
    var s := a + "\n" + b;
    if a == [] {
      assert s == "\n" + b;
      assert s[1..] == b;
    } else {
      assert s[0] == a[0];
      assert s[1..] == a[1..] + "\n" + b;
      SplitConcat(a[1..], b);
    }
  }

  /** The pieces of each string, one string after the other. */
  function SplitEach(xs: seq<string>): seq<string>
    decreases |xs|
  {
    if xs == [] then [] else SplitLines(xs[0]) + SplitEach(xs[1..])
  }

  /** Splitting a join splits every joined string. */
  lemma {:induction false} SplitOfJoin(xs: seq<string>)
    requires |xs| >= 1
    ensures SplitLines(JoinLines(xs)) == SplitEach(xs)
    decreases |xs|
  {
    if |xs| == 1 {
      assert SplitEach(xs) == SplitLines(xs[0]) + SplitEach([]);
    } else {
      SplitConcat(xs[0], JoinLines(xs[1..]));
      SplitOfJoin(xs[1..]);
    }
  }

  /** The round trip `s.split("\n")` of `"\n".join(xs)` gives back `xs`. */
  lemma {:induction false} SplitJoin(xs: seq<string>)
    requires |xs| >= 1 && AllNoNewline(xs)
    ensures SplitLines(JoinLines(xs)) == xs
    decreases |xs|
  {
    assert NoNewline(xs[0]);
    if |xs| == 1 {
      SplitNoNewline(xs[0]);
    } else {
      assert AllNoNewline(xs[1..]) by {
        forall i | 0 <= i < |xs[1..]| ensures NoNewline(xs[1..][i]) {
          assert xs[1..][i] == xs[i + 1];
        }
      }
      SplitAppend(xs[0], JoinLines(xs[1..]));
      SplitJoin(xs[1..]);
      assert [xs[0]] + xs[1..] == xs;
    }
  }
}
