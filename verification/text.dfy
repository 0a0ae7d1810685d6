/** String helpers shared by the model: counting, filtering, prefix tests,
    and the `Array.prototype.join` / `String.prototype.split` pair. Strings
    are sequences of characters. */
module Text {

  /** Number of occurrences of `c` in `s`, as `(s.match(/c/g) || []).length`. */
  function Count(s: string, c: char): (n: nat)
    ensures n <= |s|
    ensures n == 0 <==> c !in s
  {
    if |s| == 0 then 0 else (if s[0] == c then 1 else 0) + Count(s[1..], c)
  }

  lemma {:induction false} CountAppend(a: string, b: string, c: char)
    ensures Count(a + b, c) == Count(a, c) + Count(b, c)
    decreases |a|
  {
    if |a| == 0 {
      assert a + b == b;
    } else {
      assert (a + b)[1..] == a[1..] + b;
      CountAppend(a[1..], b, c);
    }
  }

  /** `k` copies of `c`, as `c.repeat(k)`. */
  function Repeat(c: char, k: nat): (r: string)
    ensures |r| == k
    ensures forall i :: 0 <= i < |r| ==> r[i] == c
  {
    if k == 0 then [] else [c] + Repeat(c, k - 1)
  }

  lemma {:induction false} CountRepeat(c: char, k: nat, d: char)
    ensures Count(Repeat(c, k), d) == if c == d then k else 0
    decreases k
  {
    if k > 0 {
      assert Repeat(c, k)[1..] == Repeat(c, k - 1);
      CountRepeat(c, k - 1, d);
    }
  }

  /** `s` with every `d` removed. */
  function Strip(s: string, d: char): (r: string)
    ensures |r| <= |s|
    ensures forall c :: c in r <==> c in s && c != d
  {
    if |s| == 0 then []
    else if s[0] == d then Strip(s[1..], d)
    else [s[0]] + Strip(s[1..], d)
  }

  /** Removing `d` does not change how often any other character occurs. */
  lemma {:induction false} CountStrip(s: string, d: char, c: char)
    requires c != d
    ensures Count(Strip(s, d), c) == Count(s, c)
    decreases |s|
  {
    if |s| > 0 {
      CountStrip(s[1..], d, c);
      if s[0] != d {
        assert ([s[0]] + Strip(s[1..], d))[1..] == Strip(s[1..], d);
      }
    }
  }

  /** Two strings that differ only in where `d` occurs have the same count
      of every other character. */
  lemma CountSameStrip(r: string, s: string, d: char, c: char)
    requires Strip(r, d) == Strip(s, d) && c != d
    ensures Count(r, c) == Count(s, c)
  {
    CountStrip(r, d, c);
    CountStrip(s, d, c);
  }

  /** Strings that hold `c` at the same positions have the same count of it. */
  lemma {:induction false} CountPointwise(r: string, s: string, c: char)
    requires |r| == |s|
    requires forall i :: 0 <= i < |s| ==> (r[i] == c <==> s[i] == c)
    ensures Count(r, c) == Count(s, c)
    decreases |s|
  {
    if |s| > 0 {
      CountPointwise(r[1..], s[1..], c);
    }
  }

  /** `s.startsWith(p)`. */
  predicate StartsWith(s: string, p: string)
  {
    |p| <= |s| && s[..|p|] == p
  }

  /** `s.endsWith(p)`. */
  predicate EndsWith(s: string, p: string)
  {
    |p| <= |s| && s[|s| - |p|..] == p
  }

  /** `a` immediately followed by `b` occurs somewhere in `s`. */
  predicate OccursPair(s: string, a: char, b: char)
  {
    exists i :: 0 <= i < |s| - 1 && s[i] == a && s[i + 1] == b
  }

  lemma OccursPairCons(s: string, a: char, b: char)
    requires |s| >= 1
    ensures OccursPair(s, a, b) <==> (|s| >= 2 && s[0] == a && s[1] == b) || OccursPair(s[1..], a, b)
  {
    if OccursPair(s[1..], a, b) {
      var i :| 0 <= i < |s[1..]| - 1 && s[1..][i] == a && s[1..][i + 1] == b;
      assert s[i + 1] == a && s[i + 2] == b;
    }
    if OccursPair(s, a, b) {
      var i :| 0 <= i < |s| - 1 && s[i] == a && s[i + 1] == b;
      if i > 0 {
        assert s[1..][i - 1] == a && s[1..][i] == b;
      }
    }
  }

  /** `parts.join(sep)`: the parts with `sep` between neighbours. */
  function Join(parts: seq<string>, sep: string): (r: string)
    ensures |parts| == 0 ==> r == []
    ensures |parts| == 1 ==> r == parts[0]
    ensures |parts| >= 1 ==> StartsWith(r, parts[0])
  {
    if |parts| == 0 then []
    else if |parts| == 1 then parts[0]
    else parts[0] + sep + Join(parts[1..], sep)
  }

  /** `s.split(d)` for a one-character separator: the maximal pieces free of
      `d`, in order; the empty string splits into one empty piece. */
  function Split(s: string, d: char): (r: seq<string>)
    ensures |r| == Count(s, d) + 1
    ensures forall i :: 0 <= i < |r| ==> d !in r[i]
    decreases |s|
  {
    if |s| == 0 then [[]]
    else
      var rest := Split(s[1..], d);
      if s[0] == d then [[]] + rest
      else [[s[0]] + rest[0]] + rest[1..]
  }

  lemma {:induction false} SplitPrefix(x: string, y: string, d: char)
    requires d !in x
    ensures Split(x + [d] + y, d) == [x] + Split(y, d)
    decreases |x|
  {
    if |x| == 0 {
      assert x + [d] + y == [d] + y;
      assert ([d] + y)[1..] == y;
    } else {
      assert (x + [d] + y)[1..] == x[1..] + [d] + y;
      SplitPrefix(x[1..], y, d);
      assert [x[0]] + x[1..] == x;
    }
  }

  lemma {:induction false} SplitNoSeparator(x: string, d: char)
    requires d !in x
    ensures Split(x, d) == [x]
    decreases |x|
  {
    if |x| > 0 {
      SplitNoSeparator(x[1..], d);
      assert [x[0]] + x[1..] == x;
    }
  }

  /** Joining non-empty lists of `d`-free pieces with `d` loses nothing:
      splitting on `d` gives the pieces back. */
  lemma {:induction false} SplitJoin(parts: seq<string>, d: char)
    requires |parts| >= 1
    requires forall i :: 0 <= i < |parts| ==> d !in parts[i]
    ensures Split(Join(parts, [d]), d) == parts
    decreases |parts|
  {
    if |parts| == 1 {
      SplitNoSeparator(parts[0], d);
    } else {
      SplitJoin(parts[1..], d);
      SplitPrefix(parts[0], Join(parts[1..], [d]), d);
      assert [parts[0]] + parts[1..] == parts;
    }
  }

  /** Splitting on `d` and joining back with `d` gives the string back. */
  lemma {:induction false} JoinSplit(s: string, d: char)
    ensures Join(Split(s, d), [d]) == s
    decreases |s|
  {
    if |s| > 0 {
      JoinSplit(s[1..], d);
      if s[0] == d {
        JoinCons([], Split(s[1..], d), [d]);
      } else {
        JoinExtendFirst(s[0], Split(s[1..], d), [d]);
      }
    }
  }

  /** Joining behind a first piece. */
  lemma JoinCons(x: string, rest: seq<string>, sep: string)
    requires |rest| >= 1
    ensures Join([x] + rest, sep) == x + sep + Join(rest, sep)
  {
    assert ([x] + rest)[1..] == rest;
  }

  /** Putting `c` before the first piece puts it before the joined string. */
  lemma JoinExtendFirst(c: char, parts: seq<string>, sep: string)
    requires |parts| >= 1
    ensures Join([[c] + parts[0]] + parts[1..], sep) == [c] + Join(parts, sep)
  {
    var extended := [[c] + parts[0]] + parts[1..];
    assert extended[1..] == parts[1..];
  }
}
