/** Go's `strings.Split` and `strings.Join` for a one-character separator, the only
    form the generator uses (it splits the `-tables` flag on ","). */
module Split {

  /** Number of occurrences of `sep` in `s`. */
  function Count(s: string, sep: char): nat {
    if |s| == 0 then 0 else (if s[0] == sep then 1 else 0) + Count(s[1..], sep)
  }

  /** The pieces of `parts` with `sep` between neighbours; `Join([], sep)` is "". */
  function Join(parts: seq<string>, sep: char): string {
    if |parts| == 0 then ""
    else if |parts| == 1 then parts[0]
    else parts[0] + [sep] + Join(parts[1..], sep)
  }

  /** No piece contains the separator. */
  predicate NoSep(parts: seq<string>, sep: char) {
    forall i :: 0 <= i < |parts| ==> sep !in parts[i]
  }

  /** Joining after growing the first piece on the left grows the joined text the same way. */
  lemma {:induction false} JoinExtendFirst(x: string, parts: seq<string>, sep: char)
    requires |parts| >= 1
    ensures Join([x + parts[0]] + parts[1..], sep) == x + Join(parts, sep)
  {
    var p := [x + parts[0]] + parts[1..];
    assert p[1..] == parts[1..];
    if |parts| > 1 {
      assert Join(p, sep) == (x + parts[0]) + [sep] + Join(parts[1..], sep);
    }
  }

  /** An empty first piece: the joined text is the separator followed by the rest. */
  lemma {:induction false} JoinEmptyFirst(parts: seq<string>, sep: char)
    requires |parts| >= 1
    ensures Join([""] + parts, sep) == [sep] + Join(parts, sep)
  {
    var p := [""] + parts;
    assert p[1..] == parts;
  }

  /** Go's `strings.Split(s, string(sep))`: the maximal separator-free pieces of `s`,
      one more than there are separators (so "" splits into [""]), and joining them
      back gives `s`. */
  function Split(s: string, sep: char): (r: seq<string>)
    ensures |r| == Count(s, sep) + 1
    ensures Join(r, sep) == s
    ensures NoSep(r, sep)
  {
    if |s| == 0 then [""]
    else
      var rest := Split(s[1..], sep);
      assert s == [s[0]] + s[1..];
      if s[0] == sep then
        JoinEmptyFirst(rest, sep);
        [""] + rest
      else
        JoinExtendFirst([s[0]], rest, sep);
        [[s[0]] + rest[0]] + rest[1..]
  }

  /** A separator-free text is a single piece. */
  lemma {:induction false} SplitNoSep(x: string, sep: char)
    requires sep !in x
    ensures Split(x, sep) == [x]
  {
    if |x| > 0 {
      assert sep !in x[1..];
      SplitNoSep(x[1..], sep);
      assert [x[0]] + x[1..] == x;
    }
  }

  /** A separator-free prefix followed by the separator becomes the first piece. */
  lemma {:induction false} SplitPrefix(x: string, s: string, sep: char)
    requires sep !in x
    ensures Split(x + [sep] + s, sep) == [x] + Split(s, sep)
  {
    var t := x + [sep] + s;
    if |x| == 0 {
      assert t[0] == sep && t[1..] == s;
    } else {
      assert t[0] == x[0] && t[1..] == x[1..] + [sep] + s;
      assert sep !in x[1..];
      SplitPrefix(x[1..], s, sep);
      assert [x[0]] + x[1..] == x;
    }
  }

  /** Split undoes Join whenever no piece holds the separator: the other half of the
      round trip that `Split`'s own contract states. */
  lemma {:induction false} SplitJoin(parts: seq<string>, sep: char)
    requires |parts| >= 1
    requires NoSep(parts, sep)
    ensures Split(Join(parts, sep), sep) == parts
  {
    assert sep !in parts[0];
    if |parts| == 1 {
      SplitNoSep(parts[0], sep);
    } else {
      assert NoSep(parts[1..], sep) by {
        forall i | 0 <= i < |parts[1..]| ensures sep !in parts[1..][i] {
          assert parts[1..][i] == parts[i + 1];
        }
      }
      SplitJoin(parts[1..], sep);
      SplitPrefix(parts[0], Join(parts[1..], sep), sep);
      assert [parts[0]] + parts[1..] == parts;
    }
  }
}
