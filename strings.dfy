/** String helpers shared by the two components: how Java renders a possibly
    null string, the joining done by a StringBuilder, and ASCII lower-casing. */
module Strings {
  import opened Wrappers

  /** What Java's string concatenation writes for a possibly null String. */
  function NullToString(s: Option<string>): string
  {
    match s
    case None => "null"
    case Some(v) => v
  }

  /** The text a StringBuilder holds after appending every part in order. */
  function Concat(parts: seq<string>): string
  {
    if parts == [] then "" else Concat(parts[..|parts| - 1]) + parts[|parts| - 1]
  }

  /** Seven joined pieces: the first two, the middle four together and the
      last read back at their offsets. */
  lemma SevenSlices(a: string, b: string, c: string, d: string, e: string, f: string, g: string)
    ensures var r := a + b + c + d + e + f + g;
            && |r| == |a| + |b| + |c| + |d| + |e| + |f| + |g|
            && r[..|a|] == a
            && r[|a|..|a| + |b|] == b
            && r[|a| + |b|..|r| - |g|] == c + d + e + f
            && r[|r| - |g|..] == g
  {
    var r := a + b + c + d + e + f + g;
    assert r == (a + b) + (c + d + e + f) + g;
  }

  lemma {:induction false} ConcatAppend(a: seq<string>, b: seq<string>)
    ensures Concat(a + b) == Concat(a) + Concat(b)
    decreases |b|
  {
    if b == [] {
      assert a + b == a;
    } else {
      var b' := b[..|b| - 1];
      assert (a + b)[..|a + b| - 1] == a + b';
      ConcatAppend(a, b');
    }
  }

  lemma ConcatCons(x: string, rest: seq<string>)
    ensures Concat([x] + rest) == x + Concat(rest)
  {
    assert Concat([x]) == x by {
      assert [x][..0] == [];
    }
    ConcatAppend([x], rest);
  }

  lemma ConcatFive(a: string, b: string, c: string, d: string, e: string)
    ensures Concat([a, b, c, d, e]) == a + b + c + d + e
  {
    assert [e] + [] == [e] && [d] + [e] == [d, e] && [c] + [d, e] == [c, d, e];
    assert [b] + [c, d, e] == [b, c, d, e] && [a] + [b, c, d, e] == [a, b, c, d, e];
    ConcatCons(e, []);
    ConcatCons(d, [e]);
    ConcatCons(c, [d, e]);
    ConcatCons(b, [c, d, e]);
    ConcatCons(a, [b, c, d, e]);
  }

  /** Appending parts one at a time never loses what was already written. */
  lemma {:induction false} ConcatPrefix(parts: seq<string>, n: nat)
    requires n <= |parts|
    ensures Concat(parts[..n]) <= Concat(parts)
    ensures |Concat(parts[..n])| <= |Concat(parts)|
  {
    assert parts == parts[..n] + parts[n..];
    ConcatAppend(parts[..n], parts[n..]);
  }

  function LowerChar(c: char): char
  {
    if 'A' <= c <= 'Z' then (c as int - 'A' as int + 'a' as int) as char else c
  }

  /** String.toLowerCase restricted to ASCII letters (the names of build results are ASCII). */
  function ToLowerAscii(s: string): (r: string)
    ensures |r| == |s|
    ensures forall i :: 0 <= i < |s| ==> r[i] == LowerChar(s[i])
    ensures forall i :: 0 <= i < |r| ==> !('A' <= r[i] <= 'Z')
  {
    seq(|s|, i requires 0 <= i < |s| => LowerChar(s[i]))
  }
}
