/** String helpers the app takes from Foundation: case folding, substring
    search, `compactMap` over optional strings and `joined(separator:)`.
    Strings are sequences of characters; case folding is ASCII only. */
module Text {
  import opened Basics

  /** Lower-case of one character (ASCII letters only). */
  function LowerChar(c: char): (r: char)
    ensures 'A' <= c <= 'Z' ==> r as int == c as int + 32
    ensures !('A' <= c <= 'Z') ==> r == c
  {
    if 'A' <= c <= 'Z' then (c as int + 32) as char else c
  }

  /** `lowercased()` */
  function Lower(s: string): (r: string)
    ensures |r| == |s|
    ensures forall i :: 0 <= i < |s| ==> r[i] == LowerChar(s[i])
  {
    seq(|s|, i requires 0 <= i < |s| => LowerChar(s[i]))
  }

  lemma LowerIdempotent(s: string)
    ensures Lower(Lower(s)) == Lower(s)
  {
    assert forall i :: 0 <= i < |s| ==> Lower(Lower(s))[i] == Lower(s)[i];
  }

  /** Comparison of two strings after lower-casing both. */
  predicate EqualIgnoringCase(a: string, b: string) {
    Lower(a) == Lower(b)
  }

  /** `needle` occurs in `hay` as a contiguous block. */
  predicate Contains(hay: string, needle: string)
    decreases |hay|
  {
    needle <= hay || (|hay| > 0 && Contains(hay[1..], needle))
  }

  /** `localizedCaseInsensitiveContains`, with ASCII case folding. */
  predicate ContainsIgnoringCase(hay: string, needle: string) {
    Contains(Lower(hay), Lower(needle))
  }

  /** `[a?, b?, ...].compactMap { $0 }`: the present values, in order. */
  function Compact(xs: seq<Option<string>>): (r: seq<string>)
    ensures |r| <= |xs|
    ensures forall s :: s in r <==> Some(s) in xs
  {
    if xs == [] then []
    else if xs[0].Some? then [xs[0].value] + Compact(xs[1..])
    else Compact(xs[1..])
  }

  /** Compacting a fixed list of three optional parts. */
  lemma CompactThree(a: Option<string>, b: Option<string>, c: Option<string>)
    ensures Compact([a, b, c]) ==
              (if a.Some? then [a.value] else []) +
              (if b.Some? then [b.value] else []) +
              (if c.Some? then [c.value] else [])
  {
    assert [a, b, c][1..] == [b, c];
    assert [b, c][1..] == [c];
    assert [c][1..] == [];
    assert Compact([c]) == (if c.Some? then [c.value] else []) + Compact([]);
    assert Compact([b, c]) == (if b.Some? then [b.value] else []) + Compact([c]);
    assert Compact([a, b, c]) == (if a.Some? then [a.value] else []) + Compact([b, c]);
  }

  /** Compacting a fixed list of four optional parts. */
  lemma CompactFour(a: Option<string>, b: Option<string>, c: Option<string>, d: Option<string>)
    ensures Compact([a, b, c, d]) ==
              (if a.Some? then [a.value] else []) +
              (if b.Some? then [b.value] else []) +
              (if c.Some? then [c.value] else []) +
              (if d.Some? then [d.value] else [])
  {
    assert [a, b, c, d][1..] == [b, c, d];
    CompactThree(b, c, d);
    assert Compact([a, b, c, d]) == (if a.Some? then [a.value] else []) + Compact([b, c, d]);
  }

  /** `joined(separator:)` */
  function Join(parts: seq<string>, sep: string): string
  {
    if parts == [] then ""
    else if |parts| == 1 then parts[0]
    else parts[0] + sep + Join(parts[1..], sep)
  }

  lemma JoinTwo(x: string, y: string, sep: string)
    ensures Join([x, y], sep) == x + sep + y
  {
    assert [x, y][1..] == [y];
  }

  lemma JoinThree(x: string, y: string, z: string, sep: string)
    ensures Join([x, y, z], sep) == x + sep + y + sep + z
  {
    assert [x, y, z][1..] == [y, z];
    JoinTwo(y, z, sep);
  }

  /** Joining one more part adds the separator and that part at the end. */
  lemma {:induction false} JoinSnoc(parts: seq<string>, x: string, sep: string)
    requires parts != []
    ensures Join(parts + [x], sep) == Join(parts, sep) + sep + x
  {
    if |parts| == 1 {
      assert parts + [x] == [parts[0], x];
      JoinTwo(parts[0], x, sep);
    } else {
      assert (parts + [x])[1..] == parts[1..] + [x];
      JoinSnoc(parts[1..], x, sep);
    }
  }

  /** With two or more parts the first character of the separator occurs
      in the joined string. */
  lemma JoinShowsSeparator(parts: seq<string>, sep: string)
    requires |parts| >= 2 && sep != []
    ensures sep[0] in Join(parts, sep)
  {
    var j := Join(parts, sep);
    assert j == parts[0] + sep + Join(parts[1..], sep);
    assert j[|parts[0]|] == sep[0];
  }
}
