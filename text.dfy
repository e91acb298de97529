/**
 * `Array.prototype.join`, used to build the favourites request (codes joined
 * by ",") and the languages and currencies labels (joined by ", "), and its
 * inverse on one separator character, the way the receiving end reads a
 * comma-separated list back.
 */
module Text {

  /** Total length of the parts. */
  function TotalLength(parts: seq<string>): nat {
    if parts == [] then 0 else |parts[0]| + TotalLength(parts[1..])
  }

  function Join(parts: seq<string>, sep: string): (r: string)
    ensures parts == [] ==> r == ""
    ensures parts != [] ==> |r| == TotalLength(parts) + |sep| * (|parts| - 1)
    ensures parts != [] ==> |parts[0]| <= |r| && r[..|parts[0]|] == parts[0]
  {
    if parts == [] then ""
    else if |parts| == 1 then parts[0]
    else parts[0] + sep + Join(parts[1..], sep)
  }

  /** Joining one more part appends the separator and that part, so parts appear in list order. */
  lemma {:induction false} JoinSnoc(parts: seq<string>, sep: string, p: string)
    requires parts != []
    ensures Join(parts + [p], sep) == Join(parts, sep) + sep + p
  {
    if |parts| > 1 {
      JoinSnoc(parts[1..], sep, p);
      assert (parts + [p])[1..] == parts[1..] + [p];
    }
  }

  /** Splits at every occurrence of `c`; the pieces hold no `c`. */
  function Split(s: string, c: char): (r: seq<string>)
    ensures |r| >= 1
    ensures forall i :: 0 <= i < |r| ==> c !in r[i]
    ensures |r| - 1 == multiset(s)[c]
  {
    if s == [] then [""]
    else
      assert s == [s[0]] + s[1..];
      var t := Split(s[1..], c);
      if s[0] == c then [""] + t
      else [[s[0]] + t[0]] + t[1..]
  }

  lemma {:induction false} SplitWithout(p: string, c: char)
    requires c !in p
    ensures Split(p, c) == [p]
  {
    if p != [] {
      SplitWithout(p[1..], c);
      assert p == [p[0]] + p[1..];
    }
  }

  lemma {:induction false} SplitAfterPiece(p: string, c: char, rest: string)
    requires c !in p
    ensures Split(p + [c] + rest, c) == [p] + Split(rest, c)
  {
    if p == [] {
      assert p + [c] + rest == [c] + rest;
      assert ([c] + rest)[1..] == rest;
    } else {
      var s := p + [c] + rest;
      assert s[0] == p[0] && s[0] != c;
      assert s[1..] == p[1..] + [c] + rest;
      SplitAfterPiece(p[1..], c, rest);
      var t := Split(s[1..], c);
      assert t[0] == p[1..] && t[1..] == Split(rest, c);
      assert Split(s, c) == [[p[0]] + t[0]] + t[1..];
      assert [p[0]] + p[1..] == p;
    }
  }

  /**
   * Joining a non-empty list of parts that hold no separator and splitting the
   * result gives the parts back, in order.
   */
  lemma {:induction false} SplitJoin(parts: seq<string>, c: char)
    requires parts != []
    requires forall i :: 0 <= i < |parts| ==> c !in parts[i]
    ensures Split(Join(parts, [c]), c) == parts
  {
    if |parts| == 1 {
      SplitWithout(parts[0], c);
    } else {
      SplitJoin(parts[1..], c);
      SplitAfterPiece(parts[0], c, Join(parts[1..], [c]));
      assert parts == [parts[0]] + parts[1..];
    }
  }
}
