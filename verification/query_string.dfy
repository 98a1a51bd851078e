/** The query part of the pagination links: `name=value` pairs joined by `&`,
    written without any percent-encoding, and the reading of such a string back
    into its pairs. */
module QueryString {

  type Param = (string, string)

  /** `name=value` */
  function Assign(p: Param): string {
    p.0 + "=" + p.1
  }

  /** The pairs joined by `&`, in order. */
  function Render(ps: seq<Param>): string {
    if ps == [] then ""
    else if |ps| == 1 then Assign(ps[0])
    else Assign(ps[0]) + "&" + Render(ps[1..])
  }

  /** The `&`-separated pieces of a query string (one piece when there is no `&`). */
  function Segments(s: string): (r: seq<string>)
    ensures |r| >= 1
  {
    if s == [] then [""]
    else
      var rest := Segments(s[1..]);
      if s[0] == '&' then [""] + rest else [[s[0]] + rest[0]] + rest[1..]
  }

  /** A piece split at its first `=` into name and value. */
  function SplitAssign(seg: string): Param {
    if seg == [] then ("", "")
    else if seg[0] == '=' then ("", seg[1..])
    else
      var (k, v) := SplitAssign(seg[1..]);
      ([seg[0]] + k, v)
  }

  function ParseSegments(segs: seq<string>): (r: seq<Param>)
    ensures |r| == |segs|
  {
    if segs == [] then [] else [SplitAssign(segs[0])] + ParseSegments(segs[1..])
  }

  /** A query string split back into its pairs: on `&` between pairs and on
      the first `=` within one. Nothing is percent-decoded, `+` is not read as
      a space and `#` does not end the string, as a browser and a server would. */
  function Parse(s: string): seq<Param> {
    ParseSegments(Segments(s))
  }

  /** Pairs that survive rendering unescaped: no `&` anywhere and no `=` in a name. */
  predicate Plain(ps: seq<Param>) {
    forall i :: 0 <= i < |ps| ==> '&' !in ps[i].0 && '=' !in ps[i].0 && '&' !in ps[i].1
  }

  lemma {:induction false} SegmentsOfPiece(a: string)
    requires '&' !in a
    ensures Segments(a) == [a]
  {
    if a != [] {
      SegmentsOfPiece(a[1..]);
      assert [a[0]] + a[1..] == a;
    }
  }

  lemma {:induction false} SegmentsOfJoin(a: string, b: string)
    requires '&' !in a
    ensures Segments(a + "&" + b) == [a] + Segments(b)
  {
    if a == [] {
      assert a + "&" + b == "&" + b;
      assert ("&" + b)[1..] == b;
    } else {
      SegmentsOfJoin(a[1..], b);
      assert (a + "&" + b)[1..] == a[1..] + "&" + b;
      assert [a[0]] + a[1..] == a;
    }
  }

  lemma {:induction false} SplitAssignOf(k: string, v: string)
    requires '=' !in k
    ensures SplitAssign(k + "=" + v) == (k, v)
  {
    if k == [] {
      assert k + "=" + v == "=" + v;
      assert ("=" + v)[1..] == v;
    } else {
      SplitAssignOf(k[1..], v);
      assert (k + "=" + v)[1..] == k[1..] + "=" + v;
      assert [k[0]] + k[1..] == k;
    }
  }

  /** Reading a rendered query string gives back exactly the pairs, in order,
      as long as no value holds an `&` and no name holds `&` or `=`. */
  lemma {:induction false} ParseRender(ps: seq<Param>)
    requires |ps| >= 1 && Plain(ps)
    ensures Parse(Render(ps)) == ps
  {
    var p := ps[0];
    assert '&' !in p.0 && '&' !in p.1 && '=' !in p.0;
    assert '&' !in Assign(p);
    SplitAssignOf(p.0, p.1);
    if |ps| == 1 {
      SegmentsOfPiece(Assign(p));
    } else {
      assert Plain(ps[1..]) by {
        forall i | 0 <= i < |ps[1..]|
          ensures '&' !in ps[1..][i].0 && '=' !in ps[1..][i].0 && '&' !in ps[1..][i].1
        {
          assert ps[1..][i] == ps[i + 1];
        }
      }
      ParseRender(ps[1..]);
      SegmentsOfJoin(Assign(p), Render(ps[1..]));
      var segs := [Assign(p)] + Segments(Render(ps[1..]));
      assert segs[1..] == Segments(Render(ps[1..]));
      assert [ps[0]] + ps[1..] == ps;
    }
  }

  function Digit(d: nat): (c: char)
    requires d < 10
    ensures '0' <= c <= '9'
  {
    ('0' as int + d) as char
  }

  /** The decimal text of a natural number, as a template string prints it. */
  function NatToString(n: nat): (s: string)
    ensures |s| >= 1
    ensures forall i :: 0 <= i < |s| ==> '0' <= s[i] <= '9'
    ensures '&' !in s && '=' !in s
    decreases n
  {
    if n < 10 then [Digit(n)] else NatToString(n / 10) + [Digit(n % 10)]
  }

  /** The value of a string of decimal digits, as `parseInt` reads it. */
  function ParseNat(s: string): int {
    if s == [] then 0 else ParseNat(s[..|s| - 1]) * 10 + (s[|s| - 1] as int - '0' as int)
  }

  lemma {:induction false} ParseNatToString(n: nat)
    ensures ParseNat(NatToString(n)) == n
    decreases n
  {
    if n >= 10 {
      ParseNatToString(n / 10);
      var s := NatToString(n);
      assert s[..|s| - 1] == NatToString(n / 10);
    }
  }
}
