/** Expansion of a parsed template: `resolve_with_rng` and `resolve_hostname_template`. */
module HostnameExpansion {
  import opened Wrappers
  import opened Sequences
  import opened Text
  import opened Validators
  import opened HostnameTemplate

  function HexChar(nibble: nat): char
    requires nibble < 16
  {
    if nibble < 10 then '0' + nibble as char else 'a' + (nibble - 10) as char
  }

  function HexText(nibbles: seq<nat>): (s: string)
    requires forall i :: 0 <= i < |nibbles| ==> nibbles[i] < 16
    ensures |s| == |nibbles|
  {
    seq(|nibbles|, i requires 0 <= i < |nibbles| => HexChar(nibbles[i]))
  }

  /** Bounds of the random draws one segment makes: a nibble per hex digit, one number per `num`. */
  function SegmentBounds(seg: Segment): seq<nat> {
    match seg
    case Literal(_) => []
    case Hex(n) => seq(n, _ => 16)
    case Num(n) => [Pow(10, n)]
  }

  function Bounds(segments: seq<Segment>): seq<nat> {
    if segments == [] then [] else Bounds(segments[..|segments| - 1]) + SegmentBounds(segments[|segments| - 1])
  }

  predicate Within(draws: seq<nat>, bounds: seq<nat>) {
    |draws| == |bounds| && forall i :: 0 <= i < |draws| ==> draws[i] < bounds[i]
  }

  function ExpandSegment(seg: Segment, draws: seq<nat>): string
    requires Within(draws, SegmentBounds(seg))
  {
    match seg
    case Literal(text) => text
    case Hex(n) => HexText(draws)
    case Num(n) => ZeroPad(draws[0], n)
  }

  lemma SplitDraws(draws: seq<nat>, a: seq<nat>, b: seq<nat>)
    requires Within(draws, a + b)
    ensures Within(draws[..|a|], a) && Within(draws[|a|..], b)
  {
    assert forall i :: 0 <= i < |a| ==> (a + b)[i] == a[i];
    assert forall i :: 0 <= i < |b| ==> (a + b)[|a| + i] == b[i];
  }

  /** The hostname produced by a vector of draws. */
  function Expand(segments: seq<Segment>, draws: seq<nat>): string
    requires Within(draws, Bounds(segments))
  {
    if segments == [] then ""
    else
      var front, last := segments[..|segments| - 1], segments[|segments| - 1];
      var k := |Bounds(front)|;
      SplitDraws(draws, Bounds(front), SegmentBounds(last));
      Expand(front, draws[..k]) + ExpandSegment(last, draws[k..])
  }

  /** A source of random numbers; `drawn` is the history of its answers. */
  class Rng {
    ghost var drawn: seq<nat>

    constructor ()
      ensures drawn == []
    {
      drawn := [];
    }

    /** `random_range(0..bound)`: any value below the bound. */
    method RandomRange(bound: nat) returns (v: nat)
      requires bound > 0
      modifies this
      ensures v < bound && drawn == old(drawn) + [v]
    {
      v := *;
      if v >= bound {
        v := 0;
      }
      drawn := drawn + [v];
    }
  }

  lemma ExpandAppend(a: seq<Segment>, d0: seq<nat>, seg: Segment, d1: seq<nat>)
    requires Within(d0, Bounds(a)) && Within(d1, SegmentBounds(seg))
    ensures Within(d0 + d1, Bounds(a + [seg]))
    ensures Expand(a + [seg], d0 + d1) == Expand(a, d0) + ExpandSegment(seg, d1)
  {
    assert (a + [seg])[..|a|] == a;
    assert (d0 + d1)[..|d0|] == d0 && (d0 + d1)[|d0|..] == d1;
  }

  method ResolveSegment(segment: Segment, rng: Rng) returns (text: string, ghost draws: seq<nat>)
    modifies rng
    ensures Within(draws, SegmentBounds(segment)) && rng.drawn == old(rng.drawn) + draws
    ensures text == ExpandSegment(segment, draws)
  {
    text, draws := "", [];
    match segment
    case Literal(lit) =>
      text := lit;
    case Hex(n) =>
      for i := 0 to n
        invariant |draws| == i && forall j :: 0 <= j < i ==> draws[j] < 16
        invariant rng.drawn == old(rng.drawn) + draws
        invariant text == HexText(draws)
      {
        var nibble := rng.RandomRange(16);
        text := text + [HexChar(nibble)];
        draws := draws + [nibble];
      }
    case Num(n) =>
      var val := rng.RandomRange(Pow(10, n));
      text := ZeroPad(val, n);
      draws := [val];
  }

  /** `text` is the expansion of the segments by these draws. */
  ghost predicate Expanded(segments: seq<Segment>, draws: seq<nat>, text: string) {
    Within(draws, Bounds(segments)) && text == Expand(segments, draws)
  }

  lemma ExpandedStep(segments: seq<Segment>, i: nat, d0: seq<nat>, t0: string, d1: seq<nat>, t1: string)
    requires i < |segments| && Expanded(segments[..i], d0, t0)
    requires Within(d1, SegmentBounds(segments[i])) && t1 == ExpandSegment(segments[i], d1)
    ensures Expanded(segments[..i + 1], d0 + d1, t0 + t1)
  {
    ExpandAppend(segments[..i], d0, segments[i], d1);
    assert segments[..i + 1] == segments[..i] + [segments[i]];
  }

  /** Grow the hostname segment by segment, drawing as it goes. */
  method ResolveWithRng(segments: seq<Segment>, rng: Rng) returns (result: string, ghost draws: seq<nat>)
    modifies rng
    ensures rng.drawn == old(rng.drawn) + draws
    ensures Within(draws, Bounds(segments)) && result == Expand(segments, draws)
  {
    result, draws := "", [];
    ghost var before := rng.drawn;
    var i := 0;
    while i < |segments|
      invariant 0 <= i <= |segments|
      invariant rng.drawn == before + draws
      invariant Expanded(segments[..i], draws, result)
    {
      var text; ghost var d;
      text, d := ResolveSegment(segments[i], rng);
      Associative(before, draws, d);
      ExpandedStep(segments, i, draws, result, d, text);
      result, draws, i := result + text, draws + d, i + 1;
    }
    assert segments[..|segments|] == segments;
  }

  // ---- Length and validity ----

  lemma {:induction false} ExpandSegmentShape(seg: Segment, draws: seq<nat>)
    requires CanonicalSegment(seg) && Within(draws, SegmentBounds(seg))
    ensures var s := ExpandSegment(seg, draws);
      |s| == Width(seg) > 0 && (forall i :: 0 <= i < |s| ==> IsLiteralChar(s[i]))
    ensures seg.Literal? ==> ExpandSegment(seg, draws) == seg.text
    ensures !seg.Literal? ==> forall i :: 0 <= i < Width(seg) ==> ExpandSegment(seg, draws)[i] != '-'
  {
    match seg
    case Literal(text) => AsciiByteLen(text);
    case Hex(n) =>
    case Num(n) => ZeroPadExact(draws[0], n);
  }

  /** Shape facts of two texts carry over to their concatenation. */
  lemma ConcatShape(a: string, b: string)
    requires forall i :: 0 <= i < |a| ==> IsLiteralChar(a[i])
    requires forall i :: 0 <= i < |b| ==> IsLiteralChar(b[i])
    requires b != ""
    ensures forall i :: 0 <= i < |a + b| ==> IsLiteralChar((a + b)[i])
    ensures (a + b)[|a + b| - 1] == b[|b| - 1]
    ensures (a + b)[0] == if a == "" then b[0] else a[0]
  {
  }

  lemma {:induction false} ExpandShape(segments: seq<Segment>, draws: seq<nat>)
    requires forall i :: 0 <= i < |segments| ==> CanonicalSegment(segments[i])
    requires Within(draws, Bounds(segments))
    ensures var s := Expand(segments, draws);
      && |s| == TotalWidth(segments)
      && (forall i :: 0 <= i < |s| ==> IsLiteralChar(s[i]))
      && (segments != [] ==> s != "")
      && (segments != [] && !StartsWithHyphen(segments) ==> s[0] != '-')
      && (segments != [] && !EndsWithHyphen(segments) ==> s[|s| - 1] != '-')
  {
    hide ExpandSegment, SegmentBounds, CanonicalSegment, IsLiteralChar;
    if segments != [] {
      var front, last := segments[..|segments| - 1], segments[|segments| - 1];
      var k := |Bounds(front)|;
      SplitDraws(draws, Bounds(front), SegmentBounds(last));
      ExpandShape(front, draws[..k]);
      ExpandSegmentShape(last, draws[k..]);
      ConcatShape(Expand(front, draws[..k]), ExpandSegment(last, draws[k..]));
      assert front != [] ==> front[0] == segments[0];
    }
  }

  /** Whatever the draws, an accepted template expands to a hostname of the
      computed length that the hostname validator accepts. */
  lemma ExpansionIsValid(t: string, draws: seq<nat>)
    requires ParseTemplate(t).Success?
    requires Within(draws, Bounds(ParseTemplate(t).value))
    ensures var s := Expand(ParseTemplate(t).value, draws);
      |s| == TotalWidth(ParseTemplate(t).value) && ValidateHostname(s).Pass?
  {
    var segments := ParseTemplate(t).value;
    ParseExact(t, segments);
    ExpandShape(segments, draws);
    ValidateHostnameExact(Expand(segments, draws));
  }

  /** The hostname fields of the install configuration. */
  datatype HostnameFields = HostnameFields(hostname: Option<string>, hostnameTemplate: Option<string>)

  /** Fill in the hostname from the template, unless one is given. */
  method ResolveHostnameTemplate(cfg: HostnameFields, rng: Rng) returns (r: Result<HostnameFields, TemplateError>)
    modifies rng
    ensures r.Success? ==> r.value.hostnameTemplate == cfg.hostnameTemplate
    ensures cfg.hostname.Some? || cfg.hostnameTemplate.None? ==> r == Success(cfg)
    ensures cfg.hostname.None? && cfg.hostnameTemplate.Some? ==>
      match ParseTemplate(cfg.hostnameTemplate.value)
      case Failure(e) => r == Failure(e)
      case Success(segments) =>
        && r.Success? && r.value.hostname.Some?
        && ValidateHostname(r.value.hostname.value).Pass?
        && |r.value.hostname.value| == TotalWidth(segments)
  {
    if cfg.hostname.Some? || cfg.hostnameTemplate.None? {
      return Success(cfg);
    }
    var segments :- Parse(cfg.hostnameTemplate.value);
    var resolved; ghost var draws;
    resolved, draws := ResolveWithRng(segments, rng);
    ExpansionIsValid(cfg.hostnameTemplate.value, draws);
    r := Success(cfg.(hostname := Some(resolved)));
  }

  // ---- Injectivity and the number of hostnames ----

  lemma {:induction false} ExpandSegmentInjective(seg: Segment, d1: seq<nat>, d2: seq<nat>)
    requires CanonicalSegment(seg)
    requires Within(d1, SegmentBounds(seg)) && Within(d2, SegmentBounds(seg))
    requires ExpandSegment(seg, d1) == ExpandSegment(seg, d2)
    ensures d1 == d2
  {
    match seg
    case Literal(_) =>
    case Hex(n) =>
      forall i | 0 <= i < n
        ensures d1[i] == d2[i]
      {
        assert HexText(d1)[i] == HexText(d2)[i];
      }
    case Num(n) =>
      ZeroPadExact(d1[0], n);
      ZeroPadExact(d2[0], n);
  }

  /** Different draws give different hostnames. */
  lemma {:induction false} ExpandInjective(segments: seq<Segment>, d1: seq<nat>, d2: seq<nat>)
    requires forall i :: 0 <= i < |segments| ==> CanonicalSegment(segments[i])
    requires Within(d1, Bounds(segments)) && Within(d2, Bounds(segments))
    requires Expand(segments, d1) == Expand(segments, d2)
    ensures d1 == d2
  {
    hide ExpandSegment, SegmentBounds, CanonicalSegment, IsLiteralChar;
    if segments != [] {
      var front, last := segments[..|segments| - 1], segments[|segments| - 1];
      var k := |Bounds(front)|;
      SplitDraws(d1, Bounds(front), SegmentBounds(last));
      SplitDraws(d2, Bounds(front), SegmentBounds(last));
      ExpandShape(front, d1[..k]);
      ExpandShape(front, d2[..k]);
      ConcatInjective(Expand(front, d1[..k]), ExpandSegment(last, d1[k..]),
                      Expand(front, d2[..k]), ExpandSegment(last, d2[k..]));
      ExpandInjective(front, d1[..k], d2[..k]);
      ExpandSegmentInjective(last, d1[k..], d2[k..]);
      assert d1 == d1[..k] + d1[k..] && d2 == d2[..k] + d2[k..];
    }
  }

  lemma ConcatInjective<T>(h1: seq<T>, t1: seq<T>, h2: seq<T>, t2: seq<T>)
    requires |h1| == |h2| && h1 + t1 == h2 + t2
    ensures h1 == h2 && t1 == t2
  {
    assert h1 == (h1 + t1)[..|h1|] && t1 == (h1 + t1)[|h1|..];
    assert h2 == (h2 + t2)[..|h2|] && t2 == (h2 + t2)[|h2|..];
  }

  function Product(bounds: seq<nat>): nat {
    if bounds == [] then 1 else bounds[0] * Product(bounds[1..])
  }

  /** All vectors of draws within the bounds. */
  ghost function AllDraws(bounds: seq<nat>): set<seq<nat>> {
    if bounds == [] then {[]}
    else Extended(bounds[0], AllDraws(bounds[1..]))
  }

  ghost function Extended(bound: nat, rest: set<seq<nat>>): set<seq<nat>> {
    if bound == 0 then {} else Extended(bound - 1, rest) + Prefixed(bound - 1, rest)
  }

  ghost function Prefixed(v: nat, rest: set<seq<nat>>): set<seq<nat>> {
    set r | r in rest :: [v] + r
  }

  lemma {:induction false} PrefixedSize(v: nat, rest: set<seq<nat>>)
    ensures |Prefixed(v, rest)| == |rest|
  {
    if rest != {} {
      var r :| r in rest;
      PrefixedSize(v, rest - {r});
      assert Prefixed(v, rest) == Prefixed(v, rest - {r}) + {[v] + r};
      if [v] + r in Prefixed(v, rest - {r}) {
        var q :| q in rest - {r} && [v] + q == [v] + r;
        ConcatInjective([v], q, [v], r);
        assert false;
      }
    }
  }

  lemma {:induction false} ExtendedMembers(bound: nat, rest: set<seq<nat>>, d: seq<nat>)
    ensures d in Extended(bound, rest) <==> d != [] && d[0] < bound && d[1..] in rest
  {
    if bound > 0 {
      ExtendedMembers(bound - 1, rest, d);
      if d != [] {
        assert d == [d[0]] + d[1..];
      }
    }
  }

  lemma ExtendedDisjoint(bound: nat, rest: set<seq<nat>>)
    ensures Extended(bound, rest) * Prefixed(bound, rest) == {}
  {
    var both := Extended(bound, rest) * Prefixed(bound, rest);
    if both != {} {
      var d :| d in both;
      ExtendedMembers(bound, rest, d);
      assert false;
    }
  }

  lemma DisjointUnionSize<T>(a: set<T>, b: set<T>)
    requires a * b == {}
    ensures |a + b| == |a| + |b|
  {
  }

  lemma ExtendedSizeStep(bound: nat, rest: set<seq<nat>>)
    requires bound > 0
    ensures |Extended(bound, rest)| == |Extended(bound - 1, rest)| + |rest|
  {
    PrefixedSize(bound - 1, rest);
    ExtendedDisjoint(bound - 1, rest);
    DisjointUnionSize(Extended(bound - 1, rest), Prefixed(bound - 1, rest));
  }

  lemma OneMoreTimes(k: nat, n: nat)
    requires k > 0
    ensures k * n == (k - 1) * n + n
  {
  }

  lemma {:induction false} ExtendedSize(bound: nat, rest: set<seq<nat>>)
    ensures |Extended(bound, rest)| == bound * |rest|
  {
    if bound > 0 {
      ExtendedSize(bound - 1, rest);
      ExtendedSizeStep(bound, rest);
      OneMoreTimes(bound, |rest|);
    }
  }

  lemma AllDrawsStep(bounds: seq<nat>, d: seq<nat>)
    requires bounds != []
    requires d != [] ==> (d[1..] in AllDraws(bounds[1..]) <==> Within(d[1..], bounds[1..]))
    ensures d in AllDraws(bounds) <==> Within(d, bounds)
  {
    ExtendedMembers(bounds[0], AllDraws(bounds[1..]), d);
    if d != [] {
      assert d == [d[0]] + d[1..] && bounds == [bounds[0]] + bounds[1..];
    }
  }

  lemma {:induction false} AllDrawsExact(bounds: seq<nat>)
    ensures |AllDraws(bounds)| == Product(bounds)
    ensures forall d :: d in AllDraws(bounds) <==> Within(d, bounds)
  {
    if bounds != [] {
      AllDrawsExact(bounds[1..]);
      ExtendedSize(bounds[0], AllDraws(bounds[1..]));
      forall d: seq<nat>
        ensures d in AllDraws(bounds) <==> Within(d, bounds)
      {
        hide AllDraws, Within;
        AllDrawsStep(bounds, d);
      }
    }
  }

  ghost function Hostnames(segments: seq<Segment>, vectors: set<seq<nat>>): set<string>
    requires forall d :: d in vectors ==> Within(d, Bounds(segments))
  {
    set d | d in vectors :: Expand(segments, d)
  }

  lemma {:induction false} HostnamesSize(segments: seq<Segment>, vectors: set<seq<nat>>)
    requires forall i :: 0 <= i < |segments| ==> CanonicalSegment(segments[i])
    requires forall d :: d in vectors ==> Within(d, Bounds(segments))
    ensures |Hostnames(segments, vectors)| == |vectors|
  {
    hide CanonicalSegment, Within, Bounds, Expand;
    if vectors != {} {
      var d :| d in vectors;
      var fewer := vectors - {d};
      HostnamesSize(segments, fewer);
      assert Hostnames(segments, vectors) == Hostnames(segments, fewer) + {Expand(segments, d)};
      if Expand(segments, d) in Hostnames(segments, fewer) {
        var e :| e in fewer && Expand(segments, e) == Expand(segments, d);
        ExpandInjective(segments, d, e);
      }
    }
  }

  function SegmentChoices(seg: Segment): nat {
    match seg
    case Literal(_) => 1
    case Hex(n) => Pow(16, n)
    case Num(n) => Pow(10, n)
  }

  function Choices(segments: seq<Segment>): nat {
    if segments == [] then 1
    else Choices(segments[..|segments| - 1]) * SegmentChoices(segments[|segments| - 1])
  }

  lemma {:induction false} ProductAppend(a: seq<nat>, b: seq<nat>)
    ensures Product(a + b) == Product(a) * Product(b)
  {
    if a == [] {
      assert a + b == b;
    } else {
      ProductAppend(a[1..], b);
      assert (a + b)[1..] == a[1..] + b;
      assert a[0] * (Product(a[1..]) * Product(b)) == (a[0] * Product(a[1..])) * Product(b);
    }
  }

  lemma {:induction false} ProductRepeat(n: nat)
    ensures Product(seq(n, _ => 16)) == Pow(16, n)
  {
    if n > 0 {
      var s: seq<nat> := seq(n, _ => 16);
      assert s[1..] == seq(n - 1, _ => 16);
      ProductRepeat(n - 1);
    }
  }

  lemma {:induction false} ProductOfBounds(segments: seq<Segment>)
    ensures Product(Bounds(segments)) == Choices(segments)
  {
    if segments != [] {
      var front, last := segments[..|segments| - 1], segments[|segments| - 1];
      ProductAppend(Bounds(front), SegmentBounds(last));
      ProductOfBounds(front);
      if last.Hex? {
        ProductRepeat(last.n);
      } else if last.Num? {
        assert Product([Pow(10, last.n)]) == Pow(10, last.n) * Product([]);
      }
    }
  }

  /** An accepted template has exactly as many hostnames as the product of
      16^n and 10^n over its placeholders. */
  lemma CountHostnames(t: string)
    requires ParseTemplate(t).Success?
    ensures var segments := ParseTemplate(t).value;
      && (forall d :: d in AllDraws(Bounds(segments)) <==> Within(d, Bounds(segments)))
      && |Hostnames(segments, AllDraws(Bounds(segments)))| == Choices(segments)
  {
    var segments := ParseTemplate(t).value;
    ParseExact(t, segments);
    AllDrawsExact(Bounds(segments));
    HostnamesSize(segments, AllDraws(Bounds(segments)));
    ProductOfBounds(segments);
  }
}
