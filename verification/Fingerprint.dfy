/**
 * Idempotency fingerprints (ledger-kernel postingEngine.ts): the delimited text two payloads
 * are compared by, and when equal text means equal payloads.
 */
module Fingerprint {
  import opened Text
  import opened Ledger

  /** JavaScript's `parts.join(sep)`. */
  function Join(parts: seq<string>, sep: string): string {
    if parts == [] then ""
    else if |parts| == 1 then parts[0]
    else parts[0] + sep + Join(parts[1..], sep)
  }

  function DimensionParts(dims: seq<(string, string)>): (r: seq<string>)
    ensures |r| == |dims|
    ensures forall i :: 0 <= i < |r| ==> r[i] == dims[i].0 + "=" + dims[i].1
  {
    seq(|dims|, i requires 0 <= i < |dims| => dims[i].0 + "=" + dims[i].1)
  }

  function SideText(s: Side): string {
    if s == DEBIT then "DEBIT" else "CREDIT"
  }

  function LineParts(l: Line): seq<string> {
    [l.accountId, SideText(l.side), l.currency, IntText(l.amount), l.memo,
     Join(DimensionParts(l.dimensions), ",")]
  }

  function LineTexts(lines: seq<Line>): (r: seq<string>)
    ensures |r| == |lines|
    ensures forall i :: 0 <= i < |r| ==> r[i] == Join(LineParts(lines[i]), "|")
  {
    seq(|lines|, i requires 0 <= i < |lines| => Join(LineParts(lines[i]), "|"))
  }

  function ProvenanceParts(p: Provenance): seq<string> {
    [p.sourceSystem, p.sourceObject, p.sourceVersion, p.effectiveDate,
     p.postedDate, p.ingestedAt, p.normalizationVersion, p.mappingVersion]
  }

  function Sections(p: Payload): seq<string> {
    [p.currency, IntText(p.period), IntText(p.entryDate), p.memo,
     Join(ProvenanceParts(p.provenance), "|"), Join(LineTexts(p.lines), ";")]
  }

  function FingerprintOf(p: Payload): string {
    Join(Sections(p), "::")
  }

  // --- joining on one character --------------------------------------------------------------

  predicate Free(s: string, c: char) {
    forall i :: 0 <= i < |s| ==> s[i] != c
  }

  predicate AllFree(parts: seq<string>, c: char) {
    forall i :: 0 <= i < |parts| ==> Free(parts[i], c)
  }

  lemma HeadOfJoin(a: string, b: string, c: char, x: string, y: string)
    requires Free(a, c) && Free(b, c) && a + [c] + x == b + [c] + y
    ensures a == b && x == y
  {
    var whole := a + [c] + x;
    assert whole[|a|] == c && whole[|b|] == c;
    assert whole[..|a|] == a && whole[..|b|] == b;
    assert whole[|a| + 1..] == x && whole[|b| + 1..] == y;
  }

  lemma {:induction false} JoinIsInjective(ps: seq<string>, qs: seq<string>, c: char)
    requires ps != [] && qs != [] && AllFree(ps, c) && AllFree(qs, c)
    requires Join(ps, [c]) == Join(qs, [c])
    ensures ps == qs
    decreases |ps|
  {
    if |ps| == 1 || |qs| == 1 {
      LongJoinHasSeparator(ps, c);
      LongJoinHasSeparator(qs, c);
    } else {
      HeadOfJoin(ps[0], qs[0], c, Join(ps[1..], [c]), Join(qs[1..], [c]));
      JoinIsInjective(ps[1..], qs[1..], c);
      assert ps == [ps[0]] + ps[1..] && qs == [qs[0]] + qs[1..];
    }
  }

  lemma LongJoinHasSeparator(ps: seq<string>, c: char)
    ensures |ps| > 1 ==> !Free(Join(ps, [c]), c)
    ensures |ps| == 1 && AllFree(ps, c) ==> Free(Join(ps, [c]), c) && ps == [Join(ps, [c])]
  {
    if |ps| > 1 {
      assert Join(ps, [c])[|ps[0]|] == c;
    }
  }

  lemma {:induction false} JoinIsFree(parts: seq<string>, sep: string, c: char)
    requires AllFree(parts, c) && Free(sep, c)
    ensures Free(Join(parts, sep), c)
  {
    if |parts| > 1 {
      JoinIsFree(parts[1..], sep, c);
    }
  }

  lemma {:induction false} JoinIsNonEmpty(parts: seq<string>, sep: string)
    requires parts != [] && forall i :: 0 <= i < |parts| ==> parts[i] != ""
    ensures Join(parts, sep) != ""
  {
  }

  // --- clean payloads ------------------------------------------------------------------------

  /** Safe before a `::`: no double colon inside and no colon at the end. */
  predicate Section(s: string) {
    && (forall i :: 0 <= i < |s| - 1 ==> !(s[i] == ':' && s[i + 1] == ':'))
    && (s != "" ==> s[|s| - 1] != ':')
  }

  predicate CleanField(s: string) {
    Free(s, '|') && Free(s, ';')
  }

  predicate CleanDimension(d: (string, string)) {
    CleanField(d.0) && CleanField(d.1) && Free(d.0, ',') && Free(d.1, ',') && Free(d.0, '=')
  }

  predicate CleanLine(l: Line) {
    && CleanField(l.accountId) && CleanField(l.currency) && CleanField(l.memo)
    && (forall i :: 0 <= i < |l.dimensions| ==> CleanDimension(l.dimensions[i]))
  }

  /** Fields hold none of the delimiters that could be read as ending them. */
  predicate Clean(p: Payload) {
    && Section(p.currency) && Section(p.memo) && Section(Join(ProvenanceParts(p.provenance), "|"))
    && AllFree(ProvenanceParts(p.provenance), '|')
    && (forall i :: 0 <= i < |p.lines| ==> CleanLine(p.lines[i]))
  }

  lemma HeadOfSections(a: string, b: string, x: string, y: string)
    requires Section(a) && Section(b) && a + "::" + x == b + "::" + y
    ensures a == b && x == y
  {
    var whole := a + "::" + x;
    assert whole[|a|] == ':' && whole[|a| + 1] == ':' && whole[|b|] == ':' && whole[|b| + 1] == ':';
    assert forall i :: 0 <= i < |a| ==> whole[i] == a[i];
    assert forall i :: 0 <= i < |b| ==> whole[i] == b[i];
    assert whole[..|a|] == a && whole[..|b|] == b;
    assert whole[|a| + 2..] == x && whole[|b| + 2..] == y;
  }

  lemma {:induction false} SectionsAreInjective(ps: seq<string>, qs: seq<string>)
    requires |ps| == |qs| > 0
    requires forall i :: 0 <= i < |ps| - 1 ==> Section(ps[i]) && Section(qs[i])
    requires Join(ps, "::") == Join(qs, "::")
    ensures ps == qs
    decreases |ps|
  {
    if |ps| > 1 {
      HeadOfSections(ps[0], qs[0], Join(ps[1..], "::"), Join(qs[1..], "::"));
      SectionsAreInjective(ps[1..], qs[1..]);
      assert ps == [ps[0]] + ps[1..] && qs == [qs[0]] + qs[1..];
    }
  }

  lemma DimensionsAreInjective(a: seq<(string, string)>, b: seq<(string, string)>)
    requires forall i :: 0 <= i < |a| ==> CleanDimension(a[i])
    requires forall i :: 0 <= i < |b| ==> CleanDimension(b[i])
    requires Join(DimensionParts(a), ",") == Join(DimensionParts(b), ",")
    ensures a == b
  {
    var ps, qs := DimensionParts(a), DimensionParts(b);
    if a != [] {
      JoinIsNonEmpty(ps, ",");
    }
    if b != [] {
      JoinIsNonEmpty(qs, ",");
    }
    if a != [] && b != [] {
      JoinIsInjective(ps, qs, ',');
      forall i | 0 <= i < |a| ensures a[i] == b[i] {
        assert ps[i] == qs[i];
        HeadOfJoin(a[i].0, b[i].0, '=', a[i].1, b[i].1);
      }
    }
  }

  lemma LinePartsAreFree(l: Line)
    requires CleanLine(l)
    ensures AllFree(LineParts(l), '|') && AllFree(LineParts(l), ';')
    ensures Free(Join(LineParts(l), "|"), ';') && Join(LineParts(l), "|") != ""
  {
    var dims := DimensionParts(l.dimensions);
    JoinIsFree(dims, ",", '|');
    JoinIsFree(dims, ",", ';');
    assert AllFree(LineParts(l), '|') && AllFree(LineParts(l), ';');
    JoinIsFree(LineParts(l), "|", ';');
    LongJoinHasSeparator(LineParts(l), '|');
  }

  lemma LineTextIsInjective(a: Line, b: Line)
    requires CleanLine(a) && CleanLine(b) && Join(LineParts(a), "|") == Join(LineParts(b), "|")
    ensures a == b
  {
    LinePartsAreFree(a);
    LinePartsAreFree(b);
    var ps, qs := LineParts(a), LineParts(b);
    JoinIsInjective(ps, qs, '|');
    assert ps[0] == qs[0] && ps[1] == qs[1] && ps[2] == qs[2] && ps[3] == qs[3] && ps[4] == qs[4] && ps[5] == qs[5];
    IntTextInjective(a.amount, b.amount);
    DimensionsAreInjective(a.dimensions, b.dimensions);
  }

  lemma LinesTextIsInjective(a: seq<Line>, b: seq<Line>)
    requires forall i :: 0 <= i < |a| ==> CleanLine(a[i])
    requires forall i :: 0 <= i < |b| ==> CleanLine(b[i])
    requires Join(LineTexts(a), ";") == Join(LineTexts(b), ";")
    ensures a == b
  {
    var ps, qs := LineTexts(a), LineTexts(b);
    forall i | 0 <= i < |a| ensures Free(ps[i], ';') && ps[i] != "" {
      LinePartsAreFree(a[i]);
    }
    forall i | 0 <= i < |b| ensures Free(qs[i], ';') && qs[i] != "" {
      LinePartsAreFree(b[i]);
    }
    if a != [] {
      JoinIsNonEmpty(ps, ";");
    }
    if b != [] {
      JoinIsNonEmpty(qs, ";");
    }
    if a != [] && b != [] {
      JoinIsInjective(ps, qs, ';');
      forall i | 0 <= i < |a| ensures a[i] == b[i] {
        assert ps[i] == qs[i];
        LineTextIsInjective(a[i], b[i]);
      }
    }
  }

  lemma ProvenanceTextIsInjective(p: Provenance, q: Provenance)
    requires AllFree(ProvenanceParts(p), '|') && AllFree(ProvenanceParts(q), '|')
    requires Join(ProvenanceParts(p), "|") == Join(ProvenanceParts(q), "|")
    ensures p == q
  {
    var a, b := ProvenanceParts(p), ProvenanceParts(q);
    JoinIsInjective(a, b, '|');
    assert a[0] == b[0] && a[1] == b[1] && a[2] == b[2] && a[3] == b[3];
    assert a[4] == b[4] && a[5] == b[5] && a[6] == b[6] && a[7] == b[7];
  }

  /** Clean payloads have equal fingerprints exactly when they are equal. */
  lemma FingerprintIdentifiesPayload(p: Payload, q: Payload)
    requires Clean(p) && Clean(q)
    ensures FingerprintOf(p) == FingerprintOf(q) <==> p == q
  {
    if FingerprintOf(p) == FingerprintOf(q) {
      var ps, qs := Sections(p), Sections(q);
      assert forall n: int :: Section(IntText(n));
      SectionsAreInjective(ps, qs);
      assert ps[0] == qs[0] && ps[1] == qs[1] && ps[2] == qs[2] && ps[3] == qs[3] && ps[4] == qs[4] && ps[5] == qs[5];
      IntTextInjective(p.period, q.period);
      IntTextInjective(p.entryDate, q.entryDate);
      ProvenanceTextIsInjective(p.provenance, q.provenance);
      LinesTextIsInjective(p.lines, q.lines);
    }
  }

  /** Without that, a delimiter inside a field lets two different payloads share a fingerprint. */
  lemma DelimitersCollide(p: Payload)
    ensures var a := p.(provenance := p.provenance.(sourceSystem := "bank|feed", sourceObject := "row"));
            var b := p.(provenance := p.provenance.(sourceSystem := "bank", sourceObject := "feed|row"));
            a != b && FingerprintOf(a) == FingerprintOf(b)
  {
    var a := p.(provenance := p.provenance.(sourceSystem := "bank|feed", sourceObject := "row"));
    var b := p.(provenance := p.provenance.(sourceSystem := "bank", sourceObject := "feed|row"));
    var as_, bs := ProvenanceParts(a.provenance), ProvenanceParts(b.provenance);
    var rest := as_[2..];
    assert bs[2..] == rest;
    assert as_[1..][1..] == rest && bs[1..][1..] == rest;
    var tail := Join(rest, "|");
    assert Join(as_, "|") == "bank|feed" + "|" + ("row" + "|" + tail);
    assert Join(bs, "|") == "bank" + "|" + ("feed|row" + "|" + tail);
    assert Join(as_, "|") == "bank|feed|row|" + tail == Join(bs, "|");
    assert Sections(a) == Sections(b);
  }

  // --- when another provenance reads alike ---------------------------------------------------

  function Count(s: string, c: char): nat {
    if s == "" then 0 else Count(s[..|s| - 1], c) + if s[|s| - 1] == c then 1 else 0
  }

  lemma {:induction false} CountAppends(a: string, b: string, c: char)
    ensures Count(a + b, c) == Count(a, c) + Count(b, c)
  {
    if b == "" {
      assert a + b == a;
    } else {
      assert (a + b)[..|a + b| - 1] == a + b[..|b| - 1];
      CountAppends(a, b[..|b| - 1], c);
    }
  }

  lemma {:induction false} FreeIffNoneCounted(s: string, c: char)
    ensures Free(s, c) <==> Count(s, c) == 0
  {
    if s != "" {
      FreeIffNoneCounted(s[..|s| - 1], c);
    }
  }

  function CountAll(parts: seq<string>, c: char): nat {
    if parts == [] then 0 else Count(parts[0], c) + CountAll(parts[1..], c)
  }

  lemma {:induction false} AllFreeIffNoneCounted(parts: seq<string>, c: char)
    ensures AllFree(parts, c) <==> CountAll(parts, c) == 0
  {
    if parts != [] {
      FreeIffNoneCounted(parts[0], c);
      AllFreeIffNoneCounted(parts[1..], c);
      assert parts == [parts[0]] + parts[1..];
    }
  }

  lemma {:induction false} JoinCounts(parts: seq<string>, c: char)
    requires parts != []
    ensures Count(Join(parts, [c]), c) == CountAll(parts, c) + |parts| - 1
  {
    if |parts| > 1 {
      JoinCounts(parts[1..], c);
      CountAppends(parts[0] + [c], Join(parts[1..], [c]), c);
      CountAppends(parts[0], [c], c);
      assert Count([c], c) == 1 by { assert [c][..0] == ""; }
    } else {
      assert parts[1..] == [];
    }
  }

  /** Among joins of as many parts, one whose parts are free of the separator is read only one way. */
  lemma FreeJoinIsUnique(ps: seq<string>, qs: seq<string>, c: char)
    requires |ps| == |qs| > 0 && AllFree(ps, c) && Join(ps, [c]) == Join(qs, [c])
    ensures ps == qs
  {
    JoinCounts(ps, c);
    JoinCounts(qs, c);
    AllFreeIffNoneCounted(ps, c);
    AllFreeIffNoneCounted(qs, c);
    JoinIsInjective(ps, qs, c);
  }

  /** Two neighbours join as one text does. */
  lemma {:induction false} NeighboursJoin(pre: seq<string>, x: string, y: string, post: seq<string>, sep: string)
    ensures Join(pre + [x, y] + post, sep) == Join(pre + [x + sep + y] + post, sep)
    decreases |pre|
  {
    var two, one := pre + [x, y] + post, pre + [x + sep + y] + post;
    if pre == [] {
      assert two[1..] == [y] + post && one[1..] == post;
      assert two[1..][1..] == post;
      if post != [] {
        assert x + sep + (y + sep + Join(post, sep)) == x + sep + y + sep + Join(post, sep);
      }
    } else {
      assert two[1..] == pre[1..] + [x, y] + post && one[1..] == pre[1..] + [x + sep + y] + post;
      NeighboursJoin(pre[1..], x, y, post, sep);
    }
  }

  /** A separator inside a part can be moved over to the part's neighbour. */
  lemma SeparatorMoves(pre: seq<string>, u: string, v: string, w: string, post: seq<string>, sep: string)
    ensures Join(pre + [u + sep + v, w] + post, sep) == Join(pre + [u, v + sep + w] + post, sep)
  {
    NeighboursJoin(pre, u + sep + v, w, post, sep);
    NeighboursJoin(pre, u, v + sep + w, post, sep);
    assert u + sep + v + sep + w == u + sep + (v + sep + w);
  }

  /** Parts that hold a separator can be read another way. */
  lemma UnfreeJoinIsAmbiguous(ps: seq<string>, c: char) returns (qs: seq<string>)
    requires |ps| >= 2 && !AllFree(ps, c)
    ensures |qs| == |ps| && qs != ps && Join(qs, [c]) == Join(ps, [c])
  {
    var i :| 0 <= i < |ps| && !Free(ps[i], c);
    var k :| 0 <= k < |ps[i]| && ps[i][k] == c;
    var u, v := ps[i][..k], ps[i][k + 1..];
    assert ps[i] == u + [c] + v;
    if i + 1 < |ps| {
      var pre, w, post := ps[..i], ps[i + 1], ps[i + 2..];
      qs := pre + [u, v + [c] + w] + post;
      assert ps == pre + [u + [c] + v, w] + post;
      SeparatorMoves(pre, u, v, w, post, [c]);
      assert |qs[i]| < |ps[i]|;
    } else {
      var pre, w := ps[..i - 1], ps[i - 1];
      qs := pre + [w + [c] + u, v];
      assert ps == pre + [w, u + [c] + v] + [] && qs == pre + [w + [c] + u, v] + [];
      SeparatorMoves(pre, w, u, v, [], [c]);
      assert |qs[i]| < |ps[i]|;
    }
  }

  lemma {:induction false} JoinTellsOnePart(ps: seq<string>, qs: seq<string>, k: nat, sep: string)
    requires |ps| == |qs| && k < |ps| && (forall i :: 0 <= i < |ps| && i != k ==> ps[i] == qs[i])
    requires Join(ps, sep) == Join(qs, sep)
    ensures ps[k] == qs[k]
    decreases |ps|
  {
    if |ps| > 1 {
      if k == 0 {
        assert ps[1..] == qs[1..];
        var rest := sep + Join(ps[1..], sep);
        assert Join(ps, sep) == ps[0] + rest && Join(qs, sep) == qs[0] + rest;
        SuffixCancels(ps[0], qs[0], rest);
      } else {
        PrefixCancels(ps[0] + sep, Join(ps[1..], sep), Join(qs[1..], sep));
        JoinTellsOnePart(ps[1..], qs[1..], k - 1, sep);
      }
    }
  }

  lemma SuffixCancels(a: string, b: string, s: string)
    requires a + s == b + s
    ensures a == b
  {
    assert (a + s)[..|a|] == a && (b + s)[..|b|] == b;
  }

  lemma PrefixCancels(s: string, a: string, b: string)
    requires s + a == s + b
    ensures a == b
  {
    assert (s + a)[|s|..] == a && (s + b)[|s|..] == b;
  }

  function ProvenanceOf(parts: seq<string>): Provenance
    requires |parts| == 8
  {
    Provenance(parts[0], parts[1], parts[2], parts[3], parts[4], parts[5], parts[6], parts[7])
  }

  predicate DiffersInProvenance(p: Payload, q: Payload) {
    q != p && q == p.(provenance := q.provenance)
  }

  ghost predicate MistakenFor(p: Payload, q: Payload) {
    DiffersInProvenance(p, q) && FingerprintOf(q) == FingerprintOf(p)
  }

  /**
   * Whatever else a payload holds, another that differs in provenance alone can share its fingerprint
   * exactly when some field of its provenance holds a `|`.
   */
  lemma ProvenanceIsMistakenIff(p: Payload)
    ensures (exists q :: MistakenFor(p, q)) <==> !AllFree(ProvenanceParts(p.provenance), '|')
  {
    if AllFree(ProvenanceParts(p.provenance), '|') {
      forall q | MistakenFor(p, q) ensures false {
        CleanProvenanceIsKnown(p, q);
      }
    } else {
      var parts := UnfreeJoinIsAmbiguous(ProvenanceParts(p.provenance), '|');
      var q := p.(provenance := ProvenanceOf(parts));
      assert ProvenanceParts(q.provenance) == parts;
      assert Sections(q) == Sections(p);
      assert MistakenFor(p, q);
    }
  }

  lemma CleanProvenanceIsKnown(p: Payload, q: Payload)
    requires AllFree(ProvenanceParts(p.provenance), '|') && q == p.(provenance := q.provenance)
    requires FingerprintOf(q) == FingerprintOf(p)
    ensures q == p
  {
    JoinTellsOnePart(Sections(p), Sections(q), 4, "::");
    var a, b := ProvenanceParts(p.provenance), ProvenanceParts(q.provenance);
    FreeJoinIsUnique(a, b, '|');
    assert a[0] == b[0] && a[1] == b[1] && a[2] == b[2] && a[3] == b[3];
    assert a[4] == b[4] && a[5] == b[5] && a[6] == b[6] && a[7] == b[7];
  }
}
