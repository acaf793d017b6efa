/** The scheduler fingerprint: a NUL-separated rendering of what rotation state means. */
module Fingerprint {
  import opened Config

  const NUL := '\0'

  function StrategyName(s: Strategy): string {
    if s == Weighted then "weighted_round_robin" else "round_robin"
  }

  function Decimal(n: nat): string {
    if n < 10 then [(n as char) + '0'] else Decimal(n / 10) + [((n % 10) as char) + '0']
  }

  function MemberFields(egress: seq<Id>, rt: Runtime, weighted: bool): seq<string> {
    if egress == [] then []
    else
      (if weighted then [egress[0].text, Decimal(WeightOf(rt, egress[0]))] else [egress[0].text])
      + MemberFields(egress[1..], rt, weighted)
  }

  function Fields(route: Route, rt: Runtime): seq<string> {
    [StrategyName(route.strategy), route.id.text, Decimal(|route.egress|)]
    + MemberFields(route.egress, rt, route.strategy == Weighted)
  }

  /** Every field preceded by the separator. */
  function Tagged(fields: seq<string>): string {
    if fields == [] then [] else [NUL] + fields[0] + Tagged(fields[1..])
  }

  function Of(route: Route, rt: Runtime): string {
    var f := Fields(route, rt);
    f[0] + Tagged(f[1..])
  }

  /** The builder loop: one separator and one field at a time. */
  method Build(route: Route, rt: Runtime) returns (b: string)
    ensures b == Of(route, rt)
  {
    var weighted := route.strategy == Weighted;
    b := StrategyName(route.strategy) + [NUL] + route.id.text + [NUL] + Decimal(|route.egress|);
    HeadIsTagged(route, rt);
    for k := 0 to |route.egress|
      invariant b + Tagged(MemberFields(route.egress[k..], rt, weighted)) == Of(route, rt)
    {
      TaggedMember(route.egress[k..], rt, weighted);
      assert route.egress[k..][1..] == route.egress[k + 1..];
      ghost var before := b;
      b := b + [NUL] + route.egress[k].text;
      if weighted {
        b := b + [NUL] + Decimal(WeightOf(rt, route.egress[k]));
      }
      Regroup(before, b, TaggedOne(route.egress[k], rt, weighted),
              Tagged(MemberFields(route.egress[k + 1..], rt, weighted)));
    }
  }

  lemma Regroup(before: string, after: string, step: string, rest: string)
    requires after == before + step
    ensures after + rest == before + (step + rest)
  {
  }

  function TaggedOne(id: Id, rt: Runtime, weighted: bool): string {
    [NUL] + id.text + (if weighted then [NUL] + Decimal(WeightOf(rt, id)) else [])
  }

  lemma TaggedMember(egress: seq<Id>, rt: Runtime, weighted: bool)
    requires egress != []
    ensures Tagged(MemberFields(egress, rt, weighted))
         == TaggedOne(egress[0], rt, weighted) + Tagged(MemberFields(egress[1..], rt, weighted))
  {
    var x, w := egress[0].text, Decimal(WeightOf(rt, egress[0]));
    TaggedConcat(if weighted then [x, w] else [x], MemberFields(egress[1..], rt, weighted));
    assert Tagged([x]) == [NUL] + x + Tagged([]);
    assert [x, w][1..] == [w];
    assert Tagged([w]) == [NUL] + w + Tagged([]);
  }

  lemma HeadIsTagged(route: Route, rt: Runtime)
    ensures Of(route, rt)
         == StrategyName(route.strategy) + [NUL] + route.id.text + [NUL] + Decimal(|route.egress|)
            + Tagged(MemberFields(route.egress, rt, route.strategy == Weighted))
  {
    var m := MemberFields(route.egress, rt, route.strategy == Weighted);
    var f := Fields(route, rt);
    var d := Decimal(|route.egress|);
    assert f[1..] == [route.id.text] + ([d] + m);
    TaggedConcat([route.id.text], [d] + m);
    TaggedConcat([d], m);
    assert Tagged([route.id.text]) == [NUL] + route.id.text;
    assert Tagged([d]) == [NUL] + d;
  }

  lemma {:induction false} TaggedConcat(a: seq<string>, b: seq<string>)
    ensures Tagged(a + b) == Tagged(a) + Tagged(b)
  {
    if a == [] {
      assert a + b == b;
    } else {
      assert (a + b)[1..] == a[1..] + b;
      TaggedConcat(a[1..], b);
    }
  }

  // ---- injectivity ----

  predicate Clean(s: string) { NUL !in s }

  ghost predicate AllClean(f: seq<string>) { forall i | 0 <= i < |f| :: Clean(f[i]) }

  lemma {:induction false} DecimalClean(n: nat)
    ensures Clean(Decimal(n)) && |Decimal(n)| > 0
  {
    if n >= 10 { DecimalClean(n / 10); }
  }

  lemma {:induction false} DecimalInjective(a: nat, b: nat)
    requires Decimal(a) == Decimal(b)
    ensures a == b
  {
    DecimalClean(a / 10);
    DecimalClean(b / 10);
    var da, db := Decimal(a), Decimal(b);
    assert da[|da| - 1] == db[|db| - 1];
    if a >= 10 && b >= 10 {
      assert Decimal(a / 10) == da[..|da| - 1] == db[..|db| - 1] == Decimal(b / 10);
      DecimalInjective(a / 10, b / 10);
    }
  }

  /** A clean field ends at the first separator, whatever follows. */
  lemma FieldEnds(x: string, r: string, y: string, q: string)
    requires Clean(x) && Clean(y)
    requires r == "" || r[0] == NUL
    requires q == "" || q[0] == NUL
    requires x + r == y + q
    ensures x == y && r == q
  {
    var s := x + r;
    assert |x| < |s| ==> s[|x|] == NUL;
    assert s == y + q && (|y| < |s| ==> s[|y|] == NUL);
    assert forall i | 0 <= i < |x| :: s[i] == x[i] != NUL;
    assert forall i | 0 <= i < |y| :: s[i] == y[i] != NUL;
    assert |x| == |y|;
    assert x == (x + r)[..|x|] && y == (y + q)[..|y|];
    assert r == (x + r)[|x|..] && q == (y + q)[|y|..];
  }

  lemma {:induction false} TaggedInjective(a: seq<string>, b: seq<string>)
    requires AllClean(a) && AllClean(b)
    requires Tagged(a) == Tagged(b)
    ensures a == b
  {
    if a == [] || b == [] {
      assert a == b == [];
    } else {
      var ra, rb := Tagged(a[1..]), Tagged(b[1..]);
      assert a[0] + ra == Tagged(a)[1..];
      assert b[0] + rb == Tagged(b)[1..];
      FieldEnds(a[0], ra, b[0], rb);
      TaggedInjective(a[1..], b[1..]);
      assert a == [a[0]] + a[1..] && b == [b[0]] + b[1..];
    }
  }

  lemma {:induction false} MemberFieldsClean(egress: seq<Id>, rt: Runtime, weighted: bool)
    requires forall i | 0 <= i < |egress| :: !HasControlByte(egress[i].text)
    ensures AllClean(MemberFields(egress, rt, weighted))
  {
    if egress != [] {
      MemberFieldsClean(egress[1..], rt, weighted);
      DecimalClean(WeightOf(rt, egress[0]));
    }
  }

  lemma FieldsClean(route: Route, rt: Runtime)
    requires ValidRoute(route, rt)
    ensures AllClean(Fields(route, rt))
  {
    MemberFieldsClean(route.egress, rt, route.strategy == Weighted);
    DecimalClean(|route.egress|);
  }

  lemma {:induction false} MembersInjective(a: seq<Id>, ra: Runtime, b: seq<Id>, rb: Runtime, weighted: bool)
    requires MemberFields(a, ra, weighted) == MemberFields(b, rb, weighted)
    ensures a == b
    ensures weighted ==> forall i | 0 <= i < |a| :: WeightOf(ra, a[i]) == WeightOf(rb, a[i])
  {
    var fa, fb := MemberFields(a, ra, weighted), MemberFields(b, rb, weighted);
    if a == [] || b == [] {
    } else {
      var k := if weighted then 2 else 1;
      assert fa[0] == a[0].text && fb[0] == b[0].text;
      assert fa[k..] == MemberFields(a[1..], ra, weighted);
      assert fb[k..] == MemberFields(b[1..], rb, weighted);
      MembersInjective(a[1..], ra, b[1..], rb, weighted);
      if weighted {
        assert fa[1] == fb[1];
        DecimalInjective(WeightOf(ra, a[0]), WeightOf(rb, a[0]));
      }
      assert a == [a[0]] + a[1..] && b == [b[0]] + b[1..];
    }
  }

  predicate SameShape(a: Route, ra: Runtime, b: Route, rb: Runtime) {
    && (a.strategy == Weighted <==> b.strategy == Weighted)
    && a.id == b.id
    && a.egress == b.egress
    && (a.strategy == Weighted ==>
          forall i | 0 <= i < |a.egress| :: WeightOf(ra, a.egress[i]) == WeightOf(rb, a.egress[i]))
  }

  /** Two validated routes have one fingerprint exactly when they have one shape. */
  lemma FingerprintIdentifiesShape(a: Route, ra: Runtime, b: Route, rb: Runtime)
    requires ValidRoute(a, ra) && ValidRoute(b, rb)
    ensures Of(a, ra) == Of(b, rb) <==> SameShape(a, ra, b, rb)
  {
    var fa, fb := Fields(a, ra), Fields(b, rb);
    FieldsClean(a, ra);
    FieldsClean(b, rb);
    if Of(a, ra) == Of(b, rb) {
      FieldEnds(fa[0], Tagged(fa[1..]), fb[0], Tagged(fb[1..]));
      TaggedInjective(fa[1..], fb[1..]);
      assert |StrategyName(Weighted)| != |StrategyName(RoundRobin)|;
      assert fa[1..][0] == fb[1..][0];
      assert fa[3..] == fa[1..][2..] && fb[3..] == fb[1..][2..];
      MembersInjective(a.egress, ra, b.egress, rb, a.strategy == Weighted);
    }
    if SameShape(a, ra, b, rb) {
      SameMembers(a.egress, ra, rb, a.strategy == Weighted);
    }
  }

  lemma {:induction false} SameMembers(egress: seq<Id>, ra: Runtime, rb: Runtime, weighted: bool)
    requires weighted ==> forall i | 0 <= i < |egress| :: WeightOf(ra, egress[i]) == WeightOf(rb, egress[i])
    ensures MemberFields(egress, ra, weighted) == MemberFields(egress, rb, weighted)
  {
    if egress != [] {
      SameMembers(egress[1..], ra, rb, weighted);
    }
  }
}
