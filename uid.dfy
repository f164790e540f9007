/** The identifier generator `UID()`: the version-4 UUID template
    `xxxxxxxx-xxxx-4xxx-yxxx-xxxxxxxxxxxx` (RFC 4122, section 4.4) with every
    `x` replaced by a random nibble and the `y` by the nibble `(r & 3) | 8`.
    The random source is an input: one nibble per template hole, in order. */
module Uid {

  type Nibble = bv4

  /** The 31 random nibbles one call of `UID()` draws. */
  type Randomness = r: seq<Nibble> | |r| == 31 witness seq(31, _ => 0 as bv4)

  /** `n` holes of the kind `x`. */
  function Xs(n: nat): (t: string)
    ensures |t| == n
  {
    seq(n, _ => 'x')
  }

  /** The template `xxxxxxxx-xxxx-4xxx-yxxx-xxxxxxxxxxxx`, written by its groups. */
  const Template: string := Xs(8) + "-" + Xs(4) + "-4" + Xs(3) + "-y" + Xs(3) + "-" + Xs(12)

  const HexDigits: string := "0123456789abcdef"

  /** `v.toString(16)` for a nibble. */
  function Hex(v: Nibble): (c: char)
    ensures c in HexDigits
  {
    HexDigits[v as int]
  }

  /** The variant nibble: `r & 0x3 | 0x8`. */
  function Variant(r: Nibble): (v: Nibble)
    ensures 8 <= v as int <= 11
  {
    (r & 0x3) | 0x8
  }

  /** Number of characters of `t` the `/[xy]/g` replacement rewrites. */
  function Holes(t: string): nat
  {
    if t == [] then 0 else (if t[0] in "xy" then 1 else 0) + Holes(t[1..])
  }

  /** `t.replace(/[xy]/g, ...)`, consuming one nibble per hole from left to right. */
  function Fill(t: string, r: seq<Nibble>): (s: string)
    requires |r| == Holes(t)
    ensures |s| == |t|
  {
    if t == [] then []
    else if t[0] == 'x' then [Hex(r[0])] + Fill(t[1..], r[1..])
    else if t[0] == 'y' then [Hex(Variant(r[0]))] + Fill(t[1..], r[1..])
    else [t[0]] + Fill(t[1..], r)
  }

  /** Each position of a filled template: kept, a hex digit, or a variant digit. */
  lemma {:induction false} FillAt(t: string, r: seq<Nibble>, i: nat)
    requires |r| == Holes(t) && i < |t|
    ensures t[i] !in "xy" ==> Fill(t, r)[i] == t[i]
    ensures t[i] == 'x' ==> Fill(t, r)[i] in HexDigits
    ensures t[i] == 'y' ==> Fill(t, r)[i] in "89ab"
  {
    if i > 0 {
      if t[0] in "xy" {
        FillAt(t[1..], r[1..], i - 1);
      } else {
        FillAt(t[1..], r, i - 1);
      }
    } else if t[0] == 'y' {
      var v := Variant(r[0]);
      assert v == 8 || v == 9 || v == 10 || v == 11;
    }
  }

  /** Which holes of `t` are `x` (true) and which are `y` (false), in order. */
  function HoleKinds(t: string): (k: seq<bool>)
    ensures |k| == Holes(t)
  {
    if t == [] then []
    else if t[0] == 'x' then [true] + HoleKinds(t[1..])
    else if t[0] == 'y' then [false] + HoleKinds(t[1..])
    else HoleKinds(t[1..])
  }

  /** Two nibbles drawn for a hole give the same character: all four bits
      count for an `x`, only the low two bits for the `y`. */
  predicate SameDigit(isX: bool, a: Nibble, b: Nibble)
  {
    if isX then a == b else a & 0x3 == b & 0x3
  }

  predicate Agree(kinds: seq<bool>, a: seq<Nibble>, b: seq<Nibble>)
    requires |a| == |kinds| && |b| == |kinds|
  {
    forall k :: 0 <= k < |kinds| ==> SameDigit(kinds[k], a[k], b[k])
  }

  lemma VariantDigit(a: Nibble, b: Nibble)
    ensures Hex(Variant(a)) == Hex(Variant(b)) <==> a & 0x3 == b & 0x3
  {
    assert Hex(Variant(a)) == Hex(Variant(b)) <==> Variant(a) == Variant(b);
  }

  lemma HexDigit(a: Nibble, b: Nibble)
    ensures Hex(a) == Hex(b) <==> a == b
  {
  }

  lemma ConsEq(c: char, s: string, d: char, u: string)
    ensures [c] + s == [d] + u <==> c == d && s == u
  {
    if [c] + s == [d] + u {
      assert ([c] + s)[0] == c && ([d] + u)[0] == d;
      assert ([c] + s)[1..] == s && ([d] + u)[1..] == u;
    }
  }

  /** Filling a template is injective up to the bits the `y` hole discards. */
  lemma {:induction false} FillInjective(t: string, a: seq<Nibble>, b: seq<Nibble>)
    requires |a| == Holes(t) && |b| == Holes(t)
    ensures Fill(t, a) == Fill(t, b) <==> Agree(HoleKinds(t), a, b)
  {
    if t == [] {
    } else if t[0] in "xy" {
      FillInjective(t[1..], a[1..], b[1..]);
      var isX := t[0] == 'x';
      var k := HoleKinds(t);
      assert k == [isX] + HoleKinds(t[1..]);
      if isX {
        HexDigit(a[0], b[0]);
        ConsEq(Hex(a[0]), Fill(t[1..], a[1..]), Hex(b[0]), Fill(t[1..], b[1..]));
      } else {
        VariantDigit(a[0], b[0]);
        ConsEq(Hex(Variant(a[0])), Fill(t[1..], a[1..]), Hex(Variant(b[0])), Fill(t[1..], b[1..]));
      }
      assert Fill(t, a) == Fill(t, b) <==> SameDigit(isX, a[0], b[0]) && Fill(t[1..], a[1..]) == Fill(t[1..], b[1..]);
      AgreeCons(isX, HoleKinds(t[1..]), a, b);
    } else {
      FillInjective(t[1..], a, b);
      ConsEq(t[0], Fill(t[1..], a), t[0], Fill(t[1..], b));
    }
  }

  lemma AgreeCons(isX: bool, kinds: seq<bool>, a: seq<Nibble>, b: seq<Nibble>)
    requires |a| == |kinds| + 1 && |b| == |kinds| + 1
    ensures Agree([isX] + kinds, a, b) <==> SameDigit(isX, a[0], b[0]) && Agree(kinds, a[1..], b[1..])
  {
    var k := [isX] + kinds;
    if SameDigit(isX, a[0], b[0]) && Agree(kinds, a[1..], b[1..]) {
      forall i | 0 <= i < |k| ensures SameDigit(k[i], a[i], b[i]) {
        if i > 0 { assert k[i] == kinds[i - 1] && a[i] == a[1..][i - 1] && b[i] == b[1..][i - 1]; }
      }
    }
    if Agree(k, a, b) {
      forall i | 0 <= i < |kinds| ensures SameDigit(kinds[i], a[1..][i], b[1..][i]) {
        assert k[i + 1] == kinds[i];
      }
    }
  }

  lemma {:induction false} HolesAppend(s: string, t: string)
    ensures Holes(s + t) == Holes(s) + Holes(t)
    ensures HoleKinds(s + t) == HoleKinds(s) + HoleKinds(t)
  {
    if s == [] {
      assert s + t == t;
    } else {
      assert (s + t)[0] == s[0] && (s + t)[1..] == s[1..] + t;
      HolesAppend(s[1..], t);
    }
  }

  lemma {:induction false} XsHoles(n: nat)
    ensures Holes(Xs(n)) == n
    ensures HoleKinds(Xs(n)) == Trues(n)
  {
    if n > 0 {
      assert Xs(n)[1..] == Xs(n - 1);
      XsHoles(n - 1);
    }
  }

  /** `n` holes of kind `x`. */
  function Trues(n: nat): (k: seq<bool>)
    ensures |k| == n && forall i :: 0 <= i < n ==> k[i]
  {
    seq(n, _ => true)
  }

  lemma TruesAppend(m: nat, n: nat)
    ensures Trues(m) + Trues(n) == Trues(m + n)
  {
  }

  /** `HoleKinds` of two pieces whose kinds are known. */
  lemma JoinKinds(s: string, t: string, a: seq<bool>, b: seq<bool>)
    requires HoleKinds(s) == a && HoleKinds(t) == b
    ensures HoleKinds(s + t) == a + b
  {
    HolesAppend(s, t);
  }

  /** The holes of the template's first three groups: fifteen `x`. */
  lemma FrontKinds()
    ensures HoleKinds(Xs(8) + "-" + Xs(4) + "-4" + Xs(3)) == Trues(15)
  {
    var p1 := Xs(8) + "-";
    var p2 := p1 + Xs(4);
    var p3 := p2 + "-4";
    XsHoles(8); XsHoles(4); XsHoles(3);
    assert HoleKinds("-") == [];
    assert HoleKinds("-4") == [];
    JoinKinds(Xs(8), "-", Trues(8), []);
    JoinKinds(p1, Xs(4), Trues(8), Trues(4));
    TruesAppend(8, 4);
    JoinKinds(p2, "-4", Trues(12), []);
    JoinKinds(p3, Xs(3), Trues(12), Trues(3));
    TruesAppend(12, 3);
  }

  /** The holes of the last two groups, after the `y`: fifteen `x`. */
  lemma BackKinds(p: string)
    requires HoleKinds(p) == Trues(15)
    ensures HoleKinds(p + "-y" + Xs(3) + "-" + Xs(12)) == Trues(15) + [false] + Trues(15)
  {
    var p5 := p + "-y";
    var p6 := p5 + Xs(3);
    var p7 := p6 + "-";
    XsHoles(3); XsHoles(12);
    assert HoleKinds("-y") == [false];
    assert HoleKinds("-") == [];
    JoinKinds(p, "-y", Trues(15), [false]);
    JoinKinds(p5, Xs(3), Trues(15) + [false], Trues(3));
    JoinKinds(p6, "-", Trues(15) + [false] + Trues(3), []);
    JoinKinds(p7, Xs(12), Trues(15) + [false] + Trues(3), Trues(12));
    TruesAppend(3, 12);
    assert Trues(15) + [false] + Trues(3) + Trues(12) == Trues(15) + [false] + (Trues(3) + Trues(12));
  }

  /** The template has 31 holes, all `x` except the sixteenth, the `y`. */
  lemma TemplateHoles()
    ensures Holes(Template) == 31
    ensures forall k :: 0 <= k < 31 ==> HoleKinds(Template)[k] == (k != 15)
  {
    var front := Xs(8) + "-" + Xs(4) + "-4" + Xs(3);
    FrontKinds();
    BackKinds(front);
    assert Template == front + "-y" + Xs(3) + "-" + Xs(12);
  }

  lemma TemplateAt(i: nat)
    requires i < 36
    ensures Template[i] == (if i in {8, 13, 18, 23} then '-' else if i == 14 then '4' else if i == 19 then 'y' else 'x')
  {
  }

  /** `UID()` for the nibbles `r`: 36 characters, dashes at 8, 13, 18 and 23, the
      version digit `4` at 14, a variant digit in `8`..`b` at 19, and a lower-case
      hex digit everywhere else. */
  function UID(r: Randomness): (s: string)
    ensures |s| == 36
    ensures s[8] == '-' && s[13] == '-' && s[18] == '-' && s[23] == '-'
    ensures s[14] == '4'
    ensures s[19] in "89ab"
    ensures forall i :: 0 <= i < 36 && i !in {8, 13, 14, 18, 19, 23} ==> s[i] in HexDigits
  {
    TemplateHoles();
    var s := Fill(Template, r);
    forall i | 0 <= i < 36
      ensures i in {8, 13, 18, 23} ==> s[i] == '-'
      ensures i == 14 ==> s[i] == '4'
      ensures i == 19 ==> s[i] in "89ab"
      ensures i !in {8, 13, 14, 18, 19, 23} ==> s[i] in HexDigits
    {
      TemplateAt(i);
      FillAt(Template, r, i);
    }
    s
  }

  /** Two draws give the same identifier exactly when they agree on every nibble
      except the top two bits of the sixteenth (the `y` hole): 122 random bits. */
  lemma UIDInjective(a: Randomness, b: Randomness)
    ensures UID(a) == UID(b) <==>
            (forall k :: 0 <= k < 31 && k != 15 ==> a[k] == b[k]) && a[15] & 0x3 == b[15] & 0x3
  {
    TemplateHoles();
    FillInjective(Template, a, b);
  }
}
