/** The byte order of Rust slices, and big-endian integers under it. */
module ByteOrder {
  import opened Basics

  predicate Lt(a: Bytes, b: Bytes) {
    b != [] && (a == [] || a[0] < b[0] || (a[0] == b[0] && Lt(a[1..], b[1..])))
  }

  predicate Le(a: Bytes, b: Bytes) { a == b || Lt(a, b) }

  lemma {:induction false} LtIrreflexive(a: Bytes)
    ensures !Lt(a, a)
  {
    if a != [] { LtIrreflexive(a[1..]); }
  }

  lemma {:induction false} LtTrans(a: Bytes, b: Bytes, c: Bytes)
    requires Lt(a, b) && Lt(b, c)
    ensures Lt(a, c)
  {
    if a != [] && a[0] == b[0] && b[0] == c[0] { LtTrans(a[1..], b[1..], c[1..]); }
  }

  lemma {:induction false} LtTotal(a: Bytes, b: Bytes)
    ensures Lt(a, b) || a == b || Lt(b, a)
  {
    if a != [] && b != [] && a[0] == b[0] {
      LtTotal(a[1..], b[1..]);
      assert a[1..] == b[1..] ==> a == [a[0]] + a[1..] == b;
    }
  }

  lemma LtAsym(a: Bytes, b: Bytes)
    requires Lt(a, b)
    ensures !Lt(b, a) && a != b
  {
    LtIrreflexive(a);
    if Lt(b, a) { LtTrans(a, b, a); }
  }

  lemma LeLtTrans(a: Bytes, b: Bytes, c: Bytes)
    requires (Le(a, b) && Lt(b, c)) || (Lt(a, b) && Le(b, c))
    ensures Lt(a, c)
  {
    if Lt(a, b) && Lt(b, c) { LtTrans(a, b, c); }
  }

  lemma LeTrans(a: Bytes, b: Bytes, c: Bytes)
    requires Le(a, b) && Le(b, c)
    ensures Le(a, c)
  {
    if Lt(a, b) { LeLtTrans(a, b, c); }
  }

  lemma NotLt(a: Bytes, b: Bytes)
    ensures !Lt(a, b) <==> Le(b, a)
  {
    LtTotal(a, b);
    if Lt(a, b) { LtAsym(a, b); }
    LtIrreflexive(a);
  }

  /** A common prefix does not matter. */
  lemma {:induction false} LtPrefix(p: Bytes, a: Bytes, b: Bytes)
    ensures Lt(p + a, p + b) <==> Lt(a, b)
  {
    if p == [] {
      assert p + a == a && p + b == b;
    } else {
      LtPrefix(p[1..], a, b);
      assert (p + a)[1..] == p[1..] + a && (p + b)[1..] == p[1..] + b;
    }
  }

  /** A prefix is at or below what it begins. */
  lemma {:induction false} PrefixLe(p: Bytes, a: Bytes)
    ensures Le(p, p + a) && (a != [] ==> Lt(p, p + a))
  {
    if p == [] {
      assert p + a == a;
    } else {
      PrefixLe(p[1..], a);
      assert (p + a)[1..] == p[1..] + a;
      assert a == [] ==> p + a == p;
    }
  }

  // ---- big-endian integers ------------------------------------------------------------

  function Pow256(w: nat): nat { if w == 0 then 1 else 256 * Pow256(w - 1) }

  function Be(v: nat, w: nat): (b: Bytes)
    ensures |b| == w
  {
    if w == 0 then [] else Be(v / 256, w - 1) + [(v % 256) as Byte]
  }

  function FromBe(b: Bytes): nat { if b == [] then 0 else 256 * FromBe(b[..|b| - 1]) + b[|b| - 1] as nat }

  lemma {:induction false} BeRoundTrip(v: nat, w: nat)
    requires v < Pow256(w)
    ensures FromBe(Be(v, w)) == v
  {
    if w > 0 {
      BeRoundTrip(v / 256, w - 1);
      assert Be(v, w)[..w - 1] == Be(v / 256, w - 1);
    }
  }

  lemma {:induction false} FromBeRoundTrip(b: Bytes)
    ensures FromBe(b) < Pow256(|b|) && Be(FromBe(b), |b|) == b
  {
    if b != [] {
      FromBeRoundTrip(b[..|b| - 1]);
      assert FromBe(b) / 256 == FromBe(b[..|b| - 1]);
      assert b == b[..|b| - 1] + [b[|b| - 1]];
    }
  }

  /** Byte order is numeric order, whatever follows. */
  lemma {:induction false} BeOrder(v: nat, u: nat, w: nat, x: Bytes, y: Bytes)
    requires v < u < Pow256(w)
    ensures Lt(Be(v, w) + x, Be(u, w) + y)
  {
    if w > 0 {
      var vx, uy := [(v % 256) as Byte] + x, [(u % 256) as Byte] + y;
      assert Be(v, w) + x == Be(v / 256, w - 1) + vx;
      assert Be(u, w) + y == Be(u / 256, w - 1) + uy;
      if v / 256 == u / 256 {
        LtPrefix(Be(v / 256, w - 1), vx, uy);
      } else {
        BeOrder(v / 256, u / 256, w - 1, vx, uy);
      }
    }
  }
}
