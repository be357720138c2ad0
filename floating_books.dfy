/**
 * The animated background (`src/components/FloatingBooksBackground.tsx`): books that
 * drift, spin and wrap around the canvas, and the per-book drawing step that rotates a
 * box, orders its six faces back to front and shades them by paint position. Sines and
 * cosines are inputs, numbers are `real`, and the canvas calls are not modelled.
 */
module FloatingBooks {

  datatype Vec3 = Vec3(x: real, y: real, z: real)

  /** A 3x3 matrix by rows. */
  datatype Mat3 = Mat3(r0: Vec3, r1: Vec3, r2: Vec3)

  function Dot(a: Vec3, b: Vec3): real
  {
    a.x * b.x + a.y * b.y + a.z * b.z
  }

  function Add(a: Vec3, b: Vec3): Vec3
  {
    Vec3(a.x + b.x, a.y + b.y, a.z + b.z)
  }

  function ScaleVec(c: real, a: Vec3): Vec3
  {
    Vec3(c * a.x, c * a.y, c * a.z)
  }

  /** `multiplyMatrixVector`: component `i` is row `i` dotted with the vector. */
  function MultiplyMatrixVector(m: Mat3, v: Vec3): Vec3
  {
    Vec3(Dot(m.r0, v), Dot(m.r1, v), Dot(m.r2, v))
  }

  function Identity(): Mat3
  {
    Mat3(Vec3(1.0, 0.0, 0.0), Vec3(0.0, 1.0, 0.0), Vec3(0.0, 0.0, 1.0))
  }

  function Column0(m: Mat3): Vec3 { Vec3(m.r0.x, m.r1.x, m.r2.x) }
  function Column1(m: Mat3): Vec3 { Vec3(m.r0.y, m.r1.y, m.r2.y) }
  function Column2(m: Mat3): Vec3 { Vec3(m.r0.z, m.r1.z, m.r2.z) }

  /** The matrix product, row by column. */
  function MatMul(a: Mat3, b: Mat3): Mat3
  {
    Mat3(Vec3(Dot(a.r0, Column0(b)), Dot(a.r0, Column1(b)), Dot(a.r0, Column2(b))),
         Vec3(Dot(a.r1, Column0(b)), Dot(a.r1, Column1(b)), Dot(a.r1, Column2(b))),
         Vec3(Dot(a.r2, Column0(b)), Dot(a.r2, Column1(b)), Dot(a.r2, Column2(b))))
  }

  /** The product is the standard one: linear in the vector, the identity fixes every vector. */
  lemma MultiplyIsLinear(m: Mat3, u: Vec3, v: Vec3, c: real)
    ensures MultiplyMatrixVector(m, Add(u, v)) == Add(MultiplyMatrixVector(m, u), MultiplyMatrixVector(m, v))
    ensures MultiplyMatrixVector(m, ScaleVec(c, v)) == ScaleVec(c, MultiplyMatrixVector(m, v))
    ensures MultiplyMatrixVector(Identity(), v) == v
  {
  }

  /** Applying `b` and then `a` is applying their product: the two rotations compose. */
  lemma {:induction false} MultiplyComposes(a: Mat3, b: Mat3, v: Vec3)
    ensures MultiplyMatrixVector(a, MultiplyMatrixVector(b, v)) == MultiplyMatrixVector(MatMul(a, b), v)
  {
    var bv := MultiplyMatrixVector(b, v);
    var ab := MatMul(a, b);
    assert Dot(a.r0, bv) == Dot(ab.r0, v) by {
      assert Dot(a.r0, bv) == a.r0.x * Dot(b.r0, v) + a.r0.y * Dot(b.r1, v) + a.r0.z * Dot(b.r2, v);
    }
    assert Dot(a.r1, bv) == Dot(ab.r1, v) by {
      assert Dot(a.r1, bv) == a.r1.x * Dot(b.r0, v) + a.r1.y * Dot(b.r1, v) + a.r1.z * Dot(b.r2, v);
    }
    assert Dot(a.r2, bv) == Dot(ab.r2, v) by {
      assert Dot(a.r2, bv) == a.r2.x * Dot(b.r0, v) + a.r2.y * Dot(b.r1, v) + a.r2.z * Dot(b.r2, v);
    }
  }

  /** `rotXMatrix` for `cos(rotX) = c`, `sin(rotX) = s`. */
  function RotX(c: real, s: real): Mat3
  {
    Mat3(Vec3(1.0, 0.0, 0.0), Vec3(0.0, c, -s), Vec3(0.0, s, c))
  }

  /** `rotYMatrix` for `cos(rotY) = c`, `sin(rotY) = s`. */
  function RotY(c: real, s: real): Mat3
  {
    Mat3(Vec3(c, 0.0, s), Vec3(0.0, 1.0, 0.0), Vec3(-s, 0.0, c))
  }

  function NormSquared(v: Vec3): real
  {
    Dot(v, v)
  }

  /** With `c² + s² = 1` both matrices are rotations: they keep every vector's length. */
  lemma {:induction false} RotationsKeepLength(c: real, s: real, v: Vec3)
    requires c * c + s * s == 1.0
    ensures NormSquared(MultiplyMatrixVector(RotX(c, s), v)) == NormSquared(v)
    ensures NormSquared(MultiplyMatrixVector(RotY(c, s), v)) == NormSquared(v)
  {
    var y := c * v.y - s * v.z;
    var z := s * v.y + c * v.z;
    assert y * y + z * z == (c * c + s * s) * (v.y * v.y + v.z * v.z);
    var x := c * v.x + s * v.z;
    var z' := -s * v.x + c * v.z;
    assert x * x + z' * z' == (c * c + s * s) * (v.x * v.x + v.z * v.z);
  }

  /** The cosines and sines of a book's `rotX` and `rotY` (its `rotZ` has none: it is never read). */
  datatype Trig = Trig(cosX: real, sinX: real, cosY: real, sinY: real)

  datatype BookState = BookState(
    x: real, y: real, z: real,
    rotX: real, rotY: real, rotZ: real,
    vx: real, vy: real, vz: real,
    color: string,
    width: real, height: real, depth: real,
    subject: string)

  /** One coordinate's wrap: below `lo` jumps to `hi`, then above `hi` jumps to `lo`. */
  function Wrap(v: real, lo: real, hi: real): (r: real)
    requires lo <= hi
    ensures lo <= r <= hi
    ensures lo <= v <= hi ==> r == v
    ensures v < lo ==> r == hi
    ensures v > hi ==> r == lo
  {
    var a := if v < lo then hi else v;
    if a > hi then lo else a
  }

  /**
   * One animation tick for a book on a `width` x `height` canvas: move by the velocity,
   * turn (with `sinT`, `cosT` standing for the two time-varying terms), then wrap.
   */
  function StepBook(b: BookState, width: real, height: real, sinT: real, cosT: real): (r: BookState)
    requires width >= 0.0 && height >= 0.0
    ensures -100.0 <= r.x <= width + 100.0 && -100.0 <= r.y <= height + 100.0 && -150.0 <= r.z <= 150.0
    ensures -100.0 <= b.x + b.vx <= width + 100.0 ==> r.x == b.x + b.vx
    ensures -100.0 <= b.y + b.vy <= height + 100.0 ==> r.y == b.y + b.vy
    ensures -150.0 <= b.z + b.vz <= 150.0 ==> r.z == b.z + b.vz
    ensures r.x == Wrap(b.x + b.vx, -100.0, width + 100.0) && r.y == Wrap(b.y + b.vy, -100.0, height + 100.0)
    ensures r.z == Wrap(b.z + b.vz, -150.0, 150.0)
    ensures r.rotZ == b.rotZ + 0.003
    ensures r.rotX == b.rotX + 0.005 + sinT * 0.002 && r.rotY == b.rotY + 0.008 + cosT * 0.003
    ensures r.vx == b.vx && r.vy == b.vy && r.vz == b.vz && r.color == b.color && r.subject == b.subject
    ensures r.width == b.width && r.height == b.height && r.depth == b.depth
  {
    b.(x := Wrap(b.x + b.vx, -100.0, width + 100.0),
       y := Wrap(b.y + b.vy, -100.0, height + 100.0),
       z := Wrap(b.z + b.vz, -150.0, 150.0),
       rotX := b.rotX + 0.005 + sinT * 0.002,
       rotY := b.rotY + 0.008 + cosT * 0.003,
       rotZ := b.rotZ + 0.003)
  }

  /** A book in the animation; the tick changes its fields in place. */
  class Book {
    var x: real
    var y: real
    var z: real
    var rotX: real
    var rotY: real
    var rotZ: real
    var vx: real
    var vy: real
    var vz: real
    var color: string
    var width: real
    var height: real
    var depth: real
    var subject: string

    function State(): BookState
      reads this
    {
      BookState(x, y, z, rotX, rotY, rotZ, vx, vy, vz, color, width, height, depth, subject)
    }

    constructor (s: BookState)
      ensures State() == s
    {
      x, y, z := s.x, s.y, s.z;
      rotX, rotY, rotZ := s.rotX, s.rotY, s.rotZ;
      vx, vy, vz := s.vx, s.vy, s.vz;
      color := s.color;
      width, height, depth := s.width, s.height, s.depth;
      subject := s.subject;
    }

    /** The body of the `forEach` in `animate`: move, turn, then the six wrap checks in order. */
    method Tick(canvasWidth: real, canvasHeight: real, sinT: real, cosT: real)
      requires canvasWidth >= 0.0 && canvasHeight >= 0.0
      modifies this
      ensures State() == StepBook(old(State()), canvasWidth, canvasHeight, sinT, cosT)
    {
      x := x + vx;
      y := y + vy;
      z := z + vz;
      rotX := rotX + 0.005 + sinT * 0.002;
      rotY := rotY + 0.008 + cosT * 0.003;
      rotZ := rotZ + 0.003;
      ghost var moved := State();
      if x < -100.0 { x := canvasWidth + 100.0; }
      if x > canvasWidth + 100.0 { x := -100.0; }
      assert x == Wrap(moved.x, -100.0, canvasWidth + 100.0);
      if y < -100.0 { y := canvasHeight + 100.0; }
      if y > canvasHeight + 100.0 { y := -100.0; }
      assert y == Wrap(moved.y, -100.0, canvasHeight + 100.0);
      if z < -150.0 { z := 150.0; }
      if z > 150.0 { z := -150.0; }
      assert z == Wrap(moved.z, -150.0, 150.0);
    }
  }

  /** One frame's updates: every book ticks once; `sinT[i]`, `cosT[i]` are the i-th book's time terms. */
  method TickAll(books: array<Book>, canvasWidth: real, canvasHeight: real, sinT: seq<real>, cosT: seq<real>)
    requires canvasWidth >= 0.0 && canvasHeight >= 0.0
    requires |sinT| == books.Length && |cosT| == books.Length
    requires forall i, j :: 0 <= i < j < books.Length ==> books[i] != books[j]
    modifies set i | 0 <= i < books.Length :: books[i]
    ensures forall i :: 0 <= i < books.Length ==>
      books[i].State() == StepBook(old(books[i].State()), canvasWidth, canvasHeight, sinT[i], cosT[i])
  {
    for i := 0 to books.Length
      invariant forall j :: 0 <= j < i ==>
        books[j].State() == StepBook(old(books[j].State()), canvasWidth, canvasHeight, sinT[j], cosT[j])
      invariant forall j :: i <= j < books.Length ==> books[j].State() == old(books[j].State())
    {
      books[i].Tick(canvasWidth, canvasHeight, sinT[i], cosT[i]);
    }
  }

  /** `(z + 200) / 400`. */
  function Scale(z: real): real
  {
    (z + 200.0) / 400.0
  }

  /** `Math.max(0.1, Math.min(0.8, scale))`. */
  function Opacity(scale: real): (o: real)
    ensures 0.1 <= o <= 0.8
    ensures 0.1 <= scale <= 0.8 ==> o == scale
    ensures scale < 0.1 ==> o == 0.1
    ensures scale > 0.8 ==> o == 0.8
  {
    var m := if scale < 0.8 then scale else 0.8;
    if m > 0.1 then m else 0.1
  }

  /** For a book that has just ticked (`z` in [-150, 150]) the scale lies in [0.125, 0.875]. */
  lemma ScaleOfWrappedBook(z: real)
    requires -150.0 <= z <= 150.0
    ensures 0.125 <= Scale(z) <= 0.875
  {
  }

  /**
   * The eight box corners, front face (`+depth/2`) first. With `Faces` and `FaceDepths` this is the
   * reference geometry that `DrawBook` and `DepthsIgnoreRotZ` are stated against.
   */
  function Vertices(b: BookState): (vs: seq<Vec3>)
    ensures |vs| == 8
    ensures forall i :: 0 <= i < 8 ==> vs[i].z == (if i < 4 then b.depth / 2.0 else -(b.depth / 2.0))
    ensures forall i :: 0 <= i < 8 ==> vs[i].x == (if i % 4 == 0 || i % 4 == 3 then -(b.width / 2.0) else b.width / 2.0)
    ensures forall i :: 0 <= i < 8 ==> vs[i].y == (if i % 4 < 2 then -(b.height / 2.0) else b.height / 2.0)
  {
    var w := b.width / 2.0;
    var h := b.height / 2.0;
    var d := b.depth / 2.0;
    [Vec3(-w, -h, d), Vec3(w, -h, d), Vec3(w, h, d), Vec3(-w, h, d),
     Vec3(-w, -h, -d), Vec3(w, -h, -d), Vec3(w, h, -d), Vec3(-w, h, -d)]
  }

  /** Each vertex rotated about x, then about y. */
  function Transformed(b: BookState, t: Trig): (vs: seq<Vec3>)
    ensures |vs| == 8
    ensures forall i :: 0 <= i < 8 ==>
      vs[i] == MultiplyMatrixVector(MatMul(RotY(t.cosY, t.sinY), RotX(t.cosX, t.sinX)), Vertices(b)[i])
  {
    var vs := Vertices(b);
    var r := seq(8, i requires 0 <= i < 8 =>
      MultiplyMatrixVector(RotY(t.cosY, t.sinY), MultiplyMatrixVector(RotX(t.cosX, t.sinX), vs[i])));
    forall i | 0 <= i < 8
      ensures r[i] == MultiplyMatrixVector(MatMul(RotY(t.cosY, t.sinY), RotX(t.cosX, t.sinX)), vs[i])
    {
      MultiplyComposes(RotY(t.cosY, t.sinY), RotX(t.cosX, t.sinX), vs[i]);
    }
    r
  }

  /** The six faces as vertex indices: back, right, left, front, top, bottom. */
  function Faces(): (fs: seq<seq<nat>>)
    ensures |fs| == 6
    ensures forall f :: 0 <= f < 6 ==> |fs[f]| == 4 && forall k :: 0 <= k < 4 ==> fs[f][k] < 8
  {
    [[4, 5, 6, 7], [1, 5, 6, 2], [0, 4, 7, 3], [0, 1, 2, 3], [0, 1, 5, 4], [3, 2, 6, 7]]
  }

  /** The mean `z` of a face's four transformed corners. */
  function AvgZ(vs: seq<Vec3>, face: seq<nat>): real
    requires |vs| == 8 && |face| == 4 && forall k :: 0 <= k < 4 ==> face[k] < 8
  {
    (vs[face[0]].z + vs[face[1]].z + vs[face[2]].z + vs[face[3]].z) / 4.0
  }

  /** A face (by its position in `Faces()`) with its mean depth. */
  datatype FaceDepth = FaceDepth(face: nat, avgZ: real)

  /** The depth of each face of the rotated box: the reference `DrawBook` sorts and paints. */
  function FaceDepths(b: BookState, t: Trig): (ds: seq<FaceDepth>)
    ensures |ds| == 6 && forall f :: 0 <= f < 6 ==> ds[f].face == f
    ensures forall f :: 0 <= f < 6 ==> ds[f].avgZ == AvgZ(Transformed(b, t), Faces()[f])
  {
    var vs := Transformed(b, t);
    seq(6, f requires 0 <= f < 6 => FaceDepth(f, AvgZ(vs, Faces()[f])))
  }

  /** The roll angle never reaches the drawing: two books differing only in `rotZ` have the same faces. */
  lemma DepthsIgnoreRotZ(b: BookState, t: Trig, rotZ: real)
    ensures FaceDepths(b.(rotZ := rotZ), t) == FaceDepths(b, t)
  {
  }

  predicate SortedByDepth(s: seq<FaceDepth>)
  {
    forall i, j :: 0 <= i < j < |s| ==> s[i].avgZ <= s[j].avgZ
  }

  /** Exchanges two neighbouring entries. */
  method SwapDown(a: array<FaceDepth>, j: int)
    requires 0 < j < a.Length
    modifies a
    ensures a[..] == old(a[..])[j - 1 := old(a[j])][j := old(a[j - 1])]
    ensures multiset(a[..]) == multiset(old(a[..]))
  {
    a[j - 1], a[j] := a[j], a[j - 1];
  }

  /** Moves `a[i]` left past every deeper entry, so that a sorted `a[..i]` becomes a sorted `a[..i + 1]`. */
  method InsertAt(a: array<FaceDepth>, i: int)
    requires 0 <= i < a.Length && SortedByDepth(a[..i])
    modifies a
    ensures SortedByDepth(a[..i + 1])
    ensures multiset(a[..]) == multiset(old(a[..]))
  {
    var j := i;
    while j > 0 && a[j - 1].avgZ > a[j].avgZ
      invariant 0 <= j <= i
      invariant forall k, l :: 0 <= k < l <= i && l != j ==> a[k].avgZ <= a[l].avgZ
      invariant multiset(a[..]) == multiset(old(a[..]))
    {
      SwapDown(a, j);
      j := j - 1;
    }
  }

  /** `facesWithDepth.sort((a, b) => a.avgZ - b.avgZ)`, as an insertion sort by adjacent swaps. */
  method SortByDepth(a: array<FaceDepth>)
    modifies a
    ensures SortedByDepth(a[..])
    ensures multiset(a[..]) == multiset(old(a[..]))
  {
    var i := 0;
    while i < a.Length
      invariant 0 <= i <= a.Length
      invariant SortedByDepth(a[..i])
      invariant multiset(a[..]) == multiset(old(a[..]))
    {
      InsertAt(a, i);
      i := i + 1;
    }
    assert a[..a.Length] == a[..];
  }

  /** How a face is tinted by its paint position. */
  datatype Role = Back | Spine | Front | Plain

  function RoleAt(position: nat): (r: Role)
    ensures r == Back <==> position == 0
    ensures r == Spine <==> position == 1 || position == 2
    ensures r == Front <==> position == 3
  {
    if position == 0 then Back
    else if position == 1 || position == 2 then Spine
    else if position == 3 then Front
    else Plain
  }

  /** The opacity multiplier of a role: 0.6, 0.8, 1.0, or the base opacity unchanged. */
  function OpacityFactor(r: Role): real
  {
    match r
    case Back => 0.6
    case Spine => 0.8
    case Front => 1.0
    case Plain => 1.0
  }

  /** The lightness that replaces `60%` in the colour, if any: `30%` at the back, `45%` on the spines. */
  function Lightness(r: Role): string
  {
    match r
    case Back => "30%"
    case Spine => "45%"
    case Front => ""
    case Plain => ""
  }

  datatype PaintedFace = PaintedFace(
    face: nat,
    avgZ: real,
    role: Role,
    opacity: real,
    lightness: string,
    glow: bool,
    title: bool,
    fontSize: real)

  /** How the face painted at `position` is styled, for a book at `scale` with base `opacity`. */
  function Paint(d: FaceDepth, position: nat, scale: real, opacity: real): (p: PaintedFace)
    ensures p.face == d.face && p.avgZ == d.avgZ && p.role == RoleAt(position)
    ensures p.opacity == opacity * OpacityFactor(RoleAt(position))
    ensures p.glow <==> position == 3 && opacity > 0.5
    ensures p.title <==> position == 3 && scale > 0.6
    ensures p.lightness == Lightness(RoleAt(position))
    ensures p.fontSize >= 8.0 && p.fontSize >= 12.0 * scale
    ensures p.fontSize == 8.0 || p.fontSize == 12.0 * scale
  {
    var role := RoleAt(position);
    PaintedFace(d.face, d.avgZ, role, opacity * OpacityFactor(role), Lightness(role),
                role == Front && opacity > 0.5, role == Front && scale > 0.6,
                if 12.0 * scale > 8.0 then 12.0 * scale else 8.0)
  }

  /** The depth-ordered, shaded faces that `drawBook` paints, back to front. */
  method DrawBook(b: BookState, t: Trig) returns (painted: seq<PaintedFace>)
    ensures |painted| == 6
    ensures forall i, j :: 0 <= i < j < 6 ==> painted[i].avgZ <= painted[j].avgZ
    ensures multiset(seq(6, i requires 0 <= i < 6 => FaceDepth(painted[i].face, painted[i].avgZ)))
         == multiset(FaceDepths(b, t))
    ensures forall i :: 0 <= i < 6 ==> painted[i] == Paint(FaceDepth(painted[i].face, painted[i].avgZ), i,
                                                           Scale(b.z), Opacity(Scale(b.z)))
  {
    var depths := FaceDepths(b, t);
    var a := new FaceDepth[6](i requires 0 <= i < 6 => depths[i]);
    assert a[..] == depths;
    SortByDepth(a);
    var scale := Scale(b.z);
    var opacity := Opacity(scale);
    painted := seq(6, i requires 0 <= i < 6 reads a => Paint(a[i], i, scale, opacity));
    assert seq(6, i requires 0 <= i < 6 => FaceDepth(painted[i].face, painted[i].avgZ)) == a[..];
  }
}
