/**
What the corrective steps are: the exact gradients of half the squared residuals.
*/
module MadgwickGradient {
  import opened Quaternions
  import opened Madgwick

  /** The point at parameter t on the line through q in direction d. */
  function Along(q: Quat, t: real, d: Quat): Quat {
    Add(q, Scale(t, d))
  }

  /** `at` is the quadratic polynomial in t with the given coefficients. */
  predicate Expands(at: real, value: real, slope: real, curvature: real, t: real) {
    at == value + t * slope + t * t * curvature
  }

  lemma Product(u: real, v: real, a: real, b: real, c: real, d: real, t: real)
    requires u == a + t * b && v == c + t * d
    ensures u * v == a * c + t * (a * d) + t * (b * c) + t * t * (b * d)
  {
  }

  lemma RowDot(row: Quat, d: Quat, a: real, b: real, c: real, e: real)
    requires row == Quat(a, b, c, e)
    ensures Dot(row, d) == a * d.w + b * d.x + c * d.y + e * d.z
  {
  }

  // ----- the derivatives of the direction cosines

  function NorthXRow(q: Quat): Quat { Quat(0.0, 0.0, -2.0 * q.y, -2.0 * q.z) }

  function NorthYRow(q: Quat): Quat { Quat(-q.z, q.y, q.x, -q.w) }

  function NorthZRow(q: Quat): Quat { Quat(q.y, q.z, q.w, q.x) }

  function DownXRow(q: Quat): Quat { Quat(-q.y, q.z, -q.w, q.x) }

  function DownYRow(q: Quat): Quat { Quat(q.x, q.w, q.z, q.y) }

  function DownZRow(q: Quat): Quat { Quat(0.0, -2.0 * q.x, -2.0 * q.y, 0.0) }

  lemma NorthXDerivative(q: Quat, d: Quat, t: real, p: Quat)
    requires p == Along(q, t, d)
    ensures Expands(NorthX(p), NorthX(q), Dot(NorthXRow(q), d), NorthX(d) - 0.5, t)
  {
    Product(p.y, p.y, q.y, d.y, q.y, d.y, t);
    Product(p.z, p.z, q.z, d.z, q.z, d.z, t);
    RowDot(NorthXRow(q), d, 0.0, 0.0, -2.0 * q.y, -2.0 * q.z);
  }

  lemma NorthYDerivative(q: Quat, d: Quat, t: real, p: Quat)
    requires p == Along(q, t, d)
    ensures Expands(NorthY(p), NorthY(q), Dot(NorthYRow(q), d), NorthY(d), t)
  {
    Product(p.x, p.y, q.x, d.x, q.y, d.y, t);
    Product(p.w, p.z, q.w, d.w, q.z, d.z, t);
    RowDot(NorthYRow(q), d, -q.z, q.y, q.x, -q.w);
  }

  lemma NorthZDerivative(q: Quat, d: Quat, t: real, p: Quat)
    requires p == Along(q, t, d)
    ensures Expands(NorthZ(p), NorthZ(q), Dot(NorthZRow(q), d), NorthZ(d), t)
  {
    Product(p.w, p.y, q.w, d.w, q.y, d.y, t);
    Product(p.x, p.z, q.x, d.x, q.z, d.z, t);
    RowDot(NorthZRow(q), d, q.y, q.z, q.w, q.x);
  }

  lemma DownXDerivative(q: Quat, d: Quat, t: real, p: Quat)
    requires p == Along(q, t, d)
    ensures Expands(DownX(p), DownX(q), Dot(DownXRow(q), d), DownX(d), t)
  {
    Product(p.x, p.z, q.x, d.x, q.z, d.z, t);
    Product(p.w, p.y, q.w, d.w, q.y, d.y, t);
    RowDot(DownXRow(q), d, -q.y, q.z, -q.w, q.x);
  }

  lemma DownYDerivative(q: Quat, d: Quat, t: real, p: Quat)
    requires p == Along(q, t, d)
    ensures Expands(DownY(p), DownY(q), Dot(DownYRow(q), d), DownY(d), t)
  {
    Product(p.w, p.x, q.w, d.w, q.x, d.x, t);
    Product(p.y, p.z, q.y, d.y, q.z, d.z, t);
    RowDot(DownYRow(q), d, q.x, q.w, q.z, q.y);
  }

  lemma DownZDerivative(q: Quat, d: Quat, t: real, p: Quat)
    requires p == Along(q, t, d)
    ensures Expands(DownZ(p), DownZ(q), Dot(DownZRow(q), d), DownZ(d) - 0.5, t)
  {
    Product(p.x, p.x, q.x, d.x, q.x, d.x, t);
    Product(p.y, p.y, q.y, d.y, q.y, d.y, t);
    RowDot(DownZRow(q), d, 0.0, -2.0 * q.x, -2.0 * q.y, 0.0);
  }

  // ----- the rows of the Jacobian are the derivatives of the predicted directions

  /** A weighted sum of quadratic polynomials. */
  lemma MixExpands(b: real, c: real, h: real, h0: real, h1: real, h2: real,
                   k: real, k0: real, k1: real, k2: real, t: real)
    requires Expands(h, h0, h1, h2, t) && Expands(k, k0, k1, k2, t)
    ensures Expands(Mix(b, c, h, k), Mix(b, c, h0, k0), Mix(b, c, h1, k1), Mix(b, c, h2, k2), t)
  {
  }

  lemma MixDot(b: real, c: real, x: Quat, y: Quat, row: Quat, d: Quat)
    requires row == Add(Scale(b, x), Scale(c, y))
    ensures Dot(row, d) == Mix(b, c, Dot(x, d), Dot(y, d))
  {
    Times(row.w, b * x.w + c * y.w, d.w);
    Times(row.x, b * x.x + c * y.x, d.x);
    Times(row.y, b * x.y + c * y.y, d.y);
    Times(row.z, b * x.z + c * y.z, d.z);
  }

  lemma GravityXDerivative(q: Quat, d: Quat, t: real, p: Quat)
    requires p == Along(q, t, d)
    ensures Expands(GravityX(p), GravityX(q), Dot(GravityRowX(q), d), 2.0 * (DownX(d)), t)
  {
    DownXDerivative(q, d, t, p);
    assert GravityRowX(q) == Scale(2.0, DownXRow(q));
    MixDot(2.0, 0.0, DownXRow(q), DownXRow(q), GravityRowX(q), d);
  }

  lemma FieldRowXMix(q: Quat, bx: real, bz: real)
    ensures FieldRowX(q, bx, bz) == Add(Scale(2.0 * bx, NorthXRow(q)), Scale(2.0 * bz, DownXRow(q)))
  {
  }

  lemma FieldXDerivative(q: Quat, d: Quat, t: real, bx: real, bz: real, p: Quat)
    requires p == Along(q, t, d)
    ensures Expands(FieldX(p, bx, bz), FieldX(q, bx, bz), Dot(FieldRowX(q, bx, bz), d),
                    Mix(2.0 * bx, 2.0 * bz, NorthX(d) - 0.5, DownX(d)), t)
  {
    NorthXDerivative(q, d, t, p);
    DownXDerivative(q, d, t, p);
    MixExpands(2.0 * bx, 2.0 * bz, NorthX(p), NorthX(q), Dot(NorthXRow(q), d), NorthX(d) - 0.5,
               DownX(p), DownX(q), Dot(DownXRow(q), d), DownX(d), t);
    FieldRowXMix(q, bx, bz);
    MixDot(2.0 * bx, 2.0 * bz, NorthXRow(q), DownXRow(q), FieldRowX(q, bx, bz), d);
  }

  lemma GravityYDerivative(q: Quat, d: Quat, t: real, p: Quat)
    requires p == Along(q, t, d)
    ensures Expands(GravityY(p), GravityY(q), Dot(GravityRowY(q), d), 2.0 * (DownY(d)), t)
  {
    DownYDerivative(q, d, t, p);
    assert GravityRowY(q) == Scale(2.0, DownYRow(q));
    MixDot(2.0, 0.0, DownYRow(q), DownYRow(q), GravityRowY(q), d);
  }

  lemma FieldRowYMix(q: Quat, bx: real, bz: real)
    ensures FieldRowY(q, bx, bz) == Add(Scale(2.0 * bx, NorthYRow(q)), Scale(2.0 * bz, DownYRow(q)))
  {
  }

  lemma FieldYDerivative(q: Quat, d: Quat, t: real, bx: real, bz: real, p: Quat)
    requires p == Along(q, t, d)
    ensures Expands(FieldY(p, bx, bz), FieldY(q, bx, bz), Dot(FieldRowY(q, bx, bz), d),
                    Mix(2.0 * bx, 2.0 * bz, NorthY(d), DownY(d)), t)
  {
    NorthYDerivative(q, d, t, p);
    DownYDerivative(q, d, t, p);
    MixExpands(2.0 * bx, 2.0 * bz, NorthY(p), NorthY(q), Dot(NorthYRow(q), d), NorthY(d),
               DownY(p), DownY(q), Dot(DownYRow(q), d), DownY(d), t);
    FieldRowYMix(q, bx, bz);
    MixDot(2.0 * bx, 2.0 * bz, NorthYRow(q), DownYRow(q), FieldRowY(q, bx, bz), d);
  }

  lemma GravityZDerivative(q: Quat, d: Quat, t: real, p: Quat)
    requires p == Along(q, t, d)
    ensures Expands(GravityZ(p), GravityZ(q), Dot(GravityRowZ(q), d), 2.0 * (DownZ(d) - 0.5), t)
  {
    DownZDerivative(q, d, t, p);
    assert GravityRowZ(q) == Scale(2.0, DownZRow(q));
    MixDot(2.0, 0.0, DownZRow(q), DownZRow(q), GravityRowZ(q), d);
  }

  lemma FieldRowZMix(q: Quat, bx: real, bz: real)
    ensures FieldRowZ(q, bx, bz) == Add(Scale(2.0 * bx, NorthZRow(q)), Scale(2.0 * bz, DownZRow(q)))
  {
  }

  lemma FieldZDerivative(q: Quat, d: Quat, t: real, bx: real, bz: real, p: Quat)
    requires p == Along(q, t, d)
    ensures Expands(FieldZ(p, bx, bz), FieldZ(q, bx, bz), Dot(FieldRowZ(q, bx, bz), d),
                    Mix(2.0 * bx, 2.0 * bz, NorthZ(d), DownZ(d) - 0.5), t)
  {
    NorthZDerivative(q, d, t, p);
    DownZDerivative(q, d, t, p);
    MixExpands(2.0 * bx, 2.0 * bz, NorthZ(p), NorthZ(q), Dot(NorthZRow(q), d), NorthZ(d),
               DownZ(p), DownZ(q), Dot(DownZRow(q), d), DownZ(d) - 0.5, t);
    FieldRowZMix(q, bx, bz);
    MixDot(2.0 * bx, 2.0 * bz, NorthZRow(q), DownZRow(q), FieldRowZ(q, bx, bz), d);
  }

  // ----- half the squared residual, and its gradient

  function VecDot(a: Vec, b: Vec): real { a.x * b.x + a.y * b.y + a.z * b.z }

  function Half(r: real): real { 0.5 * (r * r) }

  function HalfSquare(r: Vec): real { Half(r.x) + Half(r.y) + Half(r.z) }

  /** How far the measured gravity is from the predicted one. */
  function GravityObjective(q: Quat, a: Vec): real {
    HalfSquare(VecSub(Gravity(q), a))
  }

  /** The same for the magnetic field, against a fixed reference (bx, 0, bz). */
  function FieldObjective(q: Quat, m: Vec, bx: real, bz: real): real {
    HalfSquare(VecSub(Field(q, bx, bz), m))
  }

  /** The terms of order two and higher in t, divided by t * t, for one residual. */
  function Tail(r: real, l: real, c: real, t: real): real {
    0.5 * (l * l) + r * c + t * (l * c) + t * t * (0.5 * (c * c))
  }

  function Remainder(r: Vec, l: Vec, c: Vec, t: real): real {
    Tail(r.x, l.x, c.x, t) + Tail(r.y, l.y, c.y, t) + Tail(r.z, l.z, c.z, t)
  }

  function GravitySlopes(q: Quat, d: Quat): Vec {
    Vec(Dot(GravityRowX(q), d), Dot(GravityRowY(q), d), Dot(GravityRowZ(q), d))
  }

  function GravityCurvatures(d: Quat): Vec {
    Vec(2.0 * DownX(d), 2.0 * DownY(d), 2.0 * (DownZ(d) - 0.5))
  }

  function FieldSlopes(q: Quat, d: Quat, bx: real, bz: real): Vec {
    Vec(Dot(FieldRowX(q, bx, bz), d), Dot(FieldRowY(q, bx, bz), d), Dot(FieldRowZ(q, bx, bz), d))
  }

  function FieldCurvatures(d: Quat, bx: real, bz: real): Vec {
    Vec(Mix(2.0 * bx, 2.0 * bz, NorthX(d) - 0.5, DownX(d)), Mix(2.0 * bx, 2.0 * bz, NorthY(d), DownY(d)),
        Mix(2.0 * bx, 2.0 * bz, NorthZ(d), DownZ(d) - 0.5))
  }

  function GravityRemainder(q: Quat, a: Vec, d: Quat, t: real): real {
    Remainder(VecSub(Gravity(q), a), GravitySlopes(q, d), GravityCurvatures(d), t)
  }

  function FieldRemainder(q: Quat, m: Vec, bx: real, bz: real, d: Quat, t: real): real {
    Remainder(VecSub(Field(q, bx, bz), m), FieldSlopes(q, d, bx, bz), FieldCurvatures(d, bx, bz), t)
  }

  /**
  The six-axis step is the gradient of the gravity objective at q: along every line through q the
  objective is its value, plus t times the step's component along the line, plus t * t times a
  polynomial in t.
  */
  lemma GravityStepIsGradient(q: Quat, a: Vec, d: Quat, t: real)
    ensures Expands(GravityObjective(Along(q, t, d), a), GravityObjective(q, a), Dot(GravityStep(q, a), d),
                    GravityRemainder(q, a, d, t), t)
  {
    var p := Along(q, t, d);
    GravityXDerivative(q, d, t, p);
    GravityYDerivative(q, d, t, p);
    GravityZDerivative(q, d, t, p);
    var r, l, c := VecSub(Gravity(q), a), GravitySlopes(q, d), GravityCurvatures(d);
    Shift(GravityX(p), GravityX(q), l.x, c.x, t, a.x);
    Shift(GravityY(p), GravityY(q), l.y, c.y, t, a.y);
    Shift(GravityZ(p), GravityZ(q), l.z, c.z, t, a.z);
    HalfSquareExpands(VecSub(Gravity(p), a), r, l, c, t);
    Adjoint(GravityRowX(q), GravityRowY(q), GravityRowZ(q), r, d);
  }

  /** The nine-axis step is the gradient of the sum of both objectives, the field reference held fixed. */
  lemma NineAxisStepIsGradient(q: Quat, a: Vec, m: Vec, bx: real, bz: real, d: Quat, t: real)
    ensures Expands(GravityObjective(Along(q, t, d), a) + FieldObjective(Along(q, t, d), m, bx, bz),
                    GravityObjective(q, a) + FieldObjective(q, m, bx, bz),
                    Dot(Factored(q, a, m, bx, bz), d),
                    GravityRemainder(q, a, d, t) + FieldRemainder(q, m, bx, bz, d, t), t)
  {
    GravityStepIsGradient(q, a, d, t);
    FieldStepIsGradient(q, m, bx, bz, d, t);
    FactoredIsTransposed(q, a, m, bx, bz);
    var g, f := GravityStep(q, a), FieldStep(q, bx, bz, m);
    DotSum(g, f, d);
    var p := Along(q, t, d);
    SumExpands(GravityObjective(p, a), GravityObjective(q, a), Dot(g, d), GravityRemainder(q, a, d, t),
               FieldObjective(p, m, bx, bz), FieldObjective(q, m, bx, bz), Dot(f, d),
               FieldRemainder(q, m, bx, bz, d, t), t);
  }

  lemma FieldStepIsGradient(q: Quat, m: Vec, bx: real, bz: real, d: Quat, t: real)
    ensures Expands(FieldObjective(Along(q, t, d), m, bx, bz), FieldObjective(q, m, bx, bz),
                    Dot(FieldStep(q, bx, bz, m), d), FieldRemainder(q, m, bx, bz, d, t), t)
  {
    var p := Along(q, t, d);
    FieldXDerivative(q, d, t, bx, bz, p);
    FieldYDerivative(q, d, t, bx, bz, p);
    FieldZDerivative(q, d, t, bx, bz, p);
    var r, l, c := VecSub(Field(q, bx, bz), m), FieldSlopes(q, d, bx, bz), FieldCurvatures(d, bx, bz);
    Shift(FieldX(p, bx, bz), FieldX(q, bx, bz), l.x, c.x, t, m.x);
    Shift(FieldY(p, bx, bz), FieldY(q, bx, bz), l.y, c.y, t, m.y);
    Shift(FieldZ(p, bx, bz), FieldZ(q, bx, bz), l.z, c.z, t, m.z);
    HalfSquareExpands(VecSub(Field(p, bx, bz), m), r, l, c, t);
    Adjoint(FieldRowX(q, bx, bz), FieldRowY(q, bx, bz), FieldRowZ(q, bx, bz), r, d);
  }

  lemma HalfSquareExpands(u: Vec, r: Vec, l: Vec, c: Vec, t: real)
    requires Expands(u.x, r.x, l.x, c.x, t) && Expands(u.y, r.y, l.y, c.y, t) && Expands(u.z, r.z, l.z, c.z, t)
    ensures Expands(HalfSquare(u), HalfSquare(r), VecDot(r, l), Remainder(r, l, c, t), t)
  {
    HalfExpands(u.x, r.x, l.x, c.x, t);
    HalfExpands(u.y, r.y, l.y, c.y, t);
    HalfExpands(u.z, r.z, l.z, c.z, t);
    var at, value, slope, curvature := HalfSquare(u), HalfSquare(r), VecDot(r, l), Remainder(r, l, c, t);
    SumExpands3(Half(u.x), Half(r.x), r.x * l.x, Tail(r.x, l.x, c.x, t),
                Half(u.y), Half(r.y), r.y * l.y, Tail(r.y, l.y, c.y, t),
                Half(u.z), Half(r.z), r.z * l.z, Tail(r.z, l.z, c.z, t), t, at, value, slope, curvature);
  }

  lemma SumExpands3(u: real, u0: real, u1: real, u2: real, v: real, v0: real, v1: real, v2: real,
                    w: real, w0: real, w1: real, w2: real,
                    t: real, at: real, value: real, slope: real, curvature: real)
    requires Expands(u, u0, u1, u2, t) && Expands(v, v0, v1, v2, t) && Expands(w, w0, w1, w2, t)
    requires at == u + v + w && value == u0 + v0 + w0 && slope == u1 + v1 + w1 && curvature == u2 + v2 + w2
    ensures Expands(at, value, slope, curvature, t)
  {
  }

  lemma Shift(at: real, value: real, slope: real, curvature: real, t: real, k: real)
    requires Expands(at, value, slope, curvature, t)
    ensures Expands(at - k, value - k, slope, curvature, t)
  {
  }

  lemma SumExpands(u: real, u0: real, u1: real, u2: real, v: real, v0: real, v1: real, v2: real, t: real)
    requires Expands(u, u0, u1, u2, t) && Expands(v, v0, v1, v2, t)
    ensures Expands(u + v, u0 + v0, u1 + v1, u2 + v2, t)
  {
  }

  lemma HalfExpands(u: real, r: real, l: real, c: real, t: real)
    requires Expands(u, r, l, c, t)
    ensures Expands(Half(u), Half(r), r * l, Tail(r, l, c, t), t)
  {
  }

  /** The transposed Jacobian is the adjoint of the Jacobian. */
  lemma Adjoint(x: Quat, y: Quat, z: Quat, r: Vec, d: Quat)
    ensures Dot(Transposed(x, y, z, r), d) == VecDot(r, Vec(Dot(x, d), Dot(y, d), Dot(z, d)))
  {
    Times(Column(r, x.w, y.w, z.w), r.x * x.w + r.y * y.w + r.z * z.w, d.w);
    Times(Column(r, x.x, y.x, z.x), r.x * x.x + r.y * y.x + r.z * z.x, d.x);
    Times(Column(r, x.y, y.y, z.y), r.x * x.y + r.y * y.y + r.z * z.y, d.y);
    Times(Column(r, x.z, y.z, z.z), r.x * x.z + r.y * y.z + r.z * z.z, d.z);
    Times(Dot(x, d), x.w * d.w + x.x * d.x + x.y * d.y + x.z * d.z, r.x);
    Times(Dot(y, d), y.w * d.w + y.x * d.x + y.y * d.y + y.z * d.z, r.y);
    Times(Dot(z, d), z.w * d.w + z.x * d.x + z.y * d.y + z.z * d.z, r.z);
  }

  lemma DotSum(a: Quat, b: Quat, d: Quat)
    ensures Dot(Add(a, b), d) == Dot(a, d) + Dot(b, d)
  {
  }
}
