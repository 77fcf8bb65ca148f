/**
 * The two 4x4 matrices the camera writes into a caller's 16-entry array,
 * as specification functions over the camera's values. Matrices are
 * column-major, as WebGL expects: entry 4 * col + row.
 *
 * Trigonometry and the square root are not computed here: `cos`, `sin`
 * and `sqrt` are parameters, so what is stated is the layout (which entry
 * is fixed, which entry is built from which input, which branch is taken),
 * not orthonormality.
 */
module CameraMatrices {

  datatype Vec3 = Vec3(x: real, y: real, z: real)

  function Dot(a: Vec3, b: Vec3): real
  {
    a.x * b.x + a.y * b.y + a.z * b.z
  }

  function Cross(a: Vec3, b: Vec3): Vec3
  {
    Vec3(a.y * b.z - a.z * b.y, a.z * b.x - a.x * b.z, a.x * b.y - a.y * b.x)
  }

  /** Lengths at or below this are left undivided by the normalisations. */
  const NormalizeThreshold: real := 0.0001

  /** Above this sine of the view angle the camera counts as looking straight down. */
  const LookingDownSin: real := 0.99

  /** v divided by its length when that length exceeds the threshold, v itself otherwise. */
  function Normalized(v: Vec3, sqrt: real -> real): Vec3
  {
    var len := sqrt(Dot(v, v));
    if len > NormalizeThreshold then Vec3(v.x / len, v.y / len, v.z / len) else v
  }

  /** The identity as the initialising loop writes it: 1 where the index is a multiple of 5. */
  function IdentityMatrix(): seq<real>
  {
    seq(16, i => if i % 5 == 0 then 1.0 else 0.0)
  }

  /** The index test `i % 5 == 0` picks out exactly the diagonal of a 4x4 matrix. */
  lemma IdentityIsDiagonal()
    ensures IdentityMatrix() == [1.0, 0.0, 0.0, 0.0,
                                 0.0, 1.0, 0.0, 0.0,
                                 0.0, 0.0, 1.0, 0.0,
                                 0.0, 0.0, 0.0, 1.0]
  {
  }

  /** Two 16-entry matrices that agree entry by entry are equal. */
  lemma SameEntries(a: seq<real>, b: seq<real>)
    requires |a| == 16 && |b| == 16
    requires a[0] == b[0] && a[1] == b[1] && a[2] == b[2] && a[3] == b[3]
    requires a[4] == b[4] && a[5] == b[5] && a[6] == b[6] && a[7] == b[7]
    requires a[8] == b[8] && a[9] == b[9] && a[10] == b[10] && a[11] == b[11]
    requires a[12] == b[12] && a[13] == b[13] && a[14] == b[14] && a[15] == b[15]
    ensures a == b
  {
    forall i | 0 <= i < 16
      ensures a[i] == b[i]
    {
      if i < 8 {
        if i < 4 { assert i == 0 || i == 1 || i == 2 || i == 3; }
        else { assert i == 4 || i == 5 || i == 6 || i == 7; }
      } else {
        if i < 12 { assert i == 8 || i == 9 || i == 10 || i == 11; }
        else { assert i == 12 || i == 13 || i == 14 || i == 15; }
      }
    }
  }

  // ---------------------------------------------------------------------
  // View matrix

  /** Camera position: on the circle of radius `distance` in the y-z plane, raised by the tilt. */
  function Eye(distance: real, cosTilt: real, sinTilt: real): Vec3
  {
    Vec3(0.0, distance * sinTilt, distance * cosTilt)
  }

  /** Direction from the eye to the origin, normalised. */
  function ViewForward(distance: real, viewAngle: real, cos: real -> real, sin: real -> real,
                       sqrt: real -> real): Vec3
  {
    var eye := Eye(distance, cos(viewAngle), sin(viewAngle));
    Normalized(Vec3(0.0 - eye.x, 0.0 - eye.y, 0.0 - eye.z), sqrt)
  }

  /**
   * Camera right vector: world X when looking straight down, otherwise the
   * normalised cross product of forward with world up (0, 1, 0).
   */
  function ViewRight(forward: Vec3, sinTilt: real, sqrt: real -> real): Vec3
  {
    if sinTilt > LookingDownSin then Vec3(1.0, 0.0, 0.0)
    else Normalized(Cross(forward, Vec3(0.0, 1.0, 0.0)), sqrt)
  }

  /**
   * The look-at layout, column-major: columns 0-2 hold the right, up and
   * backward (minus forward) vectors, column 3 holds their products with
   * the eye, negated.
   */
  function LookAt(right: Vec3, up: Vec3, f: Vec3, eye: Vec3): (m: seq<real>)
    ensures |m| == 16
  {
    [right.x, right.y, right.z, 0.0,
     up.x, up.y, up.z, 0.0,
     -f.x, -f.y, -f.z, 0.0,
     -Dot(right, eye), -Dot(up, eye), -Dot(Vec3(-f.x, -f.y, -f.z), eye), 1.0]
  }

  /** The look-at matrix calculateViewMatrix writes, entry by entry. */
  function ViewMatrix(distance: real, viewAngle: real, cos: real -> real, sin: real -> real,
                      sqrt: real -> real): (m: seq<real>)
    ensures |m| == 16
  {
    var eye := Eye(distance, cos(viewAngle), sin(viewAngle));
    var f := ViewForward(distance, viewAngle, cos, sin, sqrt);
    var right := ViewRight(f, sin(viewAngle), sqrt);
    LookAt(right, Cross(right, f), f, eye)
  }

  /** The fourth row is (0, 0, 0, 1) and the third column is minus the forward vector. */
  lemma ViewMatrixFixedEntries(distance: real, viewAngle: real, cos: real -> real,
                               sin: real -> real, sqrt: real -> real)
    ensures var m := ViewMatrix(distance, viewAngle, cos, sin, sqrt);
            var f := ViewForward(distance, viewAngle, cos, sin, sqrt);
            m[3] == 0.0 && m[7] == 0.0 && m[11] == 0.0 && m[15] == 1.0 &&
            m[8..11] == [-f.x, -f.y, -f.z]
  {
  }

  /**
   * The eye lies in the y-z plane, so forward has no x part, the right
   * vector lies along world X in both branches, and the first translation
   * entry is 0.
   */
  lemma ViewRightAlongX(distance: real, viewAngle: real, cos: real -> real,
                        sin: real -> real, sqrt: real -> real)
    ensures ViewForward(distance, viewAngle, cos, sin, sqrt).x == 0.0
    ensures var m := ViewMatrix(distance, viewAngle, cos, sin, sqrt);
            m[1] == 0.0 && m[2] == 0.0 && m[8] == 0.0 && m[12] == 0.0
  {
    var f := ViewForward(distance, viewAngle, cos, sin, sqrt);
    var c := Cross(f, Vec3(0.0, 1.0, 0.0));
    assert f.x == 0.0;
    assert c == Vec3(-f.z, 0.0, 0.0);
  }

  /**
   * Looking straight down (sin of the view angle above 0.99): the right
   * vector is exactly world X and the up row is (0, -forward.z, forward.y),
   * the cross product of (1, 0, 0) with forward.
   */
  lemma ViewMatrixOverhead(distance: real, viewAngle: real, cos: real -> real,
                           sin: real -> real, sqrt: real -> real)
    requires sin(viewAngle) > LookingDownSin
    ensures var m := ViewMatrix(distance, viewAngle, cos, sin, sqrt);
            var f := ViewForward(distance, viewAngle, cos, sin, sqrt);
            m[0..3] == [1.0, 0.0, 0.0] && m[4..7] == [0.0, -f.z, f.y]
  {
  }

  /** Below the threshold the right vector is the normalised cross product with world up. */
  lemma ViewMatrixStandard(distance: real, viewAngle: real, cos: real -> real,
                           sin: real -> real, sqrt: real -> real)
    requires sin(viewAngle) <= LookingDownSin
    ensures var m := ViewMatrix(distance, viewAngle, cos, sin, sqrt);
            var f := ViewForward(distance, viewAngle, cos, sin, sqrt);
            m[0..3] == (var r := Normalized(Cross(f, Vec3(0.0, 1.0, 0.0)), sqrt); [r.x, r.y, r.z])
  {
  }

  // ---------------------------------------------------------------------
  // Model rotation matrix

  /** Rotation about world Y (yaw), column-major. */
  function RotationY(c: real, s: real): (m: seq<real>)
    ensures |m| == 16
    ensures c == 1.0 && s == 0.0 ==> m == IdentityMatrix()
  {
    IdentityIsDiagonal();
    [c, 0.0, -s, 0.0,
     0.0, 1.0, 0.0, 0.0,
     s, 0.0, c, 0.0,
     0.0, 0.0, 0.0, 1.0]
  }

  /** Rotation about X (pitch), column-major. */
  function RotationX(c: real, s: real): seq<real>
  {
    [1.0, 0.0, 0.0, 0.0,
     0.0, c, s, 0.0,
     0.0, -s, c, 0.0,
     0.0, 0.0, 0.0, 1.0]
  }

  /** Entry (row, col) of the product a * b of two column-major 4x4 matrices. */
  function MulEntry(a: seq<real>, b: seq<real>, row: nat, col: nat): real
    requires |a| == 16 && |b| == 16 && row < 4 && col < 4
  {
    a[row] * b[4 * col] + a[4 + row] * b[4 * col + 1] +
    a[8 + row] * b[4 * col + 2] + a[12 + row] * b[4 * col + 3]
  }

  /** The matrix product a * b, column-major: entry 4 * col + row is MulEntry(a, b, row, col). */
  function Mul(a: seq<real>, b: seq<real>): (m: seq<real>)
    requires |a| == 16 && |b| == 16
    ensures |m| == 16
  {
    [MulEntry(a, b, 0, 0), MulEntry(a, b, 1, 0), MulEntry(a, b, 2, 0), MulEntry(a, b, 3, 0),
     MulEntry(a, b, 0, 1), MulEntry(a, b, 1, 1), MulEntry(a, b, 2, 1), MulEntry(a, b, 3, 1),
     MulEntry(a, b, 0, 2), MulEntry(a, b, 1, 2), MulEntry(a, b, 2, 2), MulEntry(a, b, 3, 2),
     MulEntry(a, b, 0, 3), MulEntry(a, b, 1, 3), MulEntry(a, b, 2, 3), MulEntry(a, b, 3, 3)]
  }

  /** a * p + b * q: one entry of a column mix. */
  function Blend(a: real, b: real, p: real, q: real): real
  {
    a * p + b * q
  }

  /**
   * The pitch step of getModelRotationMatrix on a copy t of the yaw
   * matrix: entries 4-7 become cX * t[4..8] + sX * t[8..12] and entries
   * 8-11 become -sX * t[4..8] + cX * t[8..12]; the rest is t.
   */
  function PitchMix(t: seq<real>, cX: real, sX: real): (m: seq<real>)
    requires |t| == 16
    ensures |m| == 16
  {
    [t[0], t[1], t[2], t[3],
     Blend(t[4], t[8], cX, sX), Blend(t[5], t[9], cX, sX),
     Blend(t[6], t[10], cX, sX), Blend(t[7], t[11], cX, sX),
     Blend(t[4], t[8], -sX, cX), Blend(t[5], t[9], -sX, cX),
     Blend(t[6], t[10], -sX, cX), Blend(t[7], t[11], -sX, cX),
     t[12], t[13], t[14], t[15]]
  }

  /**
   * What getModelRotationMatrix writes: the yaw rotation (written over
   * the identity, see YawOverIdentity), then, when the pitch is not
   * exactly 0, the pitch step.
   */
  function ModelRotationMatrix(yaw: real, pitch: real, cos: real -> real,
                               sin: real -> real): (m: seq<real>)
    ensures |m| == 16
  {
    var t := RotationY(cos(yaw), sin(yaw));
    if pitch == 0.0 then t else PitchMix(t, cos(pitch), sin(pitch))
  }

  /** Writing the four yaw entries over the identity gives the rotation about Y. */
  lemma YawOverIdentity(c: real, s: real)
    ensures IdentityMatrix()[0 := c][2 := -s][8 := s][10 := c] == RotationY(c, s)
  {
    IdentityIsDiagonal();
  }

  /** The first column is (cos yaw, 0, -sin yaw, 0) and the last is (0, 0, 0, 1), whatever the pitch. */
  lemma ModelRotationFixedColumns(yaw: real, pitch: real, cos: real -> real, sin: real -> real)
    ensures var m := ModelRotationMatrix(yaw, pitch, cos, sin);
            m[0] == cos(yaw) && m[1] == 0.0 && m[2] == -sin(yaw) && m[3] == 0.0 &&
            m[12] == 0.0 && m[13] == 0.0 && m[14] == 0.0 && m[15] == 1.0
  {
  }

  /** A pitch of exactly 0 gives the pure yaw rotation. */
  lemma ModelRotationYawOnly(yaw: real, cos: real -> real, sin: real -> real)
    ensures ModelRotationMatrix(yaw, 0.0, cos, sin) == RotationY(cos(yaw), sin(yaw))
  {
  }

  /** Yaw followed by pitch, multiplied out: the closed form of the model matrix. */
  function YawPitch(cY: real, sY: real, cX: real, sX: real): (m: seq<real>)
    ensures |m| == 16
  {
    [cY, 0.0, -sY, 0.0,
     sY * sX, cX, cY * sX, 0.0,
     sY * cX, -sX, cY * cX, 0.0,
     0.0, 0.0, 0.0, 1.0]
  }

  /** The pitch step applied to the yaw rotation gives the closed form. */
  lemma PitchMixOfYaw(cY: real, sY: real, cX: real, sX: real)
    ensures PitchMix(RotationY(cY, sY), cX, sX) == YawPitch(cY, sY, cX, sX)
  {
    var m, e := PitchMix(RotationY(cY, sY), cX, sX), YawPitch(cY, sY, cX, sX);
    assert m[4] == e[4];
    assert m[5] == e[5];
    assert m[6] == e[6];
    assert m[8] == e[8];
    assert m[9] == e[9];
    assert m[10] == e[10];
    SameEntries(m, e);
  }

  /** Multiplying the two rotations gives the same closed form. */
  lemma MulYawPitch(cY: real, sY: real, cX: real, sX: real)
    ensures Mul(RotationY(cY, sY), RotationX(cX, sX)) == YawPitch(cY, sY, cX, sX)
  {
    var a, b := RotationY(cY, sY), RotationX(cX, sX);
    var p, e := Mul(a, b), YawPitch(cY, sY, cX, sX);
    assert p[0] == MulEntry(a, b, 0, 0) == e[0];
    assert p[1] == MulEntry(a, b, 1, 0) == e[1];
    assert p[2] == MulEntry(a, b, 2, 0) == e[2];
    assert p[3] == MulEntry(a, b, 3, 0) == e[3];
    assert p[4] == MulEntry(a, b, 0, 1) == e[4];
    assert p[5] == MulEntry(a, b, 1, 1) == e[5];
    assert p[6] == MulEntry(a, b, 2, 1) == e[6];
    assert p[7] == MulEntry(a, b, 3, 1) == e[7];
    assert p[8] == MulEntry(a, b, 0, 2) == e[8];
    assert p[9] == MulEntry(a, b, 1, 2) == e[9];
    assert p[10] == MulEntry(a, b, 2, 2) == e[10];
    assert p[11] == MulEntry(a, b, 3, 2) == e[11];
    assert p[12] == MulEntry(a, b, 0, 3) == e[12];
    assert p[13] == MulEntry(a, b, 1, 3) == e[13];
    assert p[14] == MulEntry(a, b, 2, 3) == e[14];
    assert p[15] == MulEntry(a, b, 3, 3) == e[15];
    SameEntries(p, e);
  }

  /**
   * Any other pitch mixes the second and third columns of the yaw
   * rotation: column 1 becomes cos(pitch) * column 1 + sin(pitch) * column 2
   * and column 2 becomes -sin(pitch) * column 1 + cos(pitch) * column 2.
   */
  lemma ModelRotationPitched(yaw: real, pitch: real, cos: real -> real, sin: real -> real)
    requires pitch != 0.0
    ensures ModelRotationMatrix(yaw, pitch, cos, sin) ==
            YawPitch(cos(yaw), sin(yaw), cos(pitch), sin(pitch))
  {
    PitchMixOfYaw(cos(yaw), sin(yaw), cos(pitch), sin(pitch));
  }

  /**
   * The model matrix is the yaw rotation right-multiplied by the pitch
   * rotation. For a pitch of 0 this needs cos 0 = 1 and sin 0 = 0, since
   * the source then skips the pitch step instead of multiplying by the
   * identity.
   */
  lemma ModelRotationIsYawThenPitch(yaw: real, pitch: real, cos: real -> real, sin: real -> real)
    requires pitch != 0.0 || (cos(0.0) == 1.0 && sin(0.0) == 0.0)
    ensures ModelRotationMatrix(yaw, pitch, cos, sin) ==
            Mul(RotationY(cos(yaw), sin(yaw)), RotationX(cos(pitch), sin(pitch)))
  {
    var cY, sY, cX, sX := cos(yaw), sin(yaw), cos(pitch), sin(pitch);
    MulYawPitch(cY, sY, cX, sX);
    if pitch == 0.0 {
      SameEntries(YawPitch(cY, sY, 1.0, 0.0), RotationY(cY, sY));
    } else {
      ModelRotationPitched(yaw, pitch, cos, sin);
    }
  }
}
