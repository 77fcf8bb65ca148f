/**
 * The orbit camera of the web viewer (camera.cpp): a mutable record of
 * height, distance, model rotations (pitch X, yaw Y, roll Z), auto-rotate
 * flag and speed, and view angle.
 *
 * `CameraState` is a snapshot of those fields; each operation of the
 * class is specified by a pure transition on snapshots, and the lemmas
 * below are about those transitions. Trigonometry is a parameter.
 */
module Camera {
  import opened Angles
  import opened CameraMatrices

  /** Distance a fresh camera starts at. */
  const InitialDistance: real := 20.0

  /** setDistance never lets the distance drop below this. */
  const MinDistance: real := 1.0

  /** Longest frame time one auto-rotation step may use, in seconds. */
  const MaxStepTime: real := 0.1

  datatype CameraState = CameraState(
    cameraHeight: real,
    cameraDistance: real,
    modelRotationX: real,   // pitch
    modelRotationY: real,   // yaw
    modelRotationZ: real,   // roll
    autoRotate: bool,
    autoRotationSpeed: real,
    viewAngle: real)

  /** Pitch and yaw both lie in [0, 2π). */
  predicate AnglesWrapped(s: CameraState)
  {
    0.0 <= s.modelRotationX < TwoPi && 0.0 <= s.modelRotationY < TwoPi
  }

  /** std::max(1, d): the larger of the minimum distance and d. */
  function ClampDistance(d: real): (r: real)
    ensures r >= MinDistance && r >= d
    ensures r == d || r == MinDistance
  {
    if MinDistance < d then d else MinDistance
  }

  /** setDistance / setCameraDistance. */
  function WithDistance(s: CameraState, d: real): (r: CameraState)
    ensures r.cameraDistance >= MinDistance
    ensures d >= MinDistance ==> r.cameraDistance == d
    ensures d < MinDistance ==> r.cameraDistance == MinDistance
    ensures r.(cameraDistance := s.cameraDistance) == s
  {
    s.(cameraDistance := ClampDistance(d))
  }

  /**
   * updateModelRotation: yaw moves by -deltaX; pitch moves by -deltaY when
   * the cosine of the new (unwrapped) yaw is positive and by +deltaY
   * otherwise; both are then wrapped into [0, 2π). Roll is not touched.
   */
  function Dragged(s: CameraState, deltaX: real, deltaY: real, cos: real -> real): (r: CameraState)
    ensures AnglesWrapped(r)
    ensures Coterminal(s.modelRotationY - deltaX, r.modelRotationY)
    ensures Coterminal(s.modelRotationX - deltaY, r.modelRotationX) ||
            Coterminal(s.modelRotationX + deltaY, r.modelRotationX)
    ensures r.(modelRotationX := s.modelRotationX, modelRotationY := s.modelRotationY) == s
  {
    var yaw := s.modelRotationY - deltaX;
    var pitch := s.modelRotationX - deltaY * (if cos(yaw) > 0.0 then 1.0 else -1.0);
    s.(modelRotationX := Wrapped(pitch), modelRotationY := Wrapped(yaw))
  }

  /**
   * The pitch direction follows the cosine of the new yaw: a positive
   * cosine subtracts deltaY, anything else (a cosine of exactly 0 included)
   * adds it.
   */
  lemma DragPitchDirection(s: CameraState, deltaX: real, deltaY: real, cos: real -> real)
    ensures cos(s.modelRotationY - deltaX) > 0.0 ==>
              Dragged(s, deltaX, deltaY, cos).modelRotationX == Wrapped(s.modelRotationX - deltaY)
    ensures cos(s.modelRotationY - deltaX) <= 0.0 ==>
              Dragged(s, deltaX, deltaY, cos).modelRotationX == Wrapped(s.modelRotationX + deltaY)
    ensures Dragged(s, deltaX, deltaY, cos).modelRotationY == Wrapped(s.modelRotationY - deltaX)
  {
  }

  /** A horizontal drag followed by the opposite drag restores a wrapped camera exactly. */
  lemma DragRoundTrip(s: CameraState, deltaX: real, cos: real -> real)
    requires AnglesWrapped(s)
    ensures Dragged(Dragged(s, deltaX, 0.0, cos), -deltaX, 0.0, cos) == s
  {
    var s1 := Dragged(s, deltaX, 0.0, cos);
    var s2 := Dragged(s1, -deltaX, 0.0, cos);
    WrappedShift(s.modelRotationY - deltaX, deltaX);
    assert s.modelRotationY - deltaX + deltaX == s.modelRotationY;
    WrappedFixes(s.modelRotationY);
    WrappedFixes(s.modelRotationX);
    assert s1.modelRotationX == s.modelRotationX;
    WrappedFixes(s1.modelRotationX);
    assert s2.modelRotationX == s.modelRotationX;
  }

  /** resetModelRotation / resetRotation. */
  function Reset(s: CameraState): (r: CameraState)
    ensures AnglesWrapped(r)
    ensures r.modelRotationX == 0.0 && r.modelRotationY == 0.0 && r.modelRotationZ == 0.0
    ensures r.(modelRotationX := s.modelRotationX, modelRotationY := s.modelRotationY,
               modelRotationZ := s.modelRotationZ) == s
  {
    s.(modelRotationX := 0.0, modelRotationY := 0.0, modelRotationZ := 0.0)
  }

  /** std::min(deltaTime, 0.1): the frame time one auto-rotation step may use. */
  function CappedDelta(deltaTime: real): (r: real)
    ensures r <= MaxStepTime && r <= deltaTime
    ensures r == deltaTime || r == MaxStepTime
  {
    if MaxStepTime < deltaTime then MaxStepTime else deltaTime
  }

  /**
   * How far one auto-rotation step turns the yaw: speed * min(deltaTime, 0.1).
   * A frame no longer than 0.1 s turns by speed * deltaTime; a longer one
   * turns by speed * 0.1 however long it was.
   */
  function AutoRotationStep(speed: real, deltaTime: real): (r: real)
    ensures deltaTime <= MaxStepTime ==> r == speed * deltaTime
    ensures deltaTime >= MaxStepTime ==> r == speed * MaxStepTime
  {
    speed * CappedDelta(deltaTime)
  }

  /**
   * For a non-negative speed, one step never advances the yaw by more than
   * speed * 0.1, however long the frame; a non-negative frame time never
   * moves it backwards.
   */
  lemma AutoRotationStepCapped(speed: real, deltaTime: real)
    requires speed >= 0.0
    ensures AutoRotationStep(speed, deltaTime) <= speed * MaxStepTime
    ensures deltaTime >= 0.0 ==> AutoRotationStep(speed, deltaTime) >= 0.0
    ensures deltaTime <= MaxStepTime ==> AutoRotationStep(speed, deltaTime) == speed * deltaTime
  {
    var c := CappedDelta(deltaTime);
    assert speed * MaxStepTime - speed * c == speed * (MaxStepTime - c);
    if deltaTime >= 0.0 {
      assert c >= 0.0;
      assert speed * c >= 0.0;
    }
  }

  /**
   * updateAutoRotation: when enabled, yaw advances by speed * min(dt, 0.1)
   * and 2π is subtracted while it is strictly above 2π. Nothing else moves.
   */
  function AutoRotated(s: CameraState, deltaTime: real): (r: CameraState)
    ensures !s.autoRotate ==> r == s
    ensures s.autoRotate ==>
              r.modelRotationY <= TwoPi &&
              Coterminal(s.modelRotationY + AutoRotationStep(s.autoRotationSpeed, deltaTime), r.modelRotationY)
    ensures r.(modelRotationY := s.modelRotationY) == s
  {
    if s.autoRotate then
      s.(modelRotationY := ReducedAbove(s.modelRotationY + AutoRotationStep(s.autoRotationSpeed, deltaTime)))
    else
      s
  }

  /**
   * From a yaw in [0, 2π], with non-negative speed and frame time, the
   * auto-rotated yaw is again in [0, 2π] (the upper end included).
   */
  lemma AutoRotationStaysInTurn(s: CameraState, deltaTime: real)
    requires 0.0 <= s.modelRotationY <= TwoPi
    requires s.autoRotationSpeed >= 0.0 && deltaTime >= 0.0
    ensures 0.0 <= AutoRotated(s, deltaTime).modelRotationY <= TwoPi
  {
    AutoRotationStepCapped(s.autoRotationSpeed, deltaTime);
  }

  /**
   * In this real-valued model, with a single 2π for both the bound and the
   * subtracted turn, the strict `>` test leaves a sum of exactly 2π alone:
   * speed 0.4 for a 5 s frame (capped to 0.1 s) from 2π - 0.04 ends at 2π.
   */
  lemma AutoRotationCanReachTwoPi()
    ensures var s := CameraState(0.0, InitialDistance, 0.0, TwoPi - 0.04, 0.0, true, 0.4, 0.0);
            AutoRotated(s, 5.0).modelRotationY == TwoPi
  {
  }

  /** A negative frame time is neither clamped nor wrapped from below: yaw can go negative. */
  lemma AutoRotationNegativeDelta()
    ensures var s := CameraState(0.0, InitialDistance, 0.0, 0.0, 0.0, true, 0.4, 0.0);
            AutoRotated(s, -1.0).modelRotationY == -0.4
  {
  }

  /** toggleAutoRotation. */
  function Toggled(s: CameraState): (r: CameraState)
    ensures r.autoRotate != s.autoRotate
    ensures r.(autoRotate := s.autoRotate) == s
  {
    s.(autoRotate := !s.autoRotate)
  }

  /** Toggling twice restores the camera. */
  lemma ToggleTwice(s: CameraState)
    ensures Toggled(Toggled(s)) == s
  {
  }

  class Camera {
    var cameraHeight: real
    var cameraDistance: real
    var modelRotationX: real
    var modelRotationY: real
    var modelRotationZ: real
    var autoRotate: bool
    var autoRotationSpeed: real
    var viewAngle: real

    /** The fields as a value. */
    function State(): CameraState
      reads this
    {
      CameraState(cameraHeight, cameraDistance, modelRotationX, modelRotationY, modelRotationZ,
                  autoRotate, autoRotationSpeed, viewAngle)
    }

    /**
     * Eye level, medium distance, no rotation, auto-rotation on at the slow
     * speed, side view. The slow speed is declared outside this model and is
     * a parameter here.
     */
    constructor (slowRotationSpeed: real)
      ensures State() == CameraState(0.0, InitialDistance, 0.0, 0.0, 0.0, true, slowRotationSpeed, 0.0)
      ensures AnglesWrapped(State())
    {
      cameraHeight := 0.0;
      cameraDistance := InitialDistance;
      modelRotationX := 0.0;
      modelRotationY := 0.0;
      modelRotationZ := 0.0;
      autoRotate := true;
      autoRotationSpeed := slowRotationSpeed;
      viewAngle := 0.0;
    }

    method SetHeight(height: real)
      modifies this
      ensures State() == old(State()).(cameraHeight := height)
    {
      cameraHeight := height;
    }

    method SetDistance(distance: real)
      modifies this
      ensures State() == WithDistance(old(State()), distance)
      ensures cameraDistance >= MinDistance
    {
      cameraDistance := ClampDistance(distance);
    }

    /** Alias of SetDistance. */
    method SetCameraDistance(distance: real)
      modifies this
      ensures State() == WithDistance(old(State()), distance)
      ensures cameraDistance >= MinDistance
    {
      SetDistance(distance);
    }

    /** The tilt is the view angle itself, not derived from height or distance. */
    function CalculateTilt(): (tilt: real)
      reads this
      ensures tilt == State().viewAngle
    {
      viewAngle
    }

    method UpdateModelRotation(deltaX: real, deltaY: real, cos: real -> real)
      modifies this
      ensures State() == Dragged(old(State()), deltaX, deltaY, cos)
      ensures AnglesWrapped(State())
    {
      modelRotationY := modelRotationY - deltaX;
      var cosY := cos(modelRotationY);
      modelRotationX := modelRotationX - deltaY * (if cosY > 0.0 then 1.0 else -1.0);
      modelRotationX := WrapAngle(modelRotationX);
      modelRotationY := WrapAngle(modelRotationY);
    }

    method ResetModelRotation()
      modifies this
      ensures State() == Reset(old(State()))
    {
      modelRotationX := 0.0;
      modelRotationY := 0.0;
      modelRotationZ := 0.0;
    }

    /** Alias of ResetModelRotation. */
    method ResetRotation()
      modifies this
      ensures State() == Reset(old(State()))
    {
      ResetModelRotation();
    }

    method UpdateAutoRotation(deltaTime: real)
      modifies this
      ensures State() == AutoRotated(old(State()), deltaTime)
    {
      if autoRotate {
        modelRotationY := modelRotationY + AutoRotationStep(autoRotationSpeed, deltaTime);
        modelRotationY := ReduceAbove(modelRotationY);
      }
    }

    method ToggleAutoRotation()
      modifies this
      ensures State() == Toggled(old(State()))
    {
      autoRotate := !autoRotate;
    }

    /**
     * Fills `matrix` with the look-at matrix: identity first, then every
     * entry written from the eye, forward, right and up vectors (the
     * source's scalar arithmetic, grouped into the vector helpers of
     * CameraMatrices).
     */
    method CalculateViewMatrix(matrix: array<real>, cos: real -> real, sin: real -> real,
                               sqrt: real -> real)
      requires matrix.Length == 16
      modifies matrix
      ensures matrix[..] == ViewMatrix(cameraDistance, viewAngle, cos, sin, sqrt)
    {
      for i := 0 to 16
        invariant forall j :: 0 <= j < i ==> matrix[j] == IdentityMatrix()[j]
      {
        matrix[i] := if i % 5 == 0 then 1.0 else 0.0;
      }

      var tilt := viewAngle;
      var cosTilt, sinTilt := cos(tilt), sin(tilt);
      var eye := Eye(cameraDistance, cosTilt, sinTilt);
      // forward: from the eye towards the origin, normalised
      var forward := ViewForward(cameraDistance, tilt, cos, sin, sqrt);
      // right: world X when looking down, else forward x world up, normalised
      var right := ViewRight(forward, sinTilt, sqrt);
      var trueUp := Cross(right, forward);
      ghost var expected := ViewMatrix(cameraDistance, viewAngle, cos, sin, sqrt);
      assert expected == LookAt(right, trueUp, forward, eye);
      Store(matrix, LookAt(right, trueUp, forward, eye));
    }

    /**
     * Fills `matrix` with the model rotation: identity, the yaw entries,
     * then, unless the pitch is exactly 0, the pitch mix computed from a
     * copy of the yaw matrix.
     */
    method GetModelRotationMatrix(matrix: array<real>, cos: real -> real, sin: real -> real)
      requires matrix.Length == 16
      modifies matrix
      ensures matrix[..] == ModelRotationMatrix(modelRotationY, modelRotationX, cos, sin)
    {
      for i := 0 to 16
        invariant forall j :: 0 <= j < i ==> matrix[j] == IdentityMatrix()[j]
      {
        matrix[i] := if i % 5 == 0 then 1.0 else 0.0;
      }

      var cosY, sinY := cos(modelRotationY), sin(modelRotationY);
      matrix[0] := cosY;
      matrix[2] := -sinY;
      matrix[8] := sinY;
      matrix[10] := cosY;
      ghost var t := RotationY(cosY, sinY);
      YawOverIdentity(cosY, sinY);
      assert matrix[..] == t;

      if modelRotationX != 0.0 {
        ApplyPitch(matrix, cos(modelRotationX), sin(modelRotationX));
      }
    }
  }

  /**
   * The pitch step of getModelRotationMatrix: copy the matrix, then
   * rewrite entries 4-11 from the copy.
   */
  method ApplyPitch(matrix: array<real>, cosX: real, sinX: real)
    requires matrix.Length == 16
    modifies matrix
    ensures matrix[..] == PitchMix(old(matrix[..]), cosX, sinX)
  {
    var temp := matrix[..];
    Store(matrix, PitchMix(temp, cosX, sinX));
  }

  /** Writes the entries of m into matrix, in index order. */
  method Store(matrix: array<real>, m: seq<real>)
    requires matrix.Length == |m|
    modifies matrix
    ensures matrix[..] == m
  {
    for i := 0 to |m|
      invariant matrix[..i] == m[..i]
    {
      matrix[i] := m[i];
      assert matrix[..i + 1] == matrix[..i] + [m[i]];
    }
  }
}
