/**
 * The parts of the web platform header with behaviour of their own: the
 * configuration table, the zoom-level enum, the loops of createWebModel
 * that copy a compile-time model definition into the runtime model, and
 * the in-class initial values of the platform's fields.
 *
 * Float constants are `real`s with the decimal value written in the
 * header; the integer fields keep their C++ widths as subset types.
 */
module WebPlatform {

  newtype uint8 = x: int | 0 <= x < 0x100
  newtype uint16 = x: int | 0 <= x < 0x1_0000

  // ---------------------------------------------------------------------
  // Configuration table

  // LED appearance
  const DefaultLedSize: real := 0.7
  const MinLedSizeRatio: real := 0.3
  const MaxLedSizeRatio: real := 1.5
  /** Physical LED diameter, in mm. */
  const PhysicalLedDiameter: real := 3.8
  /** Physical edge length of one face, in mm. */
  const PhysicalFaceEdge: real := 107.3
  const DefaultAtmosphereIntensity: real := 1.6
  const MinAtmosphereIntensity: real := 0.0
  const MaxAtmosphereIntensity: real := 2.5
  const DefaultLedSpacing: real := 5.0
  const DefaultBrightness: uint8 := 240

  // Camera
  const CameraCloseDistance: real := 22.0
  const CameraNormalDistance: real := 28.0
  const CameraFarDistance: real := 55.0
  const CameraFovDegrees: real := 50.0
  const CameraNearPlane: real := 0.1
  const CameraFarPlane: real := 100.0

  // Rotation
  const RotationScale: real := 0.004
  const MaxVerticalRotation: real := 1.5
  const DefaultAutoRotationSpeed: real := 0.4
  const AutoRotationTimeScale: real := 1.0

  // Shader effects
  const ColorBrightnessBoost: real := 1.0
  const MinLedBrightness: real := 0.05
  const MaxDepthFade: real := 6.0
  const MinDepthFade: real := 0.4

  /** The default LED size and atmosphere intensity lie inside their own ranges. */
  lemma DefaultsWithinRanges()
    ensures MinLedSizeRatio <= DefaultLedSize <= MaxLedSizeRatio
    ensures MinAtmosphereIntensity <= DefaultAtmosphereIntensity <= MaxAtmosphereIntensity
  {
  }

  /**
   * The three camera presets are strictly increasing and all lie between
   * the near and the far clipping planes.
   */
  lemma CameraPresetsOrdered()
    ensures CameraNearPlane < CameraCloseDistance < CameraNormalDistance
    ensures CameraNormalDistance < CameraFarDistance < CameraFarPlane
  {
  }

  /** The depth-fade band is non-empty and visible LEDs keep a positive brightness floor. */
  lemma ShaderBoundsConsistent()
    ensures 0.0 < MinDepthFade < MaxDepthFade
    ensures 0.0 < MinLedBrightness
  {
  }

  // ---------------------------------------------------------------------
  // Zoom levels

  /** The three zoom levels, in the order the enum declares them. */
  datatype ZoomLevel = Close | Normal | Far

  /** The enum's implicit underlying value: declaration order from 0. */
  function ZoomOrdinal(z: ZoomLevel): (n: nat)
    ensures n < 3
  {
    match z
    case Close => 0
    case Normal => 1
    case Far => 2
  }

  /** The level with underlying value n, if there is one. */
  function ZoomFromOrdinal(n: int): (z: Option<ZoomLevel>)
    ensures z.Some? <==> 0 <= n < 3
  {
    if n == 0 then Some(Close)
    else if n == 1 then Some(Normal)
    else if n == 2 then Some(Far)
    else None
  }

  /** Converting to the underlying value and back is the identity, in both directions. */
  lemma ZoomOrdinalRoundTrip(z: ZoomLevel, n: int)
    ensures ZoomFromOrdinal(ZoomOrdinal(z)) == Some(z)
    ensures ZoomFromOrdinal(n).Some? ==> ZoomOrdinal(ZoomFromOrdinal(n).value) == n
  {
  }

  datatype Option<T> = None | Some(value: T)

  // ---------------------------------------------------------------------
  // createWebModel

  /** One point of a model definition: an LED's coordinates. */
  datatype PointDef = PointDef(x: real, y: real, z: real)

  /** One face of a model definition, by its vertex coordinates. */
  datatype FaceDef = FaceDef(vertices: seq<PointDef>)

  /** The compile-time model definition, as values. */
  datatype ModelDef = ModelDef(name: string, version: string, ledCount: nat, faceCount: nat,
                               points: seq<PointDef>, faces: seq<FaceDef>)

  /** A vertex or LED position of the runtime model. */
  datatype Position = Position(x: real, y: real, z: real)

  /** A pentagonal face of the runtime model: always five vertices. */
  datatype WebFace = WebFace(vertices: seq<Position>)

  datatype Metadata = Metadata(name: string, version: string, numLeds: nat)

  datatype WebModel = WebModel(metadata: Metadata, positions: seq<Position>, faces: seq<WebFace>)

  function PositionOf(p: PointDef): Position
  {
    Position(p.x, p.y, p.z)
  }

  /**
   * What createWebModel demands of a definition: the uint16 loop counters
   * reach both counts, the point and face tables hold at least as many
   * entries as the counts say, and every face has the five vertices the
   * inner loop reads.
   */
  predicate WellFormed(def: ModelDef)
  {
    def.ledCount < 0x1_0000 && def.faceCount < 0x1_0000 &&
    def.ledCount <= |def.points| && def.faceCount <= |def.faces| &&
    forall f :: 0 <= f < def.faceCount ==> |def.faces[f].vertices| >= 5
  }

  /**
   * Builds the runtime model: metadata copied, one position per LED in
   * order, one five-vertex face per face definition in order.
   */
  method CreateWebModel(def: ModelDef) returns (model: WebModel)
    requires WellFormed(def)
    ensures model.metadata == Metadata(def.name, def.version, def.ledCount)
    ensures |model.positions| == def.ledCount == model.metadata.numLeds
    ensures forall i :: 0 <= i < def.ledCount ==>
              model.positions[i] == PositionOf(def.points[i])
    ensures |model.faces| == def.faceCount
    ensures forall f :: 0 <= f < def.faceCount ==>
              |model.faces[f].vertices| == 5 &&
              forall i :: 0 <= i < 5 ==>
                model.faces[f].vertices[i] == PositionOf(def.faces[f].vertices[i])
  {
    var metadata := Metadata(def.name, def.version, def.ledCount);

    var positions: seq<Position> := [];
    var i: uint16 := 0;
    while (i as int) < def.ledCount
      invariant i as int <= def.ledCount
      invariant |positions| == i as int
      invariant forall j :: 0 <= j < i as int ==> positions[j] == PositionOf(def.points[j])
    {
      var point := def.points[i];
      positions := positions + [Position(point.x, point.y, point.z)];
      i := i + 1;
    }

    var faces: seq<WebFace> := [];
    var face: uint16 := 0;
    while (face as int) < def.faceCount
      invariant face as int <= def.faceCount
      invariant |faces| == face as int
      invariant forall f :: 0 <= f < face as int ==>
                  |faces[f].vertices| == 5 &&
                  forall k :: 0 <= k < 5 ==>
                    faces[f].vertices[k] == PositionOf(def.faces[f].vertices[k])
    {
      var vertices := seq(5, _ => Position(0.0, 0.0, 0.0));
      var k: uint16 := 0;
      while k < 5
        invariant k <= 5
        invariant |vertices| == 5
        invariant forall j :: 0 <= j < k as int ==>
                    vertices[j] == PositionOf(def.faces[face].vertices[j])
      {
        var v := def.faces[face].vertices[k];
        vertices := vertices[k := Position(v.x, v.y, v.z)];
        k := k + 1;
      }
      faces := faces + [WebFace(vertices)];
      face := face + 1;
    }

    model := WebModel(metadata, positions, faces);
  }

  // ---------------------------------------------------------------------
  // Platform state

  /** An LED colour: one byte per channel. */
  datatype Crgb = Crgb(r: uint8, g: uint8, b: uint8)

  /**
   * The platform's mutable settings and handles with their in-class
   * initial values. GL handles are unsigned integers, 0 meaning "none".
   */
  class WebPlatform {
    // shader programs
    var ledShaderProgram: nat
    var meshShaderProgram: nat
    var glowShaderProgram: nat
    var blurShaderProgram: nat
    var compositeShaderProgram: nat
    // buffers and vertex arrays
    var ledVbo: nat
    var ledVao: nat
    var meshVbo: nat
    var meshIbo: nat
    var meshVao: nat
    var meshIndexCount: nat
    // post-processing framebuffer
    var framebuffer: nat
    var renderTexture: nat
    var depthRenderbuffer: nat
    var quadVao: nat
    var quadVbo: nat
    // LED data
    var leds: array?<Crgb>
    var numLeds: uint16
    var ledPositions: seq<Position>
    // settings
    var brightness: uint8
    var ledSize: real
    var atmosphereIntensity: real
    var ledSpacing: real
    var showMesh: bool
    var meshOpacity: real
    var showWireframe: bool
    // auto-rotation
    var autoRotation: bool
    var autoRotationSpeed: real
    var lastAutoRotationTime: real
    // pointer state
    var isDragging: bool
    var lastMouseX: int
    var lastMouseY: int
    var shiftKeyDown: bool
    // canvas
    var canvasWidth: int
    var canvasHeight: int
    // performance tracking
    var maxRefreshRate: uint8
    var dither: uint8
    var lastFrameTime: real
    var frameCount: nat
    var lastDeltaTime: real

    /** Every GL handle is 0: nothing has been created yet. */
    predicate NoGlResources()
      reads this
    {
      ledShaderProgram == 0 && meshShaderProgram == 0 && glowShaderProgram == 0 &&
      blurShaderProgram == 0 && compositeShaderProgram == 0 &&
      ledVbo == 0 && ledVao == 0 && meshVbo == 0 && meshIbo == 0 && meshVao == 0 &&
      framebuffer == 0 && renderTexture == 0 && depthRenderbuffer == 0 &&
      quadVao == 0 && quadVbo == 0
    }

    /** LED size and atmosphere intensity lie within the ranges of the configuration table. */
    predicate SettingsInRange()
      reads this
    {
      MinLedSizeRatio <= ledSize <= MaxLedSizeRatio &&
      MinAtmosphereIntensity <= atmosphereIntensity <= MaxAtmosphereIntensity
    }

    /** The state given by the in-class initialisers. */
    constructor ()
      ensures NoGlResources()
      ensures leds == null && numLeds == 0 && ledPositions == [] && meshIndexCount == 0
      ensures brightness == DefaultBrightness && ledSize == DefaultLedSize
      ensures atmosphereIntensity == DefaultAtmosphereIntensity && ledSpacing == DefaultLedSpacing
      ensures showMesh && meshOpacity == 0.3 && !showWireframe
      ensures !autoRotation && autoRotationSpeed == DefaultAutoRotationSpeed
      ensures lastAutoRotationTime == 0.0
      ensures !isDragging && lastMouseX == 0 && lastMouseY == 0 && !shiftKeyDown
      ensures canvasWidth == 800 && canvasHeight == 600
      ensures maxRefreshRate == 60 && dither == 1
      ensures lastFrameTime == 0.0 && frameCount == 0 && lastDeltaTime == 0.0
      ensures SettingsInRange()
    {
      ledShaderProgram, meshShaderProgram, glowShaderProgram := 0, 0, 0;
      blurShaderProgram, compositeShaderProgram := 0, 0;
      ledVbo, ledVao, meshVbo, meshIbo, meshVao := 0, 0, 0, 0, 0;
      meshIndexCount := 0;
      framebuffer, renderTexture, depthRenderbuffer := 0, 0, 0;
      quadVao, quadVbo := 0, 0;
      leds, numLeds, ledPositions := null, 0, [];
      brightness := DefaultBrightness;
      ledSize := DefaultLedSize;
      atmosphereIntensity := DefaultAtmosphereIntensity;
      ledSpacing := DefaultLedSpacing;
      showMesh, meshOpacity, showWireframe := true, 0.3, false;
      autoRotation, autoRotationSpeed := false, DefaultAutoRotationSpeed;
      lastAutoRotationTime := 0.0;
      isDragging, lastMouseX, lastMouseY, shiftKeyDown := false, 0, 0, false;
      canvasWidth, canvasHeight := 800, 600;
      maxRefreshRate, dither := 60, 1;
      lastFrameTime, frameCount, lastDeltaTime := 0.0, 0, 0.0;
    }
  }
}
