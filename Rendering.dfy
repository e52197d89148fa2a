/** The deferred renderer (Renderer.h, Renderer.cpp): a table of eight
    render targets rebuilt on every resize, and a frame that fills the
    scene targets, runs the screen-space passes and composites onto the
    back buffer. A frame is specified by the command trace it appends to
    the context; the lemmas here say what that trace draws, where, and in
    which order. */
module Rendering {
  import opened Common
  import opened Gpu
  import opened Lights
  import Particles
  import Sky

  // ------------------------------------------------------------ target table

  /** RenderTargetType, without its trailing count enumerator. */
  datatype RenderTargetType =
    | SceneColorsNoAmbient
    | SceneColors
    | SceneNormals
    | SceneDepths
    | SceneSkyAndOccluders
    | SsaoResults
    | SsaoBlur
    | FinalComposite

  /** RENDER_TARGET_TYPE_COUNT, the length of both target tables. */
  const RenderTargetTypeCount := 8

  /** The enumerator's value, its slot in the tables. */
  function Index(t: RenderTargetType): (i: nat)
    ensures i < RenderTargetTypeCount
  {
    match t
    case SceneColorsNoAmbient => 0
    case SceneColors => 1
    case SceneNormals => 2
    case SceneDepths => 3
    case SceneSkyAndOccluders => 4
    case SsaoResults => 5
    case SsaoBlur => 6
    case FinalComposite => 7
  }

  /** The enumerator an integer names, if it names one. */
  function FromIndex(i: int): (t: Option<RenderTargetType>)
    ensures t.Some? <==> 0 <= i < RenderTargetTypeCount
    ensures t.Some? ==> Index(t.value) == i
  {
    if i == 0 then Some(SceneColorsNoAmbient)
    else if i == 1 then Some(SceneColors)
    else if i == 2 then Some(SceneNormals)
    else if i == 3 then Some(SceneDepths)
    else if i == 4 then Some(SceneSkyAndOccluders)
    else if i == 5 then Some(SsaoResults)
    else if i == 6 then Some(SsaoBlur)
    else if i == 7 then Some(FinalComposite)
    else None
  }

  /** Distinct enumerators have distinct slots, so every slot belongs to
      exactly one target. */
  lemma IndexInjective(a: RenderTargetType, b: RenderTargetType)
    requires Index(a) == Index(b)
    ensures a == b
  {
  }

  /** The order PostResize creates the targets in; it is not the
      enumeration order. */
  const CreationOrder: seq<RenderTargetType> :=
    [SceneColorsNoAmbient, SceneColors, SceneNormals, SceneDepths,
     SceneSkyAndOccluders, FinalComposite, SsaoBlur, SsaoResults]

  /** Where a target sits in the creation order: every target is created,
      at exactly one position. */
  function CreationIndex(t: RenderTargetType): (k: nat)
    ensures k < |CreationOrder| && CreationOrder[k] == t
  {
    match t
    case SceneColorsNoAmbient => 0
    case SceneColors => 1
    case SceneNormals => 2
    case SceneDepths => 3
    case SceneSkyAndOccluders => 4
    case FinalComposite => 5
    case SsaoBlur => 6
    case SsaoResults => 7
  }

  /** Scene depths are a single 32-bit float channel; every other target
      is 8-bit RGBA. */
  function TargetFormat(t: RenderTargetType): Format {
    if t == SceneDepths then R32Float else R8G8B8A8Unorm
  }

  // ---------------------------------------------------------------- entities

  /** The part of a game entity the renderer touches: its material's pixel
      shader handle, which the refraction pass swaps, and whether the
      material is refractive. Entities sharing a material share one object. */
  class Material {
    var pixelShader: Id
    const refractive: bool

    constructor(pixelShader: Id, refractive: bool)
      ensures this.pixelShader == pixelShader && this.refractive == refractive
    {
      this.pixelShader := pixelShader;
      this.refractive := refractive;
    }

    method SetPixelShader(ps: Id)
      modifies this`pixelShader
      ensures pixelShader == ps
    {
      pixelShader := ps;
    }
  }

  /** The entity vector the game owns and the renderer holds by reference;
      entity i is drawn with material `items[i]`. */
  class EntityList {
    var items: seq<Material>

    constructor()
      ensures items == []
    {
      items := [];
    }
  }

  /** What one frame reads of an entity. */
  datatype Surface = Surface(refractive: bool, pixelShader: Id)

  function Surfaces(ms: seq<Material>): (r: seq<Surface>)
    reads ms
    ensures |r| == |ms|
    ensures forall i :: 0 <= i < |ms| ==> r[i] == Surface(ms[i].refractive, ms[i].pixelShader)
  {
    seq(|ms|, i requires 0 <= i < |ms| reads ms => Surface(ms[i].refractive, ms[i].pixelShader))
  }

  function RefractiveFlags(ss: seq<Surface>): (r: seq<bool>)
    ensures |r| == |ss|
    ensures forall i :: 0 <= i < |ss| ==> r[i] == ss[i].refractive
  {
    seq(|ss|, i requires 0 <= i < |ss| => ss[i].refractive)
  }

  /** The indices below `n` whose flag is set, in increasing order. */
  function Select(flags: seq<bool>, n: nat): seq<int>
    requires n <= |flags|
  {
    if n == 0 then []
    else Select(flags, n - 1) + (if flags[n - 1] then [n - 1] else [])
  }

  /** Only flagged indices below `n` are selected, in strictly increasing
      order. */
  lemma {:induction false} SelectSorted(flags: seq<bool>, n: nat)
    requires n <= |flags|
    ensures forall k :: 0 <= k < |Select(flags, n)| ==> 0 <= Select(flags, n)[k] < n && flags[Select(flags, n)[k]]
    ensures forall k, l :: 0 <= k < l < |Select(flags, n)| ==> Select(flags, n)[k] < Select(flags, n)[l]
  {
    if n > 0 {
      SelectSorted(flags, n - 1);
      var p, r := Select(flags, n - 1), Select(flags, n);
      assert forall k :: 0 <= k < |p| ==> r[k] == p[k];
    }
  }

  /** How often `x` occurs in `s`. */
  function Occurrences(s: seq<int>, x: int): nat {
    if s == [] then 0
    else Occurrences(s[..|s| - 1], x) + (if s[|s| - 1] == x then 1 else 0)
  }

  /** Every flagged index below `n` is selected exactly once, and nothing
      else is selected. */
  lemma {:induction false} SelectOnce(flags: seq<bool>, n: nat, x: int)
    requires n <= |flags|
    ensures Occurrences(Select(flags, n), x) == if 0 <= x < n && flags[x] then 1 else 0
  {
    if n > 0 {
      var s := Select(flags, n);
      SelectOnce(flags, n - 1, x);
      if flags[n - 1] {
        assert s[..|s| - 1] == Select(flags, n - 1);
      } else {
        assert s == Select(flags, n - 1);
      }
    }
  }

  // ------------------------------------------------------------- frame trace

  /** The colour every target is cleared to. */
  const Black := Color(0.0, 0.0, 0.0, 1.0)

  /** The colour the scene-depths target is cleared to last: depth 1, the
      far plane. */
  const FarDepth := Color(1.0, 0.0, 0.0, 0.0)

  /** The renderer state a frame reads: the back buffer and depth views,
      the render-target-view and shader-resource-view tables, the current
      viewport, the pass flags and the refraction shader. */
  datatype Setup = Setup(
    backBuffer: Option<Id>,
    depth: Option<Id>,
    rtvs: seq<Option<Id>>,
    srvs: seq<Option<Id>>,
    viewport: Viewport,
    drawPointMeshes: bool,
    useLightRays: bool,
    useRefraction: bool,
    refractionPS: Id)

  /** The five scene targets the geometry pass writes, in slot order. */
  function SceneTargets(s: Setup): seq<Option<Id>>
    requires |s.rtvs| == RenderTargetTypeCount
  {
    s.rtvs[..5]
  }

  function ClearEach(rtvs: seq<Option<Id>>): seq<Event> {
    if rtvs == [] then []
    else ClearEach(rtvs[..|rtvs| - 1]) + [ClearTarget(rtvs[|rtvs| - 1], Black)]
  }

  /** Clearing the back buffer, the depth buffer, every table entry, and
      the scene depths once more. */
  function ClearSegment(s: Setup): seq<Event>
    requires |s.rtvs| == RenderTargetTypeCount
  {
    [ClearTarget(s.backBuffer, Black), ClearDepth(s.depth)]
    + ClearEach(s.rtvs)
    + [ClearTarget(s.rtvs[Index(SceneDepths)], FarDepth)]
  }

  /** Binding the scene targets with the depth buffer, then clearing the
      back buffer and depth buffer again. */
  function BindSegment(s: Setup): seq<Event>
    requires |s.rtvs| == RenderTargetTypeCount
  {
    [BindTargets(SceneTargets(s), s.depth), ClearTarget(s.backBuffer, Black), ClearDepth(s.depth)]
  }

  /** The geometry pass over entities 0 .. n-1: every entity that is not
      refractive is drawn with its own material's shader into `targets`. */
  function GeometryDraws(ss: seq<Surface>, n: nat, targets: seq<Option<Id>>, depth: Option<Id>, vp: Viewport): seq<Event>
    requires n <= |ss|
  {
    if n == 0 then []
    else (GeometryDraws(ss, n - 1, targets, depth, vp)
          + (if ss[n - 1].refractive then []
             else [Event.Draw(EntityMesh(n - 1, ss[n - 1].pixelShader), targets, depth, vp)]))
  }

  /** A draw of an opaque entity below `n`, with that entity's own shader,
      into the given targets, depth buffer and viewport. */
  predicate OpaqueDraw(e: Event, ss: seq<Surface>, n: nat, targets: seq<Option<Id>>, depth: Option<Id>, vp: Viewport)
    requires n <= |ss|
  {
    && e.Draw? && e.kind.EntityMesh? && 0 <= e.kind.entity < n
    && !ss[e.kind.entity].refractive
    && e.kind.pixelShader == ss[e.kind.entity].pixelShader
    && e.targets == targets && e.depth == depth && e.viewport == vp
  }

  /** Every geometry draw is of an opaque entity, drawn as it should be. */
  lemma {:induction false} GeometryDrawsShape(ss: seq<Surface>, n: nat, targets: seq<Option<Id>>, depth: Option<Id>, vp: Viewport)
    requires n <= |ss|
    ensures forall k :: 0 <= k < |GeometryDraws(ss, n, targets, depth, vp)| ==>
      OpaqueDraw(GeometryDraws(ss, n, targets, depth, vp)[k], ss, n, targets, depth, vp)
  {
    if n > 0 {
      GeometryDrawsShape(ss, n - 1, targets, depth, vp);
      var p, r := GeometryDraws(ss, n - 1, targets, depth, vp), GeometryDraws(ss, n, targets, depth, vp);
      assert forall k :: 0 <= k < |p| ==> r[k] == p[k];
    }
  }

  /** The light mesh is scaled by a twentieth of the light's range. */
  function LightScale(l: Light): real {
    l.range / 20.0
  }

  /** The light mesh is coloured by the light's colour times its intensity. */
  function Tint(l: Light): Vec3 {
    Vec3(l.color.x * l.intensity, l.color.y * l.intensity, l.color.z * l.intensity)
  }

  /** DrawPointLights over lights 0 .. n-1: one mesh per point light. */
  function PointLightDraws(ls: seq<Light>, n: nat, targets: seq<Option<Id>>, depth: Option<Id>, vp: Viewport): seq<Event>
    requires n <= |ls|
  {
    if n == 0 then []
    else (PointLightDraws(ls, n - 1, targets, depth, vp)
          + (if ls[n - 1].kind != Point then []
             else [Event.Draw(LightMesh(n - 1, LightScale(ls[n - 1]), Tint(ls[n - 1])), targets, depth, vp)]))
  }

  /** A light mesh of a point light below `n`, at that light's scale and
      tint. */
  predicate PointLightDraw(e: Event, ls: seq<Light>, n: nat)
    requires n <= |ls|
  {
    && e.Draw? && e.kind.LightMesh? && 0 <= e.kind.light < n
    && ls[e.kind.light].kind == Point
    && e.kind.scale == LightScale(ls[e.kind.light]) && e.kind.tint == Tint(ls[e.kind.light])
  }

  /** Every light mesh drawn is of a point light, drawn as it should be. */
  lemma {:induction false} PointLightDrawsShape(ls: seq<Light>, n: nat, targets: seq<Option<Id>>, depth: Option<Id>, vp: Viewport)
    requires n <= |ls|
    ensures forall k :: 0 <= k < |PointLightDraws(ls, n, targets, depth, vp)| ==>
      PointLightDraw(PointLightDraws(ls, n, targets, depth, vp)[k], ls, n)
  {
    if n > 0 {
      PointLightDrawsShape(ls, n - 1, targets, depth, vp);
      var p, r := PointLightDraws(ls, n - 1, targets, depth, vp), PointLightDraws(ls, n, targets, depth, vp);
      assert forall k :: 0 <= k < |p| ==> r[k] == p[k];
    }
  }

  /** The SSAO pass with the scene's sky-and-occluders target left in slot
      4, then the blur and the combine, each a full-screen triangle into one
      target without depth. */
  function SsaoSegment(s: Setup): seq<Event>
    requires |s.rtvs| == RenderTargetTypeCount
  {
    var ssao := [s.rtvs[Index(SsaoResults)], None, None, None, s.rtvs[Index(SceneSkyAndOccluders)]];
    var blur := [s.rtvs[Index(SsaoBlur)]];
    var combine := [s.rtvs[Index(FinalComposite)]];
    [BindTargets(ssao, None), Event.Draw(SsaoPass, ssao, None, s.viewport),
     BindTargets(blur, None), Event.Draw(SsaoBlurPass, blur, None, s.viewport),
     BindTargets(combine, None), Event.Draw(SsaoCombinePass, combine, None, s.viewport)]
  }

  /** Copying onto the back buffer what the shader-resource view of the
      scene colours without ambient holds (not the SSAO composite), then
      binding the back buffer with the depth buffer. */
  function FinalSegment(s: Setup): seq<Event>
    requires |s.srvs| == RenderTargetTypeCount
  {
    [BindTargets([s.backBuffer], None),
     Event.Draw(FinalCopy(s.srvs[Index(SceneColorsNoAmbient)]), [s.backBuffer], None, s.viewport),
     BindTargets([s.backBuffer], s.depth)]
  }

  function LightRaySegment(s: Setup): seq<Event> {
    [BindTargets([s.backBuffer], None), Event.Draw(LightRays, [s.backBuffer], None, s.viewport)]
  }

  /** The refraction pass over the first `n` collected entities, each drawn
      with the refraction shader in place of its material's own. */
  function RefractionDraws(entities: seq<int>, n: nat, ps: Id, targets: seq<Option<Id>>, vp: Viewport): seq<Event>
    requires n <= |entities|
  {
    if n == 0 then []
    else (RefractionDraws(entities, n - 1, ps, targets, vp)
          + [Event.Draw(EntityMesh(entities[n - 1], ps), targets, None, vp)])
  }

  /** Draw k of the refraction pass is collected entity k, with the
      refraction shader and no depth buffer. */
  lemma {:induction false} RefractionDrawsShape(entities: seq<int>, n: nat, ps: Id, targets: seq<Option<Id>>, vp: Viewport)
    requires n <= |entities|
    ensures |RefractionDraws(entities, n, ps, targets, vp)| == n
    ensures forall k :: 0 <= k < n ==>
      RefractionDraws(entities, n, ps, targets, vp)[k] == Event.Draw(EntityMesh(entities[k], ps), targets, None, vp)
  {
    if n > 0 {
      RefractionDrawsShape(entities, n - 1, ps, targets, vp);
    }
  }

  function RefractionSegment(s: Setup, ss: seq<Surface>): seq<Event> {
    var refractive := Select(RefractiveFlags(ss), |ss|);
    [BindTargets([s.backBuffer], None)]
    + RefractionDraws(refractive, |refractive|, s.refractionPS, [s.backBuffer], s.viewport)
  }

  /** Emitters 0 .. n-1 draw their quads in list order; `counts[i]` is the
      index count emitter i asks for. */
  function ParticleDraws(counts: seq<int>, n: nat, targets: seq<Option<Id>>, depth: Option<Id>, vp: Viewport): seq<Event>
    requires n <= |counts|
  {
    if n == 0 then []
    else (ParticleDraws(counts, n - 1, targets, depth, vp)
          + [Event.Draw(ParticleQuads(n - 1, counts[n - 1]), targets, depth, vp)])
  }

  /** Draw k of the particle pass is emitter k's, with its own count. */
  lemma {:induction false} ParticleDrawsShape(counts: seq<int>, n: nat, targets: seq<Option<Id>>, depth: Option<Id>, vp: Viewport)
    requires n <= |counts|
    ensures |ParticleDraws(counts, n, targets, depth, vp)| == n
    ensures forall k :: 0 <= k < n ==>
      ParticleDraws(counts, n, targets, depth, vp)[k] == Event.Draw(ParticleQuads(k, counts[k]), targets, depth, vp)
  {
    if n > 0 {
      ParticleDrawsShape(counts, n - 1, targets, depth, vp);
    }
  }

  /** The particles with their blend and depth states, over the back
      buffer and the depth buffer. */
  function ParticleSegment(s: Setup, counts: seq<int>): seq<Event> {
    [BindTargets([s.backBuffer], s.depth), ParticleStates(true)]
    + ParticleDraws(counts, |counts|, [s.backBuffer], s.depth, s.viewport)
    + [ParticleStates(false)]
  }

  /** Presenting, rebinding the back buffer (the flip swap chain unbinds
      it) and unbinding the sixteen pixel-shader resources. */
  function EndSegment(s: Setup): seq<Event> {
    [Event.Present, BindTargets([s.backBuffer], s.depth), UnbindShaderResources(16)]
  }

  /** The first half of a frame: clearing, the geometry pass into the five
      scene targets, the light meshes and the sky. */
  function SceneTrace(s: Setup, ss: seq<Surface>, ls: seq<Light>, lightCount: int): seq<Event>
    requires |s.rtvs| == RenderTargetTypeCount && lightCount <= |ls|
  {
    var scene := SceneTargets(s);
    ClearSegment(s)
    + BindSegment(s)
    + GeometryDraws(ss, |ss|, scene, s.depth, s.viewport)
    + (if s.drawPointMeshes then PointLightDraws(ls, Max(lightCount, 0), scene, s.depth, s.viewport) else [])
    + [Event.Draw(SkyBox, scene, s.depth, s.viewport)]
  }

  /** The screen-space passes over the scene targets and the copy to the
      back buffer, with the light rays when enabled. */
  function PostTrace(s: Setup): seq<Event>
    requires |s.rtvs| == RenderTargetTypeCount && |s.srvs| == RenderTargetTypeCount
  {
    SsaoSegment(s)
    + FinalSegment(s)
    + (if s.useLightRays then LightRaySegment(s) else [])
  }

  /** What is drawn over the composited image: refraction when enabled and
      the particles; then presenting. */
  function OverlayTrace(s: Setup, ss: seq<Surface>, counts: seq<int>): seq<Event> {
    (if s.useRefraction then RefractionSegment(s, ss) else [])
    + ParticleSegment(s, counts)
    + EndSegment(s)
  }

  /** Everything one frame appends to the context. */
  function FrameTrace(s: Setup, ss: seq<Surface>, ls: seq<Light>, lightCount: int, counts: seq<int>): seq<Event>
    requires |s.rtvs| == RenderTargetTypeCount && |s.srvs| == RenderTargetTypeCount && lightCount <= |ls|
  {
    SceneTrace(s, ss, ls, lightCount) + PostTrace(s) + OverlayTrace(s, ss, counts)
  }

  /** The index count each emitter's draw asks for. */
  function ParticleCounts(es: seq<Particles.Emitter>): (r: seq<int>)
    reads es
    ensures |r| == |es|
  {
    seq(|es|, i requires 0 <= i < |es| reads es => es[i].numAliveParticles * 6)
  }

  // ------------------------------------------------------------------ resize

  /** The render target views a resize that starts handing out ids at
      `base` leaves in the table: target k in creation order owns ids
      base + 3k (texture), + 1 (render target view), + 2 (shader view). */
  function ResizedRtvs(base: Id): seq<Option<Id>> {
    [Some(base + 1), Some(base + 4), Some(base + 7), Some(base + 10),
     Some(base + 13), Some(base + 22), Some(base + 19), Some(base + 16)]
  }

  function ResizedSrvs(base: Id): seq<Option<Id>> {
    [Some(base + 2), Some(base + 5), Some(base + 8), Some(base + 11),
     Some(base + 14), Some(base + 23), Some(base + 20), Some(base + 17)]
  }

  function TargetDesc(t: RenderTargetType, width: int, height: int): TextureDesc {
    TextureDesc(width, height, TargetFormat(t), 1)
  }

  /** The textures after a resize: the eight targets, created in order. */
  function ResizedTextures(m: map<Id, TextureDesc>, base: Id, width: int, height: int): map<Id, TextureDesc> {
    m[base := TargetDesc(SceneColorsNoAmbient, width, height)]
     [base + 3 := TargetDesc(SceneColors, width, height)]
     [base + 6 := TargetDesc(SceneNormals, width, height)]
     [base + 9 := TargetDesc(SceneDepths, width, height)]
     [base + 12 := TargetDesc(SceneSkyAndOccluders, width, height)]
     [base + 15 := TargetDesc(FinalComposite, width, height)]
     [base + 18 := TargetDesc(SsaoBlur, width, height)]
     [base + 21 := TargetDesc(SsaoResults, width, height)]
  }

  /** The views after a resize: two onto each new texture. */
  function ResizedViews(m: map<Id, Id>, base: Id): map<Id, Id> {
    m[base + 1 := base][base + 2 := base]
     [base + 4 := base + 3][base + 5 := base + 3]
     [base + 7 := base + 6][base + 8 := base + 6]
     [base + 10 := base + 9][base + 11 := base + 9]
     [base + 13 := base + 12][base + 14 := base + 12]
     [base + 16 := base + 15][base + 17 := base + 15]
     [base + 19 := base + 18][base + 20 := base + 18]
     [base + 22 := base + 21][base + 23 := base + 21]
  }

  /** After a resize the render target view of every target is a new view
      onto the texture created at the target's place in the creation order. */
  lemma ResizedTargetRtv(t: RenderTargetType, base: Id, views: map<Id, Id>)
    ensures var rtv := ResizedRtvs(base)[Index(t)];
      && rtv.Some? && base < rtv.value
      && rtv.value in ResizedViews(views, base)
      && ResizedViews(views, base)[rtv.value] == base + 3 * CreationIndex(t)
  {
    match t
    case SceneColorsNoAmbient =>
    case SceneColors =>
    case SceneNormals =>
    case SceneDepths =>
    case SceneSkyAndOccluders =>
    case SsaoResults =>
    case SsaoBlur =>
    case FinalComposite =>
  }

  /** Likewise the shader view of every target. */
  lemma ResizedTargetSrv(t: RenderTargetType, base: Id, views: map<Id, Id>)
    ensures var srv := ResizedSrvs(base)[Index(t)];
      && srv.Some? && base < srv.value
      && srv.value in ResizedViews(views, base)
      && ResizedViews(views, base)[srv.value] == base + 3 * CreationIndex(t)
  {
    match t
    case SceneColorsNoAmbient =>
    case SceneColors =>
    case SceneNormals =>
    case SceneDepths =>
    case SceneSkyAndOccluders =>
    case SsaoResults =>
    case SsaoBlur =>
    case FinalComposite =>
  }

  /** The texture behind every target has exactly the new size, the
      target's format and a single mip. */
  lemma ResizedTargetTexture(t: RenderTargetType, base: Id, width: int, height: int,
                             textures: map<Id, TextureDesc>)
    ensures var tex := base + 3 * CreationIndex(t);
      var ts := ResizedTextures(textures, base, width, height);
      tex in ts && ts[tex] == TextureDesc(width, height, TargetFormat(t), 1)
  {
    match t
    case SceneColorsNoAmbient =>
    case SceneColors =>
    case SceneNormals =>
    case SceneDepths =>
    case SceneSkyAndOccluders =>
    case SsaoResults =>
    case SsaoBlur =>
    case FinalComposite =>
  }

  /** The sixteen views a resize stores are pairwise distinct. */
  lemma ResizedViewsDistinct(base: Id)
    ensures forall i, j :: 0 <= i < j < RenderTargetTypeCount ==>
      ResizedRtvs(base)[i] != ResizedRtvs(base)[j] && ResizedSrvs(base)[i] != ResizedSrvs(base)[j]
    ensures forall i, j :: 0 <= i < RenderTargetTypeCount && 0 <= j < RenderTargetTypeCount ==>
      ResizedRtvs(base)[i] != ResizedSrvs(base)[j]
  {
  }

  // ---------------------------------------------------------------- renderer

  class Renderer {
    const context: Context
    const sky: Sky.Sky
    const entities: EntityList
    const lights: LightList
    const emitters: seq<Particles.Emitter>
    const refractionPS: Id

    /** The two parallel tables, indexed by RenderTargetType. */
    const renderTargetRTVs: array<Option<Id>>
    const renderTargetSRVs: array<Option<Id>>

    var backBufferRTV: Option<Id>
    var depthBufferDSV: Option<Id>
    var windowWidth: nat
    var windowHeight: nat
    var lightCount: int

    // Public tunables, written between frames by the game's controls.
    var drawPointMeshes: bool
    var numLightRaySamples: int
    var lightRayDensity: real
    var lightRaySampleWeight: real
    var lightDecay: real
    var lightRayExposure: real
    var sunDirection: Vec3
    var lightRaySunFalloffExponent: real
    var lightRayColor: Vec3
    var useLightRays: bool
    var useRefraction: bool
    var refractionScale: real
    var ssaoSamples: int
    var ssaoRadius: real

    ghost predicate Valid() {
      && renderTargetRTVs.Length == RenderTargetTypeCount
      && renderTargetSRVs.Length == RenderTargetTypeCount
      && renderTargetRTVs != renderTargetSRVs
    }

    /** Stores the handles, sets the tunables to their starting values
        (the flags and SSAO settings the source never initialises are
        parameters) and builds the targets at the window size. */
    constructor(context: Context, sky: Sky.Sky, backBufferRTV: Option<Id>, depthBufferDSV: Option<Id>,
                windowWidth: nat, windowHeight: nat, entities: EntityList, lights: LightList,
                lightCount: int, refractionPS: Id, emitters: seq<Particles.Emitter>,
                useLightRays: bool, useRefraction: bool, ssaoSamples: int, ssaoRadius: real)
      modifies context`nextId, context`textures, context`views
      ensures Valid() && fresh(renderTargetRTVs) && fresh(renderTargetSRVs)
      ensures this.context == context && this.sky == sky && this.entities == entities && this.lights == lights
      ensures this.lightCount == lightCount && this.refractionPS == refractionPS && this.emitters == emitters
      ensures this.useLightRays == useLightRays && this.useRefraction == useRefraction
      ensures this.ssaoSamples == ssaoSamples && this.ssaoRadius == ssaoRadius
      ensures numLightRaySamples == 128 && lightRayDensity == 1.0 && lightRaySampleWeight == 0.2
      ensures lightDecay == 0.98 && lightRayExposure == 0.02 && sunDirection == Vec3(0.0, 0.0, 1.0)
      ensures lightRaySunFalloffExponent == 128.0 && lightRayColor == Vec3(1.0, 1.0, 1.0)
      ensures refractionScale == 0.1 && drawPointMeshes
      ensures this.windowWidth == windowWidth && this.windowHeight == windowHeight
      ensures this.backBufferRTV == backBufferRTV && this.depthBufferDSV == depthBufferDSV
      ensures context.nextId == old(context.nextId) + 3 * RenderTargetTypeCount
      ensures renderTargetRTVs[..] == ResizedRtvs(old(context.nextId))
      ensures renderTargetSRVs[..] == ResizedSrvs(old(context.nextId))
      ensures context.textures == ResizedTextures(old(context.textures), old(context.nextId), windowWidth, windowHeight)
      ensures context.views == ResizedViews(old(context.views), old(context.nextId))
    {
      this.context := context;
      this.sky := sky;
      this.entities := entities;
      this.lights := lights;
      this.lightCount := lightCount;
      this.refractionPS := refractionPS;
      this.emitters := emitters;
      this.backBufferRTV := backBufferRTV;
      this.depthBufferDSV := depthBufferDSV;
      this.windowWidth := windowWidth;
      this.windowHeight := windowHeight;
      numLightRaySamples := 128;
      lightRayDensity := 1.0;
      lightRaySampleWeight := 0.2;
      lightDecay := 0.98;
      lightRayExposure := 0.02;
      sunDirection := Vec3(0.0, 0.0, 1.0);
      lightRaySunFalloffExponent := 128.0;
      lightRayColor := Vec3(1.0, 1.0, 1.0);
      refractionScale := 0.1;
      drawPointMeshes := true;
      this.useLightRays := useLightRays;
      this.useRefraction := useRefraction;
      this.ssaoSamples := ssaoSamples;
      this.ssaoRadius := ssaoRadius;
      renderTargetRTVs := new Option<Id>[RenderTargetTypeCount](_ => None);
      renderTargetSRVs := new Option<Id>[RenderTargetTypeCount](_ => None);
      new;
      PostResize(windowWidth, windowHeight, backBufferRTV, depthBufferDSV);
    }

    /** Releases the back buffer and depth views before the swap chain is
        resized; the target tables are left alone. */
    method PreResize()
      modifies this`backBufferRTV, this`depthBufferDSV
      ensures backBufferRTV == None && depthBufferDSV == None
    {
      backBufferRTV := None;
      depthBufferDSV := None;
    }

    /** Records the new size and views, releases every table entry and
        recreates all eight targets at the new size. */
    method PostResize(width: nat, height: nat, backBufferRTV: Option<Id>, depthBufferDSV: Option<Id>)
      requires Valid()
      modifies this`windowWidth, this`windowHeight, this`backBufferRTV, this`depthBufferDSV
      modifies renderTargetRTVs, renderTargetSRVs, context`nextId, context`textures, context`views
      ensures windowWidth == width && windowHeight == height
      ensures this.backBufferRTV == backBufferRTV && this.depthBufferDSV == depthBufferDSV
      ensures context.nextId == old(context.nextId) + 3 * RenderTargetTypeCount
      ensures renderTargetRTVs[..] == ResizedRtvs(old(context.nextId))
      ensures renderTargetSRVs[..] == ResizedSrvs(old(context.nextId))
      ensures context.textures == ResizedTextures(old(context.textures), old(context.nextId), width, height)
      ensures context.views == ResizedViews(old(context.views), old(context.nextId))
    {
      windowWidth := width;
      windowHeight := height;
      this.backBufferRTV := backBufferRTV;
      this.depthBufferDSV := depthBufferDSV;
      ResetTables();
      var rtvs, srvs := CreateTargets(width, height);
      StoreTargets(rtvs, srvs);
    }

    /** The eight CreateRenderTarget calls, in the order PostResize makes them. */
    method CreateTargets(width: nat, height: nat) returns (rtvs: seq<Option<Id>>, srvs: seq<Option<Id>>)
      modifies context`nextId, context`textures, context`views
      ensures context.nextId == old(context.nextId) + 3 * RenderTargetTypeCount
      ensures rtvs == ResizedRtvs(old(context.nextId)) && srvs == ResizedSrvs(old(context.nextId))
      ensures context.textures == ResizedTextures(old(context.textures), old(context.nextId), width, height)
      ensures context.views == ResizedViews(old(context.views), old(context.nextId))
    {
      var r0, s0 := CreateRenderTarget(width, height, R8G8B8A8Unorm);
      var r1, s1 := CreateRenderTarget(width, height, R8G8B8A8Unorm);
      var r2, s2 := CreateRenderTarget(width, height, R8G8B8A8Unorm);
      var r3, s3 := CreateRenderTarget(width, height, R32Float);
      var r4, s4 := CreateRenderTarget(width, height, R8G8B8A8Unorm);
      var r7, s7 := CreateRenderTarget(width, height, R8G8B8A8Unorm);
      var r6, s6 := CreateRenderTarget(width, height, R8G8B8A8Unorm);
      var r5, s5 := CreateRenderTarget(width, height, R8G8B8A8Unorm);
      rtvs := [Some(r0), Some(r1), Some(r2), Some(r3), Some(r4), Some(r5), Some(r6), Some(r7)];
      srvs := [Some(s0), Some(s1), Some(s2), Some(s3), Some(s4), Some(s5), Some(s6), Some(s7)];
    }

    /** The two reset loops: every entry of both tables released. */
    method ResetTables()
      requires Valid()
      modifies renderTargetRTVs, renderTargetSRVs
      ensures forall i :: 0 <= i < RenderTargetTypeCount ==> renderTargetRTVs[i] == None && renderTargetSRVs[i] == None
    {
      for i := 0 to RenderTargetTypeCount
        invariant forall j :: 0 <= j < i ==> renderTargetRTVs[j] == None
        modifies renderTargetRTVs
      {
        renderTargetRTVs[i] := None;
      }
      for i := 0 to RenderTargetTypeCount
        invariant forall j :: 0 <= j < i ==> renderTargetRTVs[j] == None
        invariant forall j :: 0 <= j < i ==> renderTargetSRVs[j] == None
        modifies renderTargetSRVs
      {
        renderTargetSRVs[i] := None;
      }
    }

    /** Writes the views each target was created with into its slot of the
        two tables, as CreateRenderTarget does through its two reference
        parameters. */
    method StoreTargets(rtvs: seq<Option<Id>>, srvs: seq<Option<Id>>)
      requires Valid() && |rtvs| == RenderTargetTypeCount && |srvs| == RenderTargetTypeCount
      modifies renderTargetRTVs, renderTargetSRVs
      ensures renderTargetRTVs[..] == rtvs && renderTargetSRVs[..] == srvs
    {
      for i := 0 to RenderTargetTypeCount
        invariant renderTargetRTVs[..i] == rtvs[..i]
        modifies renderTargetRTVs
      {
        renderTargetRTVs[i] := rtvs[i];
      }
      for i := 0 to RenderTargetTypeCount
        invariant renderTargetRTVs[..] == rtvs
        invariant renderTargetSRVs[..i] == srvs[..i]
        modifies renderTargetSRVs
      {
        renderTargetSRVs[i] := srvs[i];
      }
    }

    /** A single-mip texture usable as a render target and a shader input,
        and one view of each kind onto it. */
    method CreateRenderTarget(width: int, height: int, format: Format) returns (rtv: Id, srv: Id)
      modifies context`nextId, context`textures, context`views
      ensures var tex := old(context.nextId);
        && rtv == tex + 1 && srv == tex + 2 && context.nextId == tex + 3
        && context.textures == old(context.textures)[tex := TextureDesc(width, height, format, 1)]
        && context.views == old(context.views)[rtv := tex][srv := tex]
    {
      var texture := context.CreateTexture(TextureDesc(width, height, format, 1));
      rtv := context.CreateView(texture);
      srv := context.CreateView(texture);
    }

    /** The shader view of the target an integer names; null for a value
        outside the enumeration. */
    function GetRenderTargetSRV(target: int): (srv: Option<Id>)
      requires Valid()
      reads renderTargetSRVs
      ensures FromIndex(target).None? ==> srv == None
      ensures forall t :: Index(t) == target ==> srv == renderTargetSRVs[Index(t)]
    {
      if target < 0 || target >= RenderTargetTypeCount then None else renderTargetSRVs[target]
    }

    // -------------------------------------------------------------- frame
    //
    // Render's local five-entry `targets` array is a sequence value here,
    // threaded from pass to pass: it is never shared, and binding it copies it.

    /** The renderer state a frame reads. */
    ghost function Snapshot(): Setup
      requires Valid()
      reads this`backBufferRTV, this`depthBufferDSV, renderTargetRTVs, renderTargetSRVs, context`viewport
      reads this`drawPointMeshes, this`useLightRays, this`useRefraction
    {
      Setup(backBufferRTV, depthBufferDSV, renderTargetRTVs[..], renderTargetSRVs[..], context.viewport,
            drawPointMeshes, useLightRays, useRefraction, refractionPS)
    }

    /** Draws one frame: scene targets first, then the screen-space passes
        over them, then presenting. The materials the refraction pass
        borrows are handed back with their own shaders. */
    method Render()
      requires Valid() && sky.context == context && lightCount <= |lights.items|
      requires forall i :: 0 <= i < |emitters| ==> emitters[i].Valid()
      modifies context`trace, context`boundTargets, context`boundDepth, entities.items`pixelShader
      ensures context.trace == old(context.trace)
        + FrameTrace(old(Snapshot()), old(Surfaces(entities.items)), lights.items, lightCount, old(ParticleCounts(emitters)))
      ensures forall m :: m in entities.items ==> m.pixelShader == old(m.pixelShader)
      ensures context.boundTargets == [backBufferRTV] && context.boundDepth == depthBufferDSV
    {
      var s := Setup(backBufferRTV, depthBufferDSV, renderTargetRTVs[..], renderTargetSRVs[..], context.viewport,
                     drawPointMeshes, useLightRays, useRefraction, refractionPS);
      ghost var ss := Surfaces(entities.items);
      var targets: seq<Option<Id>> := [None, None, None, None, None];
      var refractive;
      targets, refractive := DrawScene(s, ss, targets);
      ghost var t0, counts := old(context.trace), ParticleCounts(emitters);
      targets := PostProcess(s, targets);
      AppendAssoc(t0, SceneTrace(s, ss, lights.items, lightCount), PostTrace(s));
      Overlay(s, ss, targets, refractive);
      AppendAssoc(t0, SceneTrace(s, ss, lights.items, lightCount) + PostTrace(s), OverlayTrace(s, ss, counts));
    }

    /** Clearing, the geometry pass, the light meshes and the sky; returns
        the refractive entities the geometry pass skipped. */
    method DrawScene(s: Setup, ghost ss: seq<Surface>, targets: seq<Option<Id>>)
      returns (targets': seq<Option<Id>>, refractive: seq<int>)
      requires |s.rtvs| == RenderTargetTypeCount && |targets| == 5 && s.viewport == context.viewport
      requires ss == Surfaces(entities.items) && sky.context == context && lightCount <= |lights.items|
      modifies context`trace, context`boundTargets, context`boundDepth
      ensures |targets'| == 5 && targets'[4] == s.rtvs[Index(SceneSkyAndOccluders)]
      ensures refractive == Select(RefractiveFlags(ss), |ss|)
      ensures context.trace == old(context.trace) + SceneTrace(s, ss, lights.items, lightCount)
    {
      ghost var t0 := context.trace;
      ClearTargets(s);
      targets' := BindScene(s, targets);
      AppendAssoc(t0, ClearSegment(s), BindSegment(s));
      ghost var a := ClearSegment(s) + BindSegment(s);
      refractive := GeometryPass(ss);
      ghost var g := GeometryDraws(ss, |ss|, targets', s.depth, s.viewport);
      AppendAssoc(t0, a, g);
      ghost var p := if s.drawPointMeshes
        then PointLightDraws(lights.items, Max(lightCount, 0), targets', s.depth, s.viewport) else [];
      if s.drawPointMeshes {
        DrawPointLights();
      }
      AppendAssoc(t0, a + g, p);
      sky.Draw();
      AppendAssoc(t0, a + g + p, [Event.Draw(SkyBox, targets', s.depth, s.viewport)]);
    }

    /** The clears at the top of a frame: the back buffer, the depth buffer,
        every table entry, then the scene depths to the far plane. */
    method ClearTargets(s: Setup)
      requires |s.rtvs| == RenderTargetTypeCount
      modifies context`trace
      ensures context.trace == old(context.trace) + ClearSegment(s)
    {
      context.ClearRenderTargetView(s.backBuffer, Black);
      context.ClearDepthStencilView(s.depth);
      ghost var t0 := context.trace;
      for i := 0 to RenderTargetTypeCount
        invariant context.trace == t0 + ClearEach(s.rtvs[..i])
      {
        context.ClearRenderTargetView(s.rtvs[i], Black);
        assert s.rtvs[..i + 1][..i] == s.rtvs[..i];
      }
      assert s.rtvs[..RenderTargetTypeCount] == s.rtvs;
      context.ClearRenderTargetView(s.rtvs[Index(SceneDepths)], FarDepth);
    }

    /** Binds the five scene targets with the depth buffer and clears the
        back buffer and depth buffer again. */
    method BindScene(s: Setup, targets: seq<Option<Id>>) returns (targets': seq<Option<Id>>)
      requires |s.rtvs| == RenderTargetTypeCount && |targets| == 5
      modifies context`trace, context`boundTargets, context`boundDepth
      ensures targets' == SceneTargets(s)
      ensures context.boundTargets == targets' && context.boundDepth == s.depth
      ensures context.trace == old(context.trace) + BindSegment(s)
    {
      targets' := targets[0 := s.rtvs[Index(SceneColorsNoAmbient)]]
                         [1 := s.rtvs[Index(SceneColors)]]
                         [2 := s.rtvs[Index(SceneNormals)]]
                         [3 := s.rtvs[Index(SceneDepths)]]
                         [4 := s.rtvs[Index(SceneSkyAndOccluders)]];
      assert targets' == s.rtvs[..5];
      context.OMSetRenderTargets(targets', s.depth);
      context.ClearRenderTargetView(s.backBuffer, Black);
      context.ClearDepthStencilView(s.depth);
    }

    /** Draws every entity that is not refractive with its own material,
        into whatever is bound; collects the refractive ones in order. */
    method GeometryPass(ghost ss: seq<Surface>) returns (refractive: seq<int>)
      requires ss == Surfaces(entities.items)
      modifies context`trace
      ensures refractive == Select(RefractiveFlags(ss), |ss|)
      ensures context.trace == old(context.trace)
        + GeometryDraws(ss, |ss|, context.boundTargets, context.boundDepth, context.viewport)
    {
      ghost var t0 := context.trace;
      ghost var bound, depth, vp := context.boundTargets, context.boundDepth, context.viewport;
      refractive := [];
      for i := 0 to |entities.items|
        invariant refractive == Select(RefractiveFlags(ss), i)
        invariant context.trace == t0 + GeometryDraws(ss, i, bound, depth, vp)
      {
        var material := entities.items[i];
        if material.refractive {
          refractive := refractive + [i];
        } else {
          context.Draw(EntityMesh(i, material.pixelShader));
        }
      }
    }

    /** One light mesh per point light among the first lightCount lights,
        scaled by its range and tinted by its colour and intensity. */
    method DrawPointLights()
      requires lightCount <= |lights.items|
      modifies context`trace
      ensures context.trace == old(context.trace) + PointLightDraws(lights.items, Max(lightCount, 0),
        context.boundTargets, context.boundDepth, context.viewport)
    {
      ghost var t0, ls := context.trace, lights.items;
      ghost var bound, depth, vp := context.boundTargets, context.boundDepth, context.viewport;
      var i := 0;
      while i < lightCount
        invariant 0 <= i <= Max(lightCount, 0)
        invariant context.trace == t0 + PointLightDraws(ls, i, bound, depth, vp)
      {
        var light := lights.items[i];
        if light.kind == Point {
          var scale := light.range / 20.0;
          var finalColor := Tint(light);
          context.Draw(LightMesh(i, scale, finalColor));
        }
        i := i + 1;
      }
    }

    /** Everything after the scene: the SSAO passes, the copy to the back
        buffer, light rays and refraction when enabled, the particles, and
        presenting. */
    method PostProcess(s: Setup, targets: seq<Option<Id>>) returns (targets': seq<Option<Id>>)
      requires |s.rtvs| == RenderTargetTypeCount && |s.srvs| == RenderTargetTypeCount && |targets| == 5 && s.viewport == context.viewport
      requires targets[4] == s.rtvs[Index(SceneSkyAndOccluders)]
      modifies context`trace, context`boundTargets, context`boundDepth
      ensures |targets'| == 5
      ensures context.trace == old(context.trace) + PostTrace(s)
    {
      ghost var t0 := context.trace;
      targets' := SsaoPasses(s, targets);
      targets' := FinalPass(s, targets');
      AppendAssoc(t0, SsaoSegment(s), FinalSegment(s));
      ghost var a := SsaoSegment(s) + FinalSegment(s);
      ghost var rays := if s.useLightRays then LightRaySegment(s) else [];
      if s.useLightRays {
        targets' := LightRayPass(s, targets');
      }
      AppendAssoc(t0, a, rays);
    }

    method Overlay(s: Setup, ghost ss: seq<Surface>, targets: seq<Option<Id>>, refractive: seq<int>)
      requires |targets| == 5 && s.viewport == context.viewport
      requires |ss| == |entities.items| && refractive == Select(RefractiveFlags(ss), |ss|)
      requires forall i :: 0 <= i < |emitters| ==> emitters[i].Valid()
      modifies context`trace, context`boundTargets, context`boundDepth, entities.items`pixelShader
      ensures context.trace == old(context.trace) + OverlayTrace(s, ss, old(ParticleCounts(emitters)))
      ensures forall m :: m in entities.items ==> m.pixelShader == old(m.pixelShader)
      ensures context.boundTargets == [s.backBuffer] && context.boundDepth == s.depth
    {
      ghost var t0, counts := context.trace, ParticleCounts(emitters);
      var targets' := targets;
      targets' := Refraction(s, ss, targets', refractive);
      targets' := ParticlePass(s, targets');
      ghost var refr := if s.useRefraction then RefractionSegment(s, ss) else [];
      AppendAssoc(t0, refr, ParticleSegment(s, counts));
      Finish(s);
      AppendAssoc(t0, refr + ParticleSegment(s, counts), EndSegment(s));
    }

    method Refraction(s: Setup, ghost ss: seq<Surface>, targets: seq<Option<Id>>, refractive: seq<int>) returns (targets': seq<Option<Id>>)
      requires |targets| == 5 && s.viewport == context.viewport
      requires |ss| == |entities.items| && refractive == Select(RefractiveFlags(ss), |ss|)
      modifies context`trace, context`boundTargets, context`boundDepth, entities.items`pixelShader
      ensures |targets'| == 5
      ensures context.trace == old(context.trace) + (if s.useRefraction then RefractionSegment(s, ss) else [])
      ensures forall m :: m in entities.items ==> m.pixelShader == old(m.pixelShader)
    {
      targets' := targets;
      if s.useRefraction {
        SelectSorted(RefractiveFlags(ss), |ss|);
        targets' := RefractionPass(s, targets', refractive);
      }
    }

    /** The SSAO pass into the results target, with the sky-and-occluders
        target still in slot 4 from the scene binding, then the blur and the
        combine, each into one target and without depth. */
    method SsaoPasses(s: Setup, targets: seq<Option<Id>>) returns (targets': seq<Option<Id>>)
      requires |s.rtvs| == RenderTargetTypeCount && |targets| == 5 && s.viewport == context.viewport
      requires targets[4] == s.rtvs[Index(SceneSkyAndOccluders)]
      modifies context`trace, context`boundTargets, context`boundDepth
      ensures |targets'| == 5
      ensures context.trace == old(context.trace) + SsaoSegment(s)
    {
      targets' := targets[0 := s.rtvs[Index(SsaoResults)]][1 := None][2 := None][3 := None];
      assert targets' == [s.rtvs[Index(SsaoResults)], None, None, None, s.rtvs[Index(SceneSkyAndOccluders)]];
      context.OMSetRenderTargets(targets', None);
      context.Draw(SsaoPass);
      targets' := targets'[0 := s.rtvs[Index(SsaoBlur)]];
      assert targets'[..1] == [s.rtvs[Index(SsaoBlur)]];
      context.OMSetRenderTargets(targets'[..1], None);
      context.Draw(SsaoBlurPass);
      targets' := targets'[0 := s.rtvs[Index(FinalComposite)]];
      assert targets'[..1] == [s.rtvs[Index(FinalComposite)]];
      context.OMSetRenderTargets(targets'[..1], None);
      context.Draw(SsaoCombinePass);
    }

    /** Copies the shader view of the scene colours without ambient (not the
        SSAO composite) onto the back buffer, then binds it with depth. */
    method FinalPass(s: Setup, targets: seq<Option<Id>>) returns (targets': seq<Option<Id>>)
      requires |s.srvs| == RenderTargetTypeCount && |targets| == 5 && s.viewport == context.viewport
      modifies context`trace, context`boundTargets, context`boundDepth
      ensures |targets'| == 5
      ensures context.trace == old(context.trace) + FinalSegment(s)
    {
      targets' := targets[0 := s.backBuffer];
      assert targets'[..1] == [s.backBuffer];
      context.OMSetRenderTargets(targets'[..1], None);
      context.Draw(FinalCopy(s.srvs[Index(SceneColorsNoAmbient)]));
      context.OMSetRenderTargets(targets'[..1], s.depth);
    }

    method LightRayPass(s: Setup, targets: seq<Option<Id>>) returns (targets': seq<Option<Id>>)
      requires |targets| == 5 && s.viewport == context.viewport
      modifies context`trace, context`boundTargets, context`boundDepth
      ensures |targets'| == 5
      ensures context.trace == old(context.trace) + LightRaySegment(s)
    {
      targets' := targets[0 := s.backBuffer];
      assert targets'[..1] == [s.backBuffer];
      context.OMSetRenderTargets(targets'[..1], None);
      context.Draw(LightRays);
    }

    /** Draws each refractive entity onto the back buffer with its
        material's shader swapped for the refraction shader, and swaps the
        material's own shader back afterwards. */
    method RefractionPass(s: Setup, targets: seq<Option<Id>>, refractive: seq<int>) returns (targets': seq<Option<Id>>)
      requires |targets| == 5 && s.viewport == context.viewport
      requires forall k :: 0 <= k < |refractive| ==> 0 <= refractive[k] < |entities.items|
      modifies context`trace, context`boundTargets, context`boundDepth, entities.items`pixelShader
      ensures |targets'| == 5
      ensures context.trace == old(context.trace) + [BindTargets([s.backBuffer], None)]
        + RefractionDraws(refractive, |refractive|, s.refractionPS, [s.backBuffer], s.viewport)
      ensures forall m :: m in entities.items ==> m.pixelShader == old(m.pixelShader)
    {
      targets' := targets[0 := s.backBuffer];
      assert targets'[..1] == [s.backBuffer];
      context.OMSetRenderTargets(targets'[..1], None);
      ghost var t0 := context.trace;
      for k := 0 to |refractive|
        invariant forall m :: m in entities.items ==> m.pixelShader == old(m.pixelShader)
        invariant context.trace == t0 + RefractionDraws(refractive, k, s.refractionPS, [s.backBuffer], s.viewport)
        modifies context`trace, entities.items`pixelShader
      {
        DrawRefracted(refractive[k], entities.items[refractive[k]], s.refractionPS);
      }
    }

    /** One refractive entity: its material's shader saved, replaced by the
        refraction shader for the draw, and put back. */
    method DrawRefracted(entity: int, material: Material, refractionPS: Id)
      modifies context`trace, material`pixelShader
      ensures material.pixelShader == old(material.pixelShader)
      ensures context.trace == old(context.trace)
        + [Event.Draw(EntityMesh(entity, refractionPS), context.boundTargets, context.boundDepth, context.viewport)]
    {
      var prevPS := material.pixelShader;
      material.SetPixelShader(refractionPS);
      context.Draw(EntityMesh(entity, material.pixelShader));
      material.SetPixelShader(prevPS);
    }

    /** The particle states on, every emitter drawn in list order over the
        back buffer and depth buffer, the states off again. */
    method ParticlePass(s: Setup, targets: seq<Option<Id>>) returns (targets': seq<Option<Id>>)
      requires |targets| == 5 && s.viewport == context.viewport
      requires forall i :: 0 <= i < |emitters| ==> emitters[i].Valid()
      modifies context`trace, context`boundTargets, context`boundDepth
      ensures |targets'| == 5
      ensures context.trace == old(context.trace) + ParticleSegment(s, old(ParticleCounts(emitters)))
    {
      targets' := targets[0 := s.backBuffer];
      assert targets'[..1] == [s.backBuffer];
      context.OMSetRenderTargets(targets'[..1], s.depth);
      context.SetParticleStates(true);
      DrawEmitters(s);
      context.SetParticleStates(false);
    }

    /** Every emitter drawn in list order into what is bound. */
    method DrawEmitters(s: Setup)
      requires s.viewport == context.viewport
      requires context.boundTargets == [s.backBuffer] && context.boundDepth == s.depth
      requires forall i :: 0 <= i < |emitters| ==> emitters[i].Valid()
      modifies context`trace
      ensures context.trace == old(context.trace)
        + ParticleDraws(ParticleCounts(emitters), |emitters|, [s.backBuffer], s.depth, s.viewport)
    {
      ghost var t0, counts := context.trace, ParticleCounts(emitters);
      for i := 0 to |emitters|
        invariant forall k :: 0 <= k < |emitters| ==> emitters[k].Valid()
        invariant context.trace == t0 + ParticleDraws(counts, i, [s.backBuffer], s.depth, s.viewport)
      {
        var indexCount := emitters[i].Draw();
        context.Draw(ParticleQuads(i, indexCount));
      }
    }

    /** Presents, rebinds the back buffer and depth buffer, and unbinds the
        sixteen pixel-shader resources. */
    method Finish(s: Setup)
      modifies context`trace, context`boundTargets, context`boundDepth
      ensures context.trace == old(context.trace) + EndSegment(s)
      ensures context.boundTargets == [s.backBuffer] && context.boundDepth == s.depth
    {
      context.Present();
      context.OMSetRenderTargets([s.backBuffer], s.depth);
      context.PSSetShaderResourcesNull(16);
    }
  }
}
