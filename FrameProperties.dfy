/** What one frame of the deferred renderer does, read off the trace that
    Renderer.Render appends (Rendering.FrameTrace): which colour every
    target is cleared to, how often each kind of draw happens, and the
    order the passes draw in. */
module FrameProperties {
  import opened Common
  import opened Gpu
  import opened Lights
  import opened Rendering

  // ------------------------------------------------------------------ clears

  /** ClearEach clears exactly the views it is given, each to black. */
  lemma {:induction false} ClearEachLast(rtvs: seq<Option<Id>>, r: Option<Id>)
    ensures LastClear(ClearEach(rtvs), r) == if r in rtvs then Some(Black) else None
  {
    if rtvs != [] {
      var init, last := rtvs[..|rtvs| - 1], rtvs[|rtvs| - 1];
      assert rtvs == init + [last];
      ClearEachLast(init, r);
      LastClearAppend(ClearEach(init), [ClearTarget(last, Black)], r);
      assert [ClearTarget(last, Black)][..0] == [];
    }
  }

  /** The target in slot `i` after the clears that open a frame. */
  lemma ClearedTarget(s: Setup, i: int)
    requires |s.rtvs| == RenderTargetTypeCount && 0 <= i < RenderTargetTypeCount
    requires s.backBuffer !in s.rtvs
    requires i != Index(SceneDepths) ==> s.rtvs[i] != s.rtvs[Index(SceneDepths)]
    ensures LastClear(ClearSegment(s) + BindSegment(s), s.rtvs[i])
      == Some(if i == Index(SceneDepths) then FarDepth else Black)
  {
    var r := s.rtvs[i];
    var head := [ClearTarget(s.backBuffer, Black), ClearDepth(s.depth)];
    var redo := [ClearTarget(s.rtvs[Index(SceneDepths)], FarDepth)];
    assert ClearSegment(s) == head + ClearEach(s.rtvs) + redo;
    LastClearAppend(ClearSegment(s), BindSegment(s), r);
    assert LastClear(BindSegment(s), r) == None by {
      var b := BindSegment(s);
      assert r != s.backBuffer;
      assert b[..|b| - 1] == [b[0], b[1]] && [b[0], b[1]][..1] == [b[0]] && [b[0]][..0] == [];
      assert LastClear(b, r) == LastClear([b[0], b[1]], r);
      assert LastClear([b[0], b[1]], r) == LastClear([b[0]], r);
      assert LastClear([b[0]], r) == None;
      assert LastClear(b, r) == None;
    }
    LastClearAppend(head + ClearEach(s.rtvs), redo, r);
    assert redo[..0] == [];
    if i != Index(SceneDepths) {
      LastClearAppend(head, ClearEach(s.rtvs), r);
      ClearEachLast(s.rtvs, r);
    }
  }

  /** Every frame starts by clearing every scene target to opaque black,
      except the scene depths, which end cleared to depth 1 (the far
      plane), and by clearing the back buffer to black. The targets must
      be distinct views other than the back buffer, as a resize makes them. */
  lemma FrameClears(s: Setup)
    requires |s.rtvs| == RenderTargetTypeCount
    requires s.backBuffer !in s.rtvs
    requires forall i :: 0 <= i < RenderTargetTypeCount && i != Index(SceneDepths) ==>
      s.rtvs[i] != s.rtvs[Index(SceneDepths)]
    ensures forall i :: 0 <= i < RenderTargetTypeCount ==>
      LastClear(ClearSegment(s) + BindSegment(s), s.rtvs[i]) == Some(if i == Index(SceneDepths) then FarDepth else Black)
    ensures LastClear(ClearSegment(s) + BindSegment(s), s.backBuffer) == Some(Black)
  {
    forall i | 0 <= i < RenderTargetTypeCount
      ensures LastClear(ClearSegment(s) + BindSegment(s), s.rtvs[i]) == Some(if i == Index(SceneDepths) then FarDepth else Black)
    {
      ClearedTarget(s, i);
    }
    var b := BindSegment(s);
    LastClearAppend(ClearSegment(s), b, s.backBuffer);
    assert b == b[..2] + [b[2]] && b[..2] == [b[0]] + [b[1]];
    LastClearAppend(b[..2], [b[2]], s.backBuffer);
    assert [b[2]][..0] == [];
    LastClearAppend([b[0]], [b[1]], s.backBuffer);
    assert [b[1]][..0] == [];
  }

  // ------------------------------------------------------------------ counts

  /** A single event counts once when it is a draw of kind `k`. */
  lemma CountSingle(e: Event, k: DrawKind)
    ensures DrawCount([e], k) == if e.Draw? && e.kind == k then 1 else 0
  {
    assert [e][..0] == [];
  }

  /** Whether entity `i` is opaque and `k` is its geometry draw. */
  function OpaqueHit(ss: seq<Surface>, i: nat, k: DrawKind): nat
    requires i < |ss|
  {
    if k.EntityMesh? && k.entity == i && !ss[i].refractive && k.pixelShader == ss[i].pixelShader then 1 else 0
  }

  /** How many of the first `n` entities are opaque entities drawn as `k`,
      counted one entity at a time. */
  function OpaqueTally(ss: seq<Surface>, n: nat, k: DrawKind): nat
    requires n <= |ss|
  {
    if n == 0 then 0 else OpaqueTally(ss, n - 1, k) + OpaqueHit(ss, n - 1, k)
  }

  /** One more entity adds one geometry draw of kind `k` exactly when the
      entity is opaque and `k` is its draw. */
  lemma GeometryCountStep(ss: seq<Surface>, n: nat, targets: seq<Option<Id>>, depth: Option<Id>,
                          vp: Viewport, k: DrawKind)
    requires 0 < n <= |ss|
    ensures DrawCount(GeometryDraws(ss, n, targets, depth, vp), k)
      == DrawCount(GeometryDraws(ss, n - 1, targets, depth, vp), k) + OpaqueHit(ss, n - 1, k)
  {
    var prev := GeometryDraws(ss, n - 1, targets, depth, vp);
    if ss[n - 1].refractive {
      assert GeometryDraws(ss, n, targets, depth, vp) == prev;
    } else {
      var e := Event.Draw(EntityMesh(n - 1, ss[n - 1].pixelShader), targets, depth, vp);
      DrawCountAppend(prev, [e], k);
      CountSingle(e, k);
    }
  }

  /** The geometry pass draws `k` as often as the tally counts it. */
  lemma {:induction false} GeometryCountTally(ss: seq<Surface>, n: nat, targets: seq<Option<Id>>, depth: Option<Id>,
                                              vp: Viewport, k: DrawKind)
    requires n <= |ss|
    ensures DrawCount(GeometryDraws(ss, n, targets, depth, vp), k) == OpaqueTally(ss, n, k)
  {
    if n > 0 {
      calc {
        DrawCount(GeometryDraws(ss, n, targets, depth, vp), k);
      ==  { GeometryCountStep(ss, n, targets, depth, vp, k); }
        DrawCount(GeometryDraws(ss, n - 1, targets, depth, vp), k) + OpaqueHit(ss, n - 1, k);
      ==  { GeometryCountTally(ss, n - 1, targets, depth, vp, k); }
        OpaqueTally(ss, n, k);
      }
    }
  }

  /** The tally is one exactly for the draw of an opaque entity below `n`
      with its own shader. */
  lemma {:induction false} OpaqueTallyValue(ss: seq<Surface>, n: nat, k: DrawKind)
    requires n <= |ss|
    ensures OpaqueTally(ss, n, k)
      == if k.EntityMesh? && 0 <= k.entity < n && !ss[k.entity].refractive && k.pixelShader == ss[k.entity].pixelShader
         then 1 else 0
  {
    if n > 0 {
      OpaqueTallyValue(ss, n - 1, k);
    }
  }

  /** The geometry pass draws each opaque entity below `n` once, with its
      own shader, and nothing else. */
  lemma GeometryDrawCount(ss: seq<Surface>, n: nat, targets: seq<Option<Id>>, depth: Option<Id>,
                          vp: Viewport, k: DrawKind)
    requires n <= |ss|
    ensures DrawCount(GeometryDraws(ss, n, targets, depth, vp), k)
      == if k.EntityMesh? && 0 <= k.entity < n && !ss[k.entity].refractive && k.pixelShader == ss[k.entity].pixelShader
         then 1 else 0
  {
    GeometryCountTally(ss, n, targets, depth, vp, k);
    OpaqueTallyValue(ss, n, k);
  }

  /** One more light adds one light-mesh draw of kind `k` exactly when the
      light is a point light and `k` is its draw. */
  lemma PointLightCountStep(ls: seq<Light>, n: nat, targets: seq<Option<Id>>, depth: Option<Id>,
                            vp: Viewport, k: DrawKind)
    requires 0 < n <= |ls|
    ensures DrawCount(PointLightDraws(ls, n, targets, depth, vp), k)
      == DrawCount(PointLightDraws(ls, n - 1, targets, depth, vp), k)
         + (if ls[n - 1].kind == Point && k == LightMesh(n - 1, LightScale(ls[n - 1]), Tint(ls[n - 1])) then 1 else 0)
  {
    var l, prev := ls[n - 1], PointLightDraws(ls, n - 1, targets, depth, vp);
    if l.kind == Point {
      var e := Event.Draw(LightMesh(n - 1, LightScale(l), Tint(l)), targets, depth, vp);
      DrawCountAppend(prev, [e], k);
      CountSingle(e, k);
    } else {
      assert PointLightDraws(ls, n, targets, depth, vp) == prev;
    }
  }

  /** The light meshes: each point light below `n` once, at its own scale
      and tint, and nothing else. */
  lemma {:induction false} PointLightDrawCount(ls: seq<Light>, n: nat, targets: seq<Option<Id>>, depth: Option<Id>,
                                               vp: Viewport, k: DrawKind)
    requires n <= |ls|
    ensures DrawCount(PointLightDraws(ls, n, targets, depth, vp), k)
      == if k.LightMesh? && 0 <= k.light < n && ls[k.light].kind == Point
            && k.scale == LightScale(ls[k.light]) && k.tint == Tint(ls[k.light])
         then 1 else 0
  {
    if n > 0 {
      PointLightDrawCount(ls, n - 1, targets, depth, vp, k);
      PointLightCountStep(ls, n, targets, depth, vp, k);
    }
  }

  /** The refraction pass draws each collected entity as often as it was
      collected, always with the refraction shader. */
  lemma {:induction false} RefractionDrawCount(entities: seq<int>, n: nat, ps: Id, targets: seq<Option<Id>>,
                                               vp: Viewport, k: DrawKind)
    requires n <= |entities|
    ensures DrawCount(RefractionDraws(entities, n, ps, targets, vp), k)
      == if k.EntityMesh? && k.pixelShader == ps then Occurrences(entities[..n], k.entity) else 0
  {
    if n > 0 {
      var e := Event.Draw(EntityMesh(entities[n - 1], ps), targets, None, vp);
      RefractionDrawCount(entities, n - 1, ps, targets, vp, k);
      DrawCountAppend(RefractionDraws(entities, n - 1, ps, targets, vp), [e], k);
      CountSingle(e, k);
      assert entities[..n][..n - 1] == entities[..n - 1];
    }
  }

  /** One more emitter adds one particle draw of kind `k` exactly when `k`
      is that emitter's draw. */
  lemma ParticleCountStep(counts: seq<int>, n: nat, targets: seq<Option<Id>>, depth: Option<Id>,
                          vp: Viewport, k: DrawKind)
    requires 0 < n <= |counts|
    ensures DrawCount(ParticleDraws(counts, n, targets, depth, vp), k)
      == DrawCount(ParticleDraws(counts, n - 1, targets, depth, vp), k)
         + (if k == ParticleQuads(n - 1, counts[n - 1]) then 1 else 0)
  {
    var e := Event.Draw(ParticleQuads(n - 1, counts[n - 1]), targets, depth, vp);
    DrawCountAppend(ParticleDraws(counts, n - 1, targets, depth, vp), [e], k);
    CountSingle(e, k);
  }

  /** The particle pass draws each emitter once, with its own index count. */
  lemma {:induction false} ParticleDrawCount(counts: seq<int>, n: nat, targets: seq<Option<Id>>, depth: Option<Id>,
                                             vp: Viewport, k: DrawKind)
    requires n <= |counts|
    ensures DrawCount(ParticleDraws(counts, n, targets, depth, vp), k)
      == if k.ParticleQuads? && 0 <= k.emitter < n && k.indexCount == counts[k.emitter] then 1 else 0
  {
    if n > 0 {
      ParticleDrawCount(counts, n - 1, targets, depth, vp, k);
      ParticleCountStep(counts, n, targets, depth, vp, k);
    }
  }

  /** ClearEach holds one clear per view, in order, and no draw. */
  lemma {:induction false} ClearEachShape(rtvs: seq<Option<Id>>)
    ensures |ClearEach(rtvs)| == |rtvs|
    ensures forall i :: 0 <= i < |rtvs| ==> ClearEach(rtvs)[i] == ClearTarget(rtvs[i], Black)
  {
    if rtvs != [] {
      ClearEachShape(rtvs[..|rtvs| - 1]);
    }
  }

  /** The opening clears and binding draw nothing. */
  lemma ClearsDrawNothing(s: Setup, k: DrawKind)
    requires |s.rtvs| == RenderTargetTypeCount
    ensures DrawCount(ClearSegment(s) + BindSegment(s), k) == 0
  {
    ClearEachShape(s.rtvs);
    DrawCountNone(ClearSegment(s) + BindSegment(s), k);
  }

  /** What the first half of a frame draws: the opaque entities, the point
      light meshes when enabled, and the sky once. */
  ghost function SceneCount(s: Setup, ss: seq<Surface>, ls: seq<Light>, lightCount: int, k: DrawKind): nat
    requires lightCount <= |ls|
  {
    if k.EntityMesh? then
      (if 0 <= k.entity < |ss| && !ss[k.entity].refractive && k.pixelShader == ss[k.entity].pixelShader then 1 else 0)
    else if k.LightMesh? then
      (if s.drawPointMeshes && 0 <= k.light < lightCount && ls[k.light].kind == Point
          && k.scale == LightScale(ls[k.light]) && k.tint == Tint(ls[k.light]) then 1 else 0)
    else if k.SkyBox? then 1
    else 0
  }

  lemma SceneDrawCount(s: Setup, ss: seq<Surface>, ls: seq<Light>, lightCount: int, k: DrawKind)
    requires |s.rtvs| == RenderTargetTypeCount && lightCount <= |ls|
    ensures DrawCount(SceneTrace(s, ss, ls, lightCount), k) == SceneCount(s, ss, ls, lightCount, k)
  {
    var scene := SceneTargets(s);
    var a := ClearSegment(s) + BindSegment(s);
    var g := GeometryDraws(ss, |ss|, scene, s.depth, s.viewport);
    var p := if s.drawPointMeshes then PointLightDraws(ls, Max(lightCount, 0), scene, s.depth, s.viewport) else [];
    var sky := Event.Draw(SkyBox, scene, s.depth, s.viewport);
    assert SceneTrace(s, ss, ls, lightCount) == a + g + p + [sky];
    DrawCountAppend(a + g + p, [sky], k);
    DrawCountAppend(a + g, p, k);
    DrawCountAppend(a, g, k);
    ClearsDrawNothing(s, k);
    GeometryDrawCount(ss, |ss|, scene, s.depth, s.viewport, k);
    if s.drawPointMeshes {
      PointLightDrawCount(ls, Max(lightCount, 0), scene, s.depth, s.viewport, k);
    }
    CountSingle(sky, k);
  }

  /** What the screen-space passes draw: SSAO, its blur and the combine
      once each, the copy to the back buffer once, and the light rays once
      when enabled. */
  ghost function PostCount(s: Setup, k: DrawKind): nat
    requires |s.srvs| == RenderTargetTypeCount
  {
    if k == SsaoPass || k == SsaoBlurPass || k == SsaoCombinePass || k == FinalCopy(s.srvs[Index(SceneColorsNoAmbient)]) then 1
    else if k == LightRays && s.useLightRays then 1
    else 0
  }

  lemma SsaoDrawCount(s: Setup, k: DrawKind)
    requires |s.rtvs| == RenderTargetTypeCount
    ensures DrawCount(SsaoSegment(s), k) == if k == SsaoPass || k == SsaoBlurPass || k == SsaoCombinePass then 1 else 0
  {
    var a := SsaoSegment(s);
    if k == SsaoPass {
      DrawCountOne(a, 1, k);
    } else if k == SsaoBlurPass {
      DrawCountOne(a, 3, k);
    } else if k == SsaoCombinePass {
      DrawCountOne(a, 5, k);
    } else {
      DrawCountNone(a, k);
    }
  }

  lemma PostDrawCount(s: Setup, k: DrawKind)
    requires |s.rtvs| == RenderTargetTypeCount && |s.srvs| == RenderTargetTypeCount
    ensures DrawCount(PostTrace(s), k) == PostCount(s, k)
  {
    var a, f := SsaoSegment(s), FinalSegment(s);
    var r := if s.useLightRays then LightRaySegment(s) else [];
    DrawCountAppend(a + f, r, k);
    DrawCountAppend(a, f, k);
    SsaoDrawCount(s, k);
    CopyDrawCount(s, k);
    if s.useLightRays {
      RaysDrawCount(s, k);
    } else {
      assert r == [];
    }
  }

  lemma CopyDrawCount(s: Setup, k: DrawKind)
    requires |s.srvs| == RenderTargetTypeCount
    ensures DrawCount(FinalSegment(s), k) == if k == FinalCopy(s.srvs[Index(SceneColorsNoAmbient)]) then 1 else 0
  {
    if k == FinalCopy(s.srvs[Index(SceneColorsNoAmbient)]) {
      DrawCountOne(FinalSegment(s), 1, k);
    } else {
      DrawCountNone(FinalSegment(s), k);
    }
  }

  lemma RaysDrawCount(s: Setup, k: DrawKind)
    ensures DrawCount(LightRaySegment(s), k) == if k == LightRays then 1 else 0
  {
    if k == LightRays {
      DrawCountOne(LightRaySegment(s), 1, k);
    } else {
      DrawCountNone(LightRaySegment(s), k);
    }
  }

  /** What is drawn over the composited image: each refractive entity
      once with the refraction shader when refraction is on, and each
      emitter once with its index count. */
  ghost function OverlayCount(s: Setup, ss: seq<Surface>, counts: seq<int>, k: DrawKind): nat {
    if k.EntityMesh? then
      (if s.useRefraction && 0 <= k.entity < |ss| && ss[k.entity].refractive && k.pixelShader == s.refractionPS
       then 1 else 0)
    else if k.ParticleQuads? then
      (if 0 <= k.emitter < |counts| && k.indexCount == counts[k.emitter] then 1 else 0)
    else 0
  }

  lemma OverlayDrawCount(s: Setup, ss: seq<Surface>, counts: seq<int>, k: DrawKind)
    ensures DrawCount(OverlayTrace(s, ss, counts), k) == OverlayCount(s, ss, counts, k)
  {
    var r := if s.useRefraction then RefractionSegment(s, ss) else [];
    var bind := [BindTargets([s.backBuffer], s.depth), ParticleStates(true)];
    var d := ParticleDraws(counts, |counts|, [s.backBuffer], s.depth, s.viewport);
    var off := [ParticleStates(false)];
    var e := EndSegment(s);
    assert OverlayTrace(s, ss, counts) == r + (bind + d + off) + e;
    DrawCountAppend(r + (bind + d + off), e, k);
    DrawCountAppend(r, bind + d + off, k);
    DrawCountAppend(bind + d, off, k);
    DrawCountAppend(bind, d, k);
    DrawCountNone(bind, k);
    DrawCountNone(off, k);
    DrawCountNone(e, k);
    ParticleDrawCount(counts, |counts|, [s.backBuffer], s.depth, s.viewport, k);
    if s.useRefraction {
      var flags := RefractiveFlags(ss);
      var sel := Select(flags, |ss|);
      var bindRefr := [BindTargets([s.backBuffer], None)];
      var rd := RefractionDraws(sel, |sel|, s.refractionPS, [s.backBuffer], s.viewport);
      assert r == bindRefr + rd;
      DrawCountAppend(bindRefr, rd, k);
      DrawCountNone(bindRefr, k);
      RefractionDrawCount(sel, |sel|, s.refractionPS, [s.backBuffer], s.viewport, k);
      if k.EntityMesh? {
        assert sel[..|sel|] == sel;
        SelectOnce(flags, |ss|, k.entity);
      }
    } else {
      DrawCountNone(r, k);
    }
  }

  /** How often one frame draws each kind: an opaque entity once with its
      own shader; a refractive entity once with the refraction shader when
      refraction is on and never otherwise; each point light among the
      first `lightCount` once, at its scale and tint, when light meshes
      are on; the sky, the three SSAO passes and the copy once; the light
      rays once when enabled; each emitter once with its own index count;
      and nothing else. */
  ghost function ExpectedCount(s: Setup, ss: seq<Surface>, ls: seq<Light>, lightCount: int, counts: seq<int>,
                               k: DrawKind): nat
    requires |s.srvs| == RenderTargetTypeCount && lightCount <= |ls|
  {
    match k
    case EntityMesh(i, ps) =>
      if 0 <= i < |ss| && (if ss[i].refractive then s.useRefraction && ps == s.refractionPS else ps == ss[i].pixelShader)
      then 1 else 0
    case LightMesh(j, scale, tint) =>
      if s.drawPointMeshes && 0 <= j < lightCount && ls[j].kind == Point && scale == LightScale(ls[j]) && tint == Tint(ls[j])
      then 1 else 0
    case SkyBox => 1
    case SsaoPass => 1
    case SsaoBlurPass => 1
    case SsaoCombinePass => 1
    case FinalCopy(source) => if source == s.srvs[Index(SceneColorsNoAmbient)] then 1 else 0
    case LightRays => if s.useLightRays then 1 else 0
    case ParticleQuads(e, c) => if 0 <= e < |counts| && c == counts[e] then 1 else 0
    case IrradianceFace(_) => 0
    case SpecularFace(_, _, _) => 0
    case BrdfLookUp => 0
  }

  /** Every kind of draw appears in a frame exactly as often as
      ExpectedCount says. */
  lemma FrameDrawCounts(s: Setup, ss: seq<Surface>, ls: seq<Light>, lightCount: int, counts: seq<int>, k: DrawKind)
    requires |s.rtvs| == RenderTargetTypeCount && |s.srvs| == RenderTargetTypeCount && lightCount <= |ls|
    ensures DrawCount(FrameTrace(s, ss, ls, lightCount, counts), k) == ExpectedCount(s, ss, ls, lightCount, counts, k)
  {
    var a, b, c := SceneTrace(s, ss, ls, lightCount), PostTrace(s), OverlayTrace(s, ss, counts);
    DrawCountAppend(a + b, c, k);
    DrawCountAppend(a, b, k);
    SceneDrawCount(s, ss, ls, lightCount, k);
    PostDrawCount(s, k);
    OverlayDrawCount(s, ss, counts, k);
  }

  // ------------------------------------------------------------------- order

  /** The draws of one frame in the order they are issued: the scene
      passes, the screen-space passes, and what is drawn over them. */
  function FrameDraws(s: Setup, ss: seq<Surface>, ls: seq<Light>, lightCount: int, counts: seq<int>): seq<Event>
    requires |s.rtvs| == RenderTargetTypeCount && |s.srvs| == RenderTargetTypeCount && lightCount <= |ls|
  {
    SceneDrawList(s, ss, ls, lightCount) + PostDrawList(s) + OverlayDrawList(s, ss, counts)
  }

  /** The opaque entities into the five scene targets with the depth
      buffer, the point light meshes when enabled, then the sky. */
  function SceneDrawList(s: Setup, ss: seq<Surface>, ls: seq<Light>, lightCount: int): seq<Event>
    requires |s.rtvs| == RenderTargetTypeCount && lightCount <= |ls|
  {
    var scene := SceneTargets(s);
    GeometryDraws(ss, |ss|, scene, s.depth, s.viewport)
    + (if s.drawPointMeshes then PointLightDraws(ls, Max(lightCount, 0), scene, s.depth, s.viewport) else [])
    + [Event.Draw(SkyBox, scene, s.depth, s.viewport)]
  }

  /** SSAO into the SSAO target with the sky-and-occluders target still
      bound in slot 4, its blur, the combine and the copy onto the back
      buffer, all without depth; then the light rays when enabled. */
  function PostDrawList(s: Setup): seq<Event>
    requires |s.rtvs| == RenderTargetTypeCount && |s.srvs| == RenderTargetTypeCount
  {
    var bb, vp := [s.backBuffer], s.viewport;
    var ssao := [s.rtvs[Index(SsaoResults)], None, None, None, s.rtvs[Index(SceneSkyAndOccluders)]];
    [Event.Draw(SsaoPass, ssao, None, vp),
     Event.Draw(SsaoBlurPass, [s.rtvs[Index(SsaoBlur)]], None, vp),
     Event.Draw(SsaoCombinePass, [s.rtvs[Index(FinalComposite)]], None, vp),
     Event.Draw(FinalCopy(s.srvs[Index(SceneColorsNoAmbient)]), bb, None, vp)]
    + (if s.useLightRays then [Event.Draw(LightRays, bb, None, vp)] else [])
  }

  /** The refractive entities in list order without depth when refraction
      is on, then the emitters in list order with the depth buffer, all
      onto the back buffer. */
  function OverlayDrawList(s: Setup, ss: seq<Surface>, counts: seq<int>): seq<Event> {
    var refractive := Select(RefractiveFlags(ss), |ss|);
    (if s.useRefraction then RefractionDraws(refractive, |refractive|, s.refractionPS, [s.backBuffer], s.viewport) else [])
    + ParticleDraws(counts, |counts|, [s.backBuffer], s.depth, s.viewport)
  }

  /** The pass-level draw lists hold nothing but draws. */
  lemma {:induction false} GeometryOnlyDraws(ss: seq<Surface>, n: nat, targets: seq<Option<Id>>, depth: Option<Id>, vp: Viewport)
    requires n <= |ss|
    ensures Draws(GeometryDraws(ss, n, targets, depth, vp)) == GeometryDraws(ss, n, targets, depth, vp)
  {
    if n > 0 {
      var prev := GeometryDraws(ss, n - 1, targets, depth, vp);
      GeometryOnlyDraws(ss, n - 1, targets, depth, vp);
      if !ss[n - 1].refractive {
        DrawsSnoc(prev, Event.Draw(EntityMesh(n - 1, ss[n - 1].pixelShader), targets, depth, vp));
      } else {
        assert GeometryDraws(ss, n, targets, depth, vp) == prev;
      }
    }
  }

  lemma {:induction false} PointLightOnlyDraws(ls: seq<Light>, n: nat, targets: seq<Option<Id>>, depth: Option<Id>, vp: Viewport)
    requires n <= |ls|
    ensures Draws(PointLightDraws(ls, n, targets, depth, vp)) == PointLightDraws(ls, n, targets, depth, vp)
  {
    if n > 0 {
      var l, prev := ls[n - 1], PointLightDraws(ls, n - 1, targets, depth, vp);
      PointLightOnlyDraws(ls, n - 1, targets, depth, vp);
      if l.kind == Point {
        DrawsSnoc(prev, Event.Draw(LightMesh(n - 1, LightScale(l), Tint(l)), targets, depth, vp));
      } else {
        assert PointLightDraws(ls, n, targets, depth, vp) == prev;
      }
    }
  }

  lemma {:induction false} RefractionOnlyDraws(entities: seq<int>, n: nat, ps: Id, targets: seq<Option<Id>>, vp: Viewport)
    requires n <= |entities|
    ensures Draws(RefractionDraws(entities, n, ps, targets, vp)) == RefractionDraws(entities, n, ps, targets, vp)
  {
    if n > 0 {
      RefractionOnlyDraws(entities, n - 1, ps, targets, vp);
      DrawsSnoc(RefractionDraws(entities, n - 1, ps, targets, vp), Event.Draw(EntityMesh(entities[n - 1], ps), targets, None, vp));
    }
  }

  lemma {:induction false} ParticleOnlyDraws(counts: seq<int>, n: nat, targets: seq<Option<Id>>, depth: Option<Id>, vp: Viewport)
    requires n <= |counts|
    ensures Draws(ParticleDraws(counts, n, targets, depth, vp)) == ParticleDraws(counts, n, targets, depth, vp)
  {
    if n > 0 {
      ParticleOnlyDraws(counts, n - 1, targets, depth, vp);
      DrawsSnoc(ParticleDraws(counts, n - 1, targets, depth, vp), Event.Draw(ParticleQuads(n - 1, counts[n - 1]), targets, depth, vp));
    }
  }

  lemma OpeningDrawsNothing(s: Setup)
    requires |s.rtvs| == RenderTargetTypeCount
    ensures Draws(ClearSegment(s) + BindSegment(s)) == []
  {
    ClearEachShape(s.rtvs);
    NoDraws(ClearSegment(s) + BindSegment(s));
  }

  lemma SceneListOnlyDraws(s: Setup, ss: seq<Surface>, ls: seq<Light>, lightCount: int)
    requires |s.rtvs| == RenderTargetTypeCount && lightCount <= |ls|
    ensures Draws(SceneDrawList(s, ss, ls, lightCount)) == SceneDrawList(s, ss, ls, lightCount)
  {
    var scene := SceneTargets(s);
    var g := GeometryDraws(ss, |ss|, scene, s.depth, s.viewport);
    var p := if s.drawPointMeshes then PointLightDraws(ls, Max(lightCount, 0), scene, s.depth, s.viewport) else [];
    var sky := [Event.Draw(SkyBox, scene, s.depth, s.viewport)];
    DrawsAppend(g + p, sky);
    DrawsAppend(g, p);
    GeometryOnlyDraws(ss, |ss|, scene, s.depth, s.viewport);
    if s.drawPointMeshes {
      PointLightOnlyDraws(ls, Max(lightCount, 0), scene, s.depth, s.viewport);
    }
    OnlyDraws(sky);
  }

  lemma SceneDraws(s: Setup, ss: seq<Surface>, ls: seq<Light>, lightCount: int)
    requires |s.rtvs| == RenderTargetTypeCount && lightCount <= |ls|
    ensures Draws(SceneTrace(s, ss, ls, lightCount)) == SceneDrawList(s, ss, ls, lightCount)
  {
    var a := ClearSegment(s) + BindSegment(s);
    assert SceneTrace(s, ss, ls, lightCount) == a + SceneDrawList(s, ss, ls, lightCount);
    OpeningDrawsNothing(s);
    SceneListOnlyDraws(s, ss, ls, lightCount);
    DrawsAppend(a, SceneDrawList(s, ss, ls, lightCount));
  }

  lemma SsaoDraws(s: Setup)
    requires |s.rtvs| == RenderTargetTypeCount
    ensures Draws(SsaoSegment(s)) == [SsaoSegment(s)[1], SsaoSegment(s)[3], SsaoSegment(s)[5]]
  {
    var a := SsaoSegment(s);
    assert a == [a[0], a[1]] + [a[2], a[3]] + [a[4], a[5]];
    DrawsAppend([a[0], a[1]] + [a[2], a[3]], [a[4], a[5]]);
    DrawsAppend([a[0], a[1]], [a[2], a[3]]);
    DrawsPair(a[0], a[1]);
    DrawsPair(a[2], a[3]);
    DrawsPair(a[4], a[5]);
  }

  lemma CopyDraws(s: Setup)
    requires |s.srvs| == RenderTargetTypeCount
    ensures Draws(FinalSegment(s)) == [FinalSegment(s)[1]]
  {
    var f := FinalSegment(s);
    assert f == [f[0], f[1]] + [f[2]];
    DrawsAppend([f[0], f[1]], [f[2]]);
    DrawsPair(f[0], f[1]);
    NoDraws([f[2]]);
  }

  lemma PostDraws(s: Setup)
    requires |s.rtvs| == RenderTargetTypeCount && |s.srvs| == RenderTargetTypeCount
    ensures Draws(PostTrace(s)) == PostDrawList(s)
    ensures Draws(PostTrace(s))[3].kind == FinalCopy(s.srvs[Index(SceneColorsNoAmbient)])
    ensures s.srvs[Index(SceneColorsNoAmbient)] != s.srvs[Index(FinalComposite)] ==>
      forall i :: 0 <= i < |Draws(PostTrace(s))| ==> Draws(PostTrace(s))[i].kind != FinalCopy(s.srvs[Index(FinalComposite)])
  {
    var a, f := SsaoSegment(s), FinalSegment(s);
    var r := if s.useLightRays then LightRaySegment(s) else [];
    DrawsAppend(a + f, r);
    DrawsAppend(a, f);
    SsaoDraws(s);
    CopyDraws(s);
    if s.useLightRays {
      DrawsPair(r[0], r[1]);
      assert r == [r[0], r[1]];
    }
  }

  lemma RefractionSegmentDraws(s: Setup, ss: seq<Surface>)
    ensures Draws(RefractionSegment(s, ss))
      == RefractionDraws(Select(RefractiveFlags(ss), |ss|), |Select(RefractiveFlags(ss), |ss|)|,
                         s.refractionPS, [s.backBuffer], s.viewport)
  {
    var refractive := Select(RefractiveFlags(ss), |ss|);
    var bind := [BindTargets([s.backBuffer], None)];
    var rd := RefractionDraws(refractive, |refractive|, s.refractionPS, [s.backBuffer], s.viewport);
    DrawsAppend(bind, rd);
    NoDraws(bind);
    RefractionOnlyDraws(refractive, |refractive|, s.refractionPS, [s.backBuffer], s.viewport);
  }

  lemma ParticleSegmentDraws(s: Setup, counts: seq<int>)
    ensures Draws(ParticleSegment(s, counts)) == ParticleDraws(counts, |counts|, [s.backBuffer], s.depth, s.viewport)
  {
    var bind := [BindTargets([s.backBuffer], s.depth), ParticleStates(true)];
    assert Draws(bind) == [] by {
      NoDraws(bind);
    }
    StateChange(ParticleStates(false));
    ParticleOnlyDraws(counts, |counts|, [s.backBuffer], s.depth, s.viewport);
    DrawsBetween(bind, ParticleDraws(counts, |counts|, [s.backBuffer], s.depth, s.viewport), [ParticleStates(false)]);
  }

  lemma OverlayDraws(s: Setup, ss: seq<Surface>, counts: seq<int>)
    ensures Draws(OverlayTrace(s, ss, counts)) == OverlayDrawList(s, ss, counts)
  {
    var r := if s.useRefraction then RefractionSegment(s, ss) else [];
    assert Draws(EndSegment(s)) == [] by {
      NoDraws(EndSegment(s));
    }
    assert Draws(r + ParticleSegment(s, counts)) == OverlayDrawList(s, ss, counts) by {
      DrawsAppend(r, ParticleSegment(s, counts));
      ParticleSegmentDraws(s, counts);
      if s.useRefraction {
        RefractionSegmentDraws(s, ss);
      }
    }
    DrawsAppend(r + ParticleSegment(s, counts), EndSegment(s));
  }

  /** Leaving out the clears, bindings, state changes and the present, a
      frame is exactly the passes' draws in the fixed order of FrameDraws. */
  lemma FramePassOrder(s: Setup, ss: seq<Surface>, ls: seq<Light>, lightCount: int, counts: seq<int>)
    requires |s.rtvs| == RenderTargetTypeCount && |s.srvs| == RenderTargetTypeCount && lightCount <= |ls|
    ensures Draws(FrameTrace(s, ss, ls, lightCount, counts)) == FrameDraws(s, ss, ls, lightCount, counts)
  {
    var a, b, c := SceneTrace(s, ss, ls, lightCount), PostTrace(s), OverlayTrace(s, ss, counts);
    DrawsAppend(a + b, c);
    DrawsAppend(a, b);
    SceneDraws(s, ss, ls, lightCount);
    PostDraws(s);
    OverlayDraws(s, ss, counts);
  }
}
