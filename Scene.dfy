/** The game object around the renderer: the light list it generates and
    re-randomises, the two particle emitters it configures and updates
    once per frame, the GUI toggle key and the resize hand-off to the
    renderer. Asset loading, the camera and the GUI widgets themselves are
    not part of this model. */
module Scene {
  import opened Common
  import opened Gpu
  import opened Lights
  import Particles
  import Rendering
  import Sky

  // ------------------------------------------------------------- lights

  /** The three directional lights, in the order they are pushed: a bright
      key light and two dim fill lights, all at intensity 1. */
  const DirectionalLights: seq<Light> := [
    Light(Directional, Vec3(1.0, -1.0, 1.0), 0.0, Zero3, 1.0, Vec3(0.8, 0.8, 0.8)),
    Light(Directional, Vec3(-1.0, -0.25, 0.0), 0.0, Zero3, 1.0, Vec3(0.2, 0.2, 0.2)),
    Light(Directional, Vec3(0.0, -1.0, 1.0), 0.0, Zero3, 1.0, Vec3(0.2, 0.2, 0.2))
  ]

  /** The `rand() / RAND_MAX` values one point light draws: three for its
      position, three for its colour, one for its range and one for its
      intensity. The order in which C++ evaluates the arguments of one
      vector constructor is unspecified, so the draws are named by field. */
  datatype PointSample = PointSample(position: Vec3, color: Vec3, range: real, intensity: real)

  predicate UnitVec(v: Vec3) {
    UnitInterval(v.x) && UnitInterval(v.y) && UnitInterval(v.z)
  }

  predicate ValidSample(u: PointSample) {
    UnitVec(u.position) && UnitVec(u.color) && UnitInterval(u.range) && UnitInterval(u.intensity)
  }

  /** `RandomRange(lo, hi)` on one draw: `u * (hi - lo) + lo`, the same
      expression as the emitter's rotation sample. */
  function RandomRange(u: real, lo: real, hi: real): real {
    Particles.Between(u, lo, hi)
  }

  /** A position in the box the scene scatters point lights over. */
  function RandomPosition(u: Vec3): Vec3 {
    Vec3(RandomRange(u.x, -10.0, 10.0), RandomRange(u.y, -5.0, 5.0), RandomRange(u.z, -10.0, 10.0))
  }

  /** A zero-initialised light with the point-light fields drawn. */
  function RandomPointLight(u: PointSample): Light {
    Light(Point, Zero3, RandomRange(u.range, 5.0, 10.0), RandomPosition(u.position),
          RandomRange(u.intensity, 0.1, 3.0),
          Vec3(RandomRange(u.color.x, 0.0, 1.0), RandomRange(u.color.y, 0.0, 1.0), RandomRange(u.color.z, 0.0, 1.0)))
  }

  predicate InLightBox(p: Vec3) {
    -10.0 <= p.x <= 10.0 && -5.0 <= p.y <= 5.0 && -10.0 <= p.z <= 10.0
  }

  /** Every scattered position lies in the light box. */
  lemma RandomPositionBounds(u: Vec3)
    requires UnitVec(u)
    ensures InLightBox(RandomPosition(u))
  {
    Particles.BetweenBounds(u.x, -10.0, 10.0);
    Particles.BetweenBounds(u.y, -5.0, 5.0);
    Particles.BetweenBounds(u.z, -10.0, 10.0);
  }

  /** What every generated point light satisfies. */
  predicate PointLightInRange(l: Light) {
    && l.kind == Point
    && InLightBox(l.position)
    && 0.0 <= l.color.x <= 1.0 && 0.0 <= l.color.y <= 1.0 && 0.0 <= l.color.z <= 1.0
    && 5.0 <= l.range <= 10.0
    && 0.1 <= l.intensity <= 3.0
  }

  lemma RandomPointLightBounds(u: PointSample)
    requires ValidSample(u)
    ensures PointLightInRange(RandomPointLight(u))
  {
    RandomPositionBounds(u.position);
    Particles.BetweenBounds(u.color.x, 0.0, 1.0);
    Particles.BetweenBounds(u.color.y, 0.0, 1.0);
    Particles.BetweenBounds(u.color.z, 0.0, 1.0);
    Particles.BetweenBounds(u.range, 5.0, 10.0);
    Particles.BetweenBounds(u.intensity, 0.1, 3.0);
  }

  /** The list GenerateLights leaves: the three directional lights, then
      point lights up to `count` entries, light `i` drawn from `draw(i)`. */
  ghost predicate Generated(items: seq<Light>, count: int, draw: nat -> PointSample) {
    && |items| == Max(3, count)
    && items[..3] == DirectionalLights
    && forall i :: 3 <= i < |items| ==> items[i] == RandomPointLight(draw(i))
  }

  /** A generated list holds exactly three directional lights, at the
      front, and every later entry is a point light inside the ranges the
      scene draws from. */
  lemma GeneratedLightKinds(items: seq<Light>, count: int, draw: nat -> PointSample)
    requires Generated(items, count, draw)
    requires forall i: nat :: ValidSample(draw(i))
    ensures forall i :: 0 <= i < |items| ==> (items[i].kind == Directional <==> i < 3)
    ensures forall i :: 3 <= i < |items| ==> PointLightInRange(items[i])
  {
    forall i | 0 <= i < 3
      ensures items[i].kind == Directional
    {
      assert items[i] == items[..3][i];
    }
    forall i | 3 <= i < |items|
      ensures PointLightInRange(items[i])
    {
      RandomPointLightBounds(draw(i));
    }
  }

  /** The light list after the "Randomize Lights" button: the first
      `count` lights get a new position from `draw(i)`, and nothing else of
      any light changes. */
  ghost predicate Rescattered(after: seq<Light>, before: seq<Light>, count: int, draw: nat -> Vec3) {
    && |after| == |before|
    && (forall i :: 0 <= i < |after| && i < count ==> after[i] == before[i].(position := RandomPosition(draw(i))))
    && (forall i :: 0 <= i < |after| && count <= i ==> after[i] == before[i])
  }

  /** Re-scattering keeps the kind, colour, range, intensity and direction
      of every light, and after re-scattering a generated list every point
      light is still inside the ranges the scene draws from. */
  lemma RescatterKeepsRanges(after: seq<Light>, before: seq<Light>, count: int, draw: nat -> Vec3)
    requires Rescattered(after, before, count, draw)
    requires forall i: nat :: UnitVec(draw(i))
    ensures forall i :: 0 <= i < |after| ==>
      after[i].(position := Zero3) == before[i].(position := Zero3)
    ensures forall i :: 0 <= i < |after| && PointLightInRange(before[i]) ==> PointLightInRange(after[i])
  {
    forall i | 0 <= i < |after| && PointLightInRange(before[i])
      ensures PointLightInRange(after[i])
    {
      if i < count {
        RandomPositionBounds(draw(i));
      }
    }
  }

  // ----------------------------------------------------------- emitters

  const Pi: real := 3.141592654

  /** Snow: falls from a wide, flat slab with no start velocity and any
      rotation. */
  const SnowPosition := Vec3(0.0, 5.0, 0.0)
  const SnowShape := Particles.SpawnShape(Zero3, Vec3(10.0, 0.01, 10.0), Vec3(0.1, 0.1, 0.1),
                                          Vec2(-Pi, Pi), Vec2(-Pi, Pi))

  /** Flame: rises from a small patch with a fixed start velocity and no
      rotation. */
  const FlamePosition := Vec3(0.0, -2.0, 0.0)
  const FlameShape := Particles.SpawnShape(Vec3(1.0, 0.65, 0.25), Vec3(0.05, 0.01, 0.05), Vec3(0.1, 0.1, 0.1),
                                           Vec2(0.0, 0.0), Vec2(0.0, 0.0))

  /** Builds the two emitters the scene uses, snow then flame; the third
      (trace) emitter is built by the source but never added to the list. */
  method CreateEmitters() returns (emitters: seq<Particles.Emitter>)
    ensures |emitters| == 2 && emitters[0] != emitters[1] && emitters[0].particles != emitters[1].particles
    ensures forall k :: 0 <= k < 2 ==> fresh(emitters[k]) && emitters[k].Valid() && emitters[k].Live() == []
    ensures emitters[0].emitterPosition == SnowPosition && emitters[0].shape == SnowShape
    ensures emitters[0].maxParticles == 200 && emitters[0].particlesPerSecond == 50 && emitters[0].lifetime == 5.0
    ensures emitters[1].emitterPosition == FlamePosition && emitters[1].shape == FlameShape
    ensures emitters[1].maxParticles == 120 && emitters[1].particlesPerSecond == 20 && emitters[1].lifetime == 3.0
  {
    var snow := new Particles.Emitter(SnowPosition, 200, 50, 5.0, SnowShape);
    var flame := new Particles.Emitter(FlamePosition, 120, 20, 3.0, FlameShape);
    emitters := [snow, flame];
  }

  /** Builds the renderer over the scene's shared state. The game relies
      only on the handles the renderer keeps and on its invariant; the
      targets it creates are stated by the renderer's constructor. */
  method NewRenderer(context: Context, sky: Sky.Sky, backBufferRTV: Option<Id>, depthBufferDSV: Option<Id>,
                     width: nat, height: nat, entities: Rendering.EntityList, lights: LightList,
                     lightCount: int, refractionPS: Id, emitters: seq<Particles.Emitter>,
                     useLightRays: bool, useRefraction: bool, ssaoSamples: int, ssaoRadius: real)
    returns (r: Rendering.Renderer)
    modifies context`nextId, context`textures, context`views
    ensures fresh(r) && r.Valid()
    ensures r.context == context && r.sky == sky && r.entities == entities
    ensures r.lights == lights && r.lightCount == lightCount && r.emitters == emitters
    ensures r.windowWidth == width && r.windowHeight == height
    ensures r.backBufferRTV == backBufferRTV && r.depthBufferDSV == depthBufferDSV
  {
    r := new Rendering.Renderer(context, sky, backBufferRTV, depthBufferDSV, width, height,
                                entities, lights, lightCount, refractionPS, emitters,
                                useLightRays, useRefraction, ssaoSamples, ssaoRadius);
  }

  /** The live particles of each emitter, in list order. */
  ghost function LivesOf(es: seq<Particles.Emitter>): (r: seq<seq<Particles.Particle>>)
    requires forall k :: 0 <= k < |es| ==> es[k].Valid()
    reads es, ParticleArrays(es)
    ensures |r| == |es| && forall k :: 0 <= k < |es| ==> es[k].Valid() && r[k] == es[k].Live()
  {
    if es == [] then [] else assert es[|es| - 1].Valid(); LivesOf(es[..|es| - 1]) + [es[|es| - 1].Live()]
  }

  /** The emission budget of each emitter, in list order. */
  ghost function BudgetsOf(es: seq<Particles.Emitter>): (r: seq<real>)
    reads es
    ensures |r| == |es| && forall k :: 0 <= k < |es| ==> r[k] == es[k].timeSinceEmit
  {
    if es == [] then [] else BudgetsOf(es[..|es| - 1]) + [es[|es| - 1].timeSinceEmit]
  }

  /** The particle arrays of the emitters: what their updates write. */
  ghost function ParticleArrays(es: seq<Particles.Emitter>): set<array<Particles.Particle>>
    reads es
  {
    set e | e in es :: e.particles
  }

  /** Every emitter is valid, and no emitter or particle array appears
      twice, so updating one emitter leaves the others as they were. */
  ghost predicate Ready(es: seq<Particles.Emitter>)
    reads es
  {
    && (forall k :: 0 <= k < |es| ==> es[k].Valid())
    && (forall j, k :: 0 <= j < k < |es| ==> es[j] != es[k] && es[j].particles != es[k].particles)
  }

  /** One emitter's frame update, with the upload it returns set aside. */
  method StepEmitter(e: Particles.Emitter, dt: real, t: real, jitter: nat -> Particles.Jitter)
    returns (ghost retired: nat, attempts: nat, spawned: nat)
    requires e.Valid()
    modifies e.particles, e`firstAliveIndex, e`firstDeadIndex, e`numAliveParticles, e`timeSinceEmit
    ensures e.particles == old(e.particles)
    ensures e.SteppedFrom(old(e.Live()), old(e.timeSinceEmit), dt, t, jitter, retired, attempts, spawned)
  {
    var upload;
    upload, retired, attempts, spawned := e.Update(dt, t, jitter);
  }

  /** Emitters before `i` have made their update from `lives` and
      `budgets`; those from `i` on still hold them. */
  ghost predicate Progress(es: seq<Particles.Emitter>, i: int, lives: seq<seq<Particles.Particle>>, budgets: seq<real>,
                           dt: real, t: real, jitters: nat -> nat -> Particles.Jitter,
                           retired: seq<nat>, attempts: seq<nat>, spawned: seq<nat>)
    reads es, ParticleArrays(es)
  {
    && Ready(es)
    && 0 <= i <= |es| && |lives| == |budgets| == |es| && |retired| == |attempts| == |spawned| == i
    && (forall k :: i <= k < |es| ==> es[k].Live() == lives[k] && es[k].timeSinceEmit == budgets[k])
    && (forall k :: 0 <= k < i ==>
          es[k].SteppedFrom(lives[k], budgets[k], dt, t, jitters(k), retired[k], attempts[k], spawned[k]))
  }

  /** Emitter `i`'s frame update, its upload set aside: one more emitter
      has made its update, and no emitter changes particle array. */
  method StepAt(es: seq<Particles.Emitter>, i: nat, ghost lives: seq<seq<Particles.Particle>>, ghost budgets: seq<real>,
                dt: real, t: real, jitters: nat -> nat -> Particles.Jitter,
                ghost retired: seq<nat>, attempts: seq<nat>, spawned: seq<nat>)
    returns (ghost retired': seq<nat>, attempts': seq<nat>, spawned': seq<nat>)
    requires i < |es| && Progress(es, i, lives, budgets, dt, t, jitters, retired, attempts, spawned)
    modifies es[i].particles, {es[i]}`firstAliveIndex, {es[i]}`firstDeadIndex, {es[i]}`numAliveParticles, {es[i]}`timeSinceEmit
    ensures forall k :: 0 <= k < |es| ==> es[k].particles == old(es[k].particles)
    ensures Progress(es, i + 1, lives, budgets, dt, t, jitters, retired', attempts', spawned')
  {
    var r, a, n := StepEmitter(es[i], dt, t, jitters(i));
    retired', attempts', spawned' := retired + [r], attempts + [a], spawned + [n];
    forall k | 0 <= k < i
      ensures es[k].SteppedFrom(lives[k], budgets[k], dt, t, jitters(k), retired'[k], attempts'[k], spawned'[k])
    {
      assert retired'[k] == retired[k] && attempts'[k] == attempts[k] && spawned'[k] == spawned[k];
    }
  }

  /** Each emitter's frame update, in list order. */
  method UpdateEach(es: seq<Particles.Emitter>, deltaTime: real, totalTime: real, jitters: nat -> nat -> Particles.Jitter)
    returns (ghost retired: seq<nat>, attempts: seq<nat>, spawned: seq<nat>)
    requires Ready(es)
    modifies ParticleArrays(es)
    modifies es`firstAliveIndex, es`firstDeadIndex, es`numAliveParticles, es`timeSinceEmit
    ensures Ready(es)
    ensures |retired| == |attempts| == |spawned| == |es|
    ensures forall k :: 0 <= k < |es| ==>
      es[k].SteppedFrom(old(es[k].Live()), old(es[k].timeSinceEmit), deltaTime, totalTime,
                        jitters(k), retired[k], attempts[k], spawned[k])
  {
    retired, attempts, spawned := [], [], [];
    ghost var lives, budgets := LivesOf(es), BudgetsOf(es);
    for i := 0 to |es|
      invariant forall k :: 0 <= k < |es| ==>
        lives[k] == old(es[k].Live()) && budgets[k] == old(es[k].timeSinceEmit)
      invariant forall k :: 0 <= k < |es| ==> es[k].particles == old(es[k].particles)
      invariant Progress(es, i, lives, budgets, deltaTime, totalTime, jitters, retired, attempts, spawned)
    {
      retired, attempts, spawned :=
        StepAt(es, i, lives, budgets, deltaTime, totalTime, jitters, retired, attempts, spawned);
    }
  }

  // --------------------------------------------------------------- game

  class Game {
    /** The vector the game owns; the renderer holds the same list. */
    const lights: LightList
    var lightCount: int
    var guiActive: bool
    var emitters: seq<Particles.Emitter>
    var renderer: Rendering.Renderer?

    /** After Init: the renderer shares the game's lights and emitters and
        its copy of the light count, and the list holds `max(3, lightCount)`
        lights. */
    ghost predicate Valid()
      reads this, lights, renderer
    {
      && renderer != null && renderer.Valid()
      && renderer.lights == lights && renderer.emitters == emitters
      && renderer.lightCount == lightCount && renderer.sky.context == renderer.context
      && 0 <= lightCount
      && |lights.items| == Max(3, lightCount)
    }

    /** The window is not ready yet: the light count starts at zero and no
        renderer exists. */
    constructor()
      ensures lightCount == 0 && lights.items == [] && emitters == [] && renderer == null && fresh(lights)
    {
      lights := new LightList();
      lightCount := 0;
      emitters := [];
      renderer := null;
    }

    /** Builds the emitters, generates ten lights, creates the renderer at
        the window size and turns the GUI on. Entities, shaders and the sky
        come from asset loading, which is outside this model; the renderer
        settings the source leaves uninitialised are parameters. */
    method Init(context: Context, sky: Sky.Sky, entities: Rendering.EntityList, refractionPS: Id,
                backBufferRTV: Option<Id>, depthBufferDSV: Option<Id>, width: nat, height: nat,
                draw: nat -> PointSample, useLightRays: bool, useRefraction: bool,
                ssaoSamples: int, ssaoRadius: real)
      requires sky.context == context
      modifies this, lights`items, context`nextId, context`textures, context`views
      ensures Valid() && fresh(renderer)
      ensures lightCount == 10 && guiActive
      ensures Generated(lights.items, 10, draw)
      ensures |emitters| == 2 && forall k :: 0 <= k < 2 ==> fresh(emitters[k]) && emitters[k].Valid()
      ensures emitters[0] != emitters[1] && emitters[0].particles != emitters[1].particles
      ensures renderer.context == context && renderer.sky == sky && renderer.entities == entities
      ensures renderer.windowWidth == width && renderer.windowHeight == height
      ensures renderer.backBufferRTV == backBufferRTV && renderer.depthBufferDSV == depthBufferDSV
    {
      emitters := CreateEmitters();

      lightCount := 10;
      GenerateLights(draw);
      renderer := NewRenderer(context, sky, backBufferRTV, depthBufferDSV, width, height,
                              entities, lights, lightCount, refractionPS, emitters,
                              useLightRays, useRefraction, ssaoSamples, ssaoRadius);
      guiActive := true;
    }

    /** Clears the list, pushes the three directional lights and then adds
        point lights while the list is shorter than `lightCount`. A negative
        count is compared as a huge unsigned size by the source and never
        stops, so it is excluded. */
    method GenerateLights(draw: nat -> PointSample)
      requires lightCount >= 0
      modifies lights`items
      ensures Generated(lights.items, lightCount, draw)
    {
      lights.items := [];
      lights.items := lights.items + [DirectionalLights[0]];
      lights.items := lights.items + [DirectionalLights[1]];
      lights.items := lights.items + [DirectionalLights[2]];
      while |lights.items| < lightCount
        invariant 3 <= |lights.items| <= Max(3, lightCount)
        invariant lights.items[..3] == DirectionalLights
        invariant forall i :: 3 <= i < |lights.items| ==> lights.items[i] == RandomPointLight(draw(i))
        decreases lightCount - |lights.items|
      {
        var point := RandomPointLight(draw(|lights.items|));
        lights.items := lights.items + [point];
      }
    }

    /** The "Randomize Lights" button: a new position for each of the first
        `lightCount` lights, directional ones included, in index order. */
    method RandomizeLights(draw: nat -> Vec3)
      requires lightCount <= |lights.items|
      modifies lights`items
      ensures Rescattered(lights.items, old(lights.items), lightCount, draw)
    {
      var i := 0;
      while i < lightCount
        invariant 0 <= i <= Max(0, lightCount) && |lights.items| == |old(lights.items)|
        invariant Rescattered(lights.items, old(lights.items), i, draw)
      {
        lights.items := lights.items[i := lights.items[i].(position := RandomPosition(draw(i)))];
        i := i + 1;
      }
    }

    /** The 'I' key shows or hides the GUI. */
    method ToggleGui()
      modifies this`guiActive
      ensures guiActive == !old(guiActive)
    {
      guiActive := !guiActive;
    }

    /** Each emitter, in list order, ages and emits with the frame's times;
        `jitters(k)` are the draws of emitter `k`. Emitter `k` ends as one
        Update from its own state before the call leaves it, having retired
        `retired[k]` particles in `attempts[k]` spawn attempts, of which
        `spawned[k]` succeeded. */
    method UpdateEmitters(deltaTime: real, totalTime: real, jitters: nat -> nat -> Particles.Jitter)
      returns (ghost retired: seq<nat>, attempts: seq<nat>, spawned: seq<nat>)
      requires Ready(emitters)
      modifies ParticleArrays(emitters)
      modifies emitters`firstAliveIndex, emitters`firstDeadIndex, emitters`numAliveParticles, emitters`timeSinceEmit
      ensures Ready(emitters)
      ensures |retired| == |attempts| == |spawned| == |emitters|
      ensures forall k :: 0 <= k < |emitters| ==>
        emitters[k].SteppedFrom(old(emitters[k].Live()), old(emitters[k].timeSinceEmit), deltaTime, totalTime,
                                jitters(k), retired[k], attempts[k], spawned[k])
    {
      retired, attempts, spawned := UpdateEach(emitters, deltaTime, totalTime, jitters);
    }

    /** One frame's update after the GUI and the camera: the emitters, then
        Tab (regenerate the lights), then 'I' (toggle the GUI). */
    method Update(deltaTime: real, totalTime: real, jitters: nat -> nat -> Particles.Jitter,
                  tabPressed: bool, iPressed: bool, draw: nat -> PointSample)
      returns (ghost retired: seq<nat>, attempts: seq<nat>, spawned: seq<nat>)
      requires lightCount >= 0 && Ready(emitters)
      modifies ParticleArrays(emitters)
      modifies emitters`firstAliveIndex, emitters`firstDeadIndex, emitters`numAliveParticles, emitters`timeSinceEmit
      modifies lights`items, this`guiActive
      ensures Ready(emitters)
      ensures |retired| == |attempts| == |spawned| == |emitters|
      ensures forall k :: 0 <= k < |emitters| ==>
        emitters[k].SteppedFrom(old(emitters[k].Live()), old(emitters[k].timeSinceEmit), deltaTime, totalTime,
                                jitters(k), retired[k], attempts[k], spawned[k])
      ensures tabPressed ==> Generated(lights.items, lightCount, draw)
      ensures !tabPressed ==> lights.items == old(lights.items)
      ensures guiActive == (old(guiActive) != iPressed)
    {
      retired, attempts, spawned := UpdateEmitters(deltaTime, totalTime, jitters);
      HandleKeys(tabPressed, iPressed, draw);
    }

    /** Tab regenerates the lights, then 'I' toggles the GUI. */
    method HandleKeys(tabPressed: bool, iPressed: bool, draw: nat -> PointSample)
      requires lightCount >= 0
      modifies lights`items, this`guiActive
      ensures tabPressed ==> Generated(lights.items, lightCount, draw)
      ensures !tabPressed ==> lights.items == old(lights.items)
      ensures guiActive == (old(guiActive) != iPressed)
    {
      if tabPressed {
        GenerateLights(draw);
      }
      if iPressed {
        ToggleGui();
      }
    }

    /** Releases the renderer's window views, lets the swap chain resize
        (outside this model) and rebuilds the renderer's targets at the new
        size with the new views. */
    method OnResize(width: nat, height: nat, backBufferRTV: Option<Id>, depthBufferDSV: Option<Id>)
      requires renderer != null && renderer.Valid()
      modifies renderer`windowWidth, renderer`windowHeight, renderer`backBufferRTV, renderer`depthBufferDSV
      modifies renderer.renderTargetRTVs, renderer.renderTargetSRVs
      modifies renderer.context`nextId, renderer.context`textures, renderer.context`views
      ensures renderer.Valid() && (old(Valid()) ==> Valid())
      ensures renderer.windowWidth == width && renderer.windowHeight == height
      ensures renderer.backBufferRTV == backBufferRTV && renderer.depthBufferDSV == depthBufferDSV
      ensures renderer.context.nextId == old(renderer.context.nextId) + 3 * Rendering.RenderTargetTypeCount
      ensures renderer.renderTargetRTVs[..] == Rendering.ResizedRtvs(old(renderer.context.nextId))
      ensures renderer.renderTargetSRVs[..] == Rendering.ResizedSrvs(old(renderer.context.nextId))
      ensures renderer.context.textures
        == Rendering.ResizedTextures(old(renderer.context.textures), old(renderer.context.nextId), width, height)
      ensures renderer.context.views == Rendering.ResizedViews(old(renderer.context.views), old(renderer.context.nextId))
    {
      renderer.PreResize();
      renderer.PostResize(width, height, backBufferRTV, depthBufferDSV);
    }

    /** Draws one frame through the renderer; the list lengths Valid keeps
        are what the renderer needs to read `lightCount` lights. */
    method Draw()
      requires Valid()
      requires forall k :: 0 <= k < |emitters| ==> emitters[k].Valid()
      modifies renderer.context`trace, renderer.context`boundTargets, renderer.context`boundDepth
      modifies renderer.entities.items`pixelShader
      ensures renderer.context.trace == old(renderer.context.trace)
        + Rendering.FrameTrace(old(renderer.Snapshot()), old(Rendering.Surfaces(renderer.entities.items)),
                               lights.items, lightCount, old(Rendering.ParticleCounts(emitters)))
    {
      renderer.Render();
    }
  }
}
