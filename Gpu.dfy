/** The slice of a Direct3D 11 device and immediate context that the
    renderer, the sky baker and the emitters drive. GPU objects are opaque
    integer ids handed out by a counter; pipeline calls are appended to a
    command trace. A draw records the render targets, depth view and
    viewport bound when it was issued, so a trace says where every draw
    landed. */
module Gpu {
  import opened Common

  /** An opaque GPU object: a texture, a view or a shader. */
  type Id = int

  datatype Format = R8G8B8A8Unorm | R32Float | R16G16Unorm

  /** What a 2D texture is created with. */
  datatype TextureDesc = TextureDesc(width: int, height: int, format: Format, mipLevels: int)

  /** A viewport rectangle at the origin with its depth range. */
  datatype Viewport = Viewport(width: real, height: real, minDepth: real, maxDepth: real)

  /** A square viewport covering depths 0 to 1, as every bake sets up. */
  function SquareViewport(size: real): Viewport {
    Viewport(size, size, 0.0, 1.0)
  }

  /** What a draw call renders, with the shader constants that tell the
      draws of one pass apart. */
  datatype DrawKind =
    | IrradianceFace(face: int)
    | SpecularFace(mip: int, face: int, roughness: Option<real>)
    | BrdfLookUp
    | EntityMesh(entity: int, pixelShader: Id)
    | LightMesh(light: int, scale: real, tint: Vec3)
    | SkyBox
    | SsaoPass
    | SsaoBlurPass
    | SsaoCombinePass
    | FinalCopy(source: Option<Id>)
    | LightRays
    | ParticleQuads(emitter: int, indexCount: int)

  datatype Event =
    | ClearTarget(rtv: Option<Id>, color: Color)
    | ClearDepth(dsv: Option<Id>)
    | BindTargets(rtvs: seq<Option<Id>>, dsv: Option<Id>)
    | SetViewport(vp: Viewport)
    | Draw(kind: DrawKind, targets: seq<Option<Id>>, depth: Option<Id>, viewport: Viewport)
    | Flush
    | ParticleStates(on: bool)
    | Present
    | UnbindShaderResources(count: int)

  /** The render target in slot 0, which is what `OMGetRenderTargets(1, ...)`
      hands back; an unbound slot reads as null. */
  function SlotZero(targets: seq<Option<Id>>): Option<Id> {
    if |targets| > 0 then targets[0] else None
  }

  /** The draw events of a trace, in order. */
  function Draws(t: seq<Event>): seq<Event> {
    if t == [] then []
    else Draws(t[..|t| - 1]) + (if t[|t| - 1].Draw? then [t[|t| - 1]] else [])
  }

  lemma {:induction false} DrawsAppend(a: seq<Event>, b: seq<Event>)
    ensures Draws(a + b) == Draws(a) + Draws(b)
    decreases |b|
  {
    if b == [] {
      assert a + b == a;
    } else {
      var b' := b[..|b| - 1];
      assert (a + b)[..|a + b| - 1] == a + b';
      DrawsAppend(a, b');
    }
  }

  /** Appending to a trace piece by piece is appending the pieces joined. */
  lemma AppendAssoc(t: seq<Event>, a: seq<Event>, b: seq<Event>)
    ensures (t + a) + b == t + (a + b)
  {
  }

  /** A trace with no draw in it. */
  lemma NoDraws(t: seq<Event>)
    requires forall i :: 0 <= i < |t| ==> !t[i].Draw?
    ensures Draws(t) == []
  {
    if t != [] {
      NoDraws(t[..|t| - 1]);
    }
  }

  /** How many draws of exactly kind `k` a trace holds. */
  function DrawCount(t: seq<Event>, k: DrawKind): nat {
    if t == [] then 0
    else DrawCount(t[..|t| - 1], k) + (if t[|t| - 1].Draw? && t[|t| - 1].kind == k then 1 else 0)
  }

  lemma {:induction false} DrawCountAppend(a: seq<Event>, b: seq<Event>, k: DrawKind)
    ensures DrawCount(a + b, k) == DrawCount(a, k) + DrawCount(b, k)
    decreases |b|
  {
    if b == [] {
      assert a + b == a;
    } else {
      var b' := b[..|b| - 1];
      assert (a + b)[..|a + b| - 1] == a + b';
      DrawCountAppend(a, b', k);
    }
  }

  /** A trace with no draw of kind `k` counts none. */
  lemma {:induction false} DrawCountNone(t: seq<Event>, k: DrawKind)
    requires forall i :: 0 <= i < |t| ==> !(t[i].Draw? && t[i].kind == k)
    ensures DrawCount(t, k) == 0
  {
    if t != [] {
      DrawCountNone(t[..|t| - 1], k);
    }
  }

  /** A trace whose only draw of kind `k` is event `j` counts one. */
  lemma DrawCountOne(t: seq<Event>, j: int, k: DrawKind)
    requires 0 <= j < |t| && t[j].Draw? && t[j].kind == k
    requires forall i :: 0 <= i < |t| && i != j ==> !(t[i].Draw? && t[i].kind == k)
    ensures DrawCount(t, k) == 1
  {
    var a, b := t[..j], t[j + 1..];
    assert t == a + [t[j]] + b;
    DrawCountAppend(a + [t[j]], b, k);
    DrawCountAppend(a, [t[j]], k);
    assert [t[j]][..0] == [];
    DrawCountNone(a, k);
    DrawCountNone(b, k);
  }

  /** The colour `rtv` was last cleared to in `t`, if it was cleared. */
  function LastClear(t: seq<Event>, rtv: Option<Id>): Option<Color> {
    if t == [] then None
    else if t[|t| - 1].ClearTarget? && t[|t| - 1].rtv == rtv then Some(t[|t| - 1].color)
    else LastClear(t[..|t| - 1], rtv)
  }

  lemma {:induction false} LastClearAppend(a: seq<Event>, b: seq<Event>, rtv: Option<Id>)
    ensures LastClear(a + b, rtv) == if LastClear(b, rtv).Some? then LastClear(b, rtv) else LastClear(a, rtv)
    decreases |b|
  {
    if b == [] {
      assert a + b == a;
    } else {
      var b' := b[..|b| - 1];
      assert (a + b)[..|a + b| - 1] == a + b';
      LastClearAppend(a, b', rtv);
    }
  }

  /** A trace of nothing but draws is its own list of draws. */
  lemma {:induction false} OnlyDraws(t: seq<Event>)
    requires forall i :: 0 <= i < |t| ==> t[i].Draw?
    ensures Draws(t) == t
  {
    if t != [] {
      OnlyDraws(t[..|t| - 1]);
    }
  }

  /** Appending a draw appends it to the draws. */
  lemma DrawsSnoc(t: seq<Event>, e: Event)
    requires e.Draw?
    ensures Draws(t + [e]) == Draws(t) + [e]
  {
    assert (t + [e])[..|t|] == t;
  }

  /** A single event that is not a draw. */
  lemma StateChange(e: Event)
    requires !e.Draw?
    ensures Draws([e]) == []
  {
    assert [e][..0] == [];
  }

  /** Surrounding draws by events that draw nothing leaves the draws. */
  lemma DrawsBetween(pre: seq<Event>, mid: seq<Event>, post: seq<Event>)
    requires Draws(pre) == [] && Draws(post) == []
    ensures Draws(pre + mid + post) == Draws(mid)
  {
    DrawsAppend(pre + mid, post);
    DrawsAppend(pre, mid);
  }

  /** A state change followed by a draw. */
  lemma DrawsPair(b: Event, d: Event)
    requires !b.Draw? && d.Draw?
    ensures Draws([b, d]) == [d]
  {
    assert [b, d][..1] == [b] && [b][..0] == [];
    assert Draws([b]) == [];
  }

  /** Every draw is immediately followed by a flush. */
  predicate FlushAfterEachDraw(t: seq<Event>) {
    t == [] || ((t[0].Draw? ==> |t| >= 2 && t[1] == Flush) && FlushAfterEachDraw(t[1..]))
  }

  lemma {:induction false} NoDrawsFlushed(t: seq<Event>)
    requires forall i :: 0 <= i < |t| ==> !t[i].Draw?
    ensures FlushAfterEachDraw(t)
  {
    if t != [] {
      NoDrawsFlushed(t[1..]);
    }
  }

  lemma {:induction false} FlushAfterEachDrawAppend(a: seq<Event>, b: seq<Event>)
    requires FlushAfterEachDraw(a) && FlushAfterEachDraw(b)
    ensures FlushAfterEachDraw(a + b)
  {
    if a != [] {
      assert (a + b)[1..] == a[1..] + b;
      FlushAfterEachDrawAppend(a[1..], b);
    } else {
      assert a + b == b;
    }
  }

  /** The device and its immediate context: the output-merger binding, the
      viewport, the command trace, the id counter, and what the 2D textures
      and the views onto them were created as. */
  class Context {
    var boundTargets: seq<Option<Id>>
    var boundDepth: Option<Id>
    var viewport: Viewport
    var trace: seq<Event>
    var nextId: Id
    var textures: map<Id, TextureDesc>
    var views: map<Id, Id>

    constructor(viewport: Viewport)
      ensures boundTargets == [] && boundDepth == None && this.viewport == viewport
      ensures trace == [] && nextId == 0 && textures == map[] && views == map[]
    {
      boundTargets := [];
      boundDepth := None;
      this.viewport := viewport;
      trace := [];
      nextId := 0;
      textures := map[];
      views := map[];
    }

    /** Creates a texture, a view or any other GPU object. */
    method Create() returns (id: Id)
      modifies this`nextId
      ensures id == old(nextId) && nextId == id + 1
    {
      id := nextId;
      nextId := nextId + 1;
    }

    /** CreateTexture2D. */
    method CreateTexture(desc: TextureDesc) returns (id: Id)
      modifies this`nextId, this`textures
      ensures id == old(nextId) && nextId == id + 1
      ensures textures == old(textures)[id := desc]
    {
      id := nextId;
      nextId := nextId + 1;
      textures := textures[id := desc];
    }

    /** CreateRenderTargetView or CreateShaderResourceView onto `texture`. */
    method CreateView(texture: Id) returns (id: Id)
      modifies this`nextId, this`views
      ensures id == old(nextId) && nextId == id + 1
      ensures views == old(views)[id := texture]
    {
      id := nextId;
      nextId := nextId + 1;
      views := views[id := texture];
    }

    method ClearRenderTargetView(rtv: Option<Id>, color: Color)
      modifies this`trace
      ensures trace == old(trace) + [ClearTarget(rtv, color)]
    {
      trace := trace + [ClearTarget(rtv, color)];
    }

    method ClearDepthStencilView(dsv: Option<Id>)
      modifies this`trace
      ensures trace == old(trace) + [ClearDepth(dsv)]
    {
      trace := trace + [ClearDepth(dsv)];
    }

    /** Binds `rtvs` to slots 0..|rtvs|-1 and unbinds the others. */
    method OMSetRenderTargets(rtvs: seq<Option<Id>>, dsv: Option<Id>)
      modifies this`boundTargets, this`boundDepth, this`trace
      ensures boundTargets == rtvs && boundDepth == dsv
      ensures trace == old(trace) + [BindTargets(rtvs, dsv)]
    {
      boundTargets := rtvs;
      boundDepth := dsv;
      trace := trace + [BindTargets(rtvs, dsv)];
    }

    /** Reads back the render target in slot 0 and the depth view. */
    method OMGetRenderTargets() returns (rtv: Option<Id>, dsv: Option<Id>)
      ensures rtv == SlotZero(boundTargets) && dsv == boundDepth
    {
      rtv := SlotZero(boundTargets);
      dsv := boundDepth;
    }

    method RSSetViewports(vp: Viewport)
      modifies this`viewport, this`trace
      ensures viewport == vp
      ensures trace == old(trace) + [SetViewport(vp)]
    {
      viewport := vp;
      trace := trace + [SetViewport(vp)];
    }

    method RSGetViewports() returns (vp: Viewport)
      ensures vp == viewport
    {
      vp := viewport;
    }

    /** Issues a draw into whatever is bound now. */
    method Draw(kind: DrawKind)
      modifies this`trace
      ensures trace == old(trace) + [Event.Draw(kind, boundTargets, boundDepth, viewport)]
    {
      trace := trace + [Event.Draw(kind, boundTargets, boundDepth, viewport)];
    }

    method Flush()
      modifies this`trace
      ensures trace == old(trace) + [Event.Flush]
    {
      trace := trace + [Event.Flush];
    }

    /** Binds (`on`) or resets (`!on`) the particle blend and depth states. */
    method SetParticleStates(on: bool)
      modifies this`trace
      ensures trace == old(trace) + [ParticleStates(on)]
    {
      trace := trace + [ParticleStates(on)];
    }

    method Present()
      modifies this`trace
      ensures trace == old(trace) + [Event.Present]
    {
      trace := trace + [Event.Present];
    }

    method PSSetShaderResourcesNull(count: int)
      modifies this`trace
      ensures trace == old(trace) + [UnbindShaderResources(count)]
    {
      trace := trace + [UnbindShaderResources(count)];
    }
  }
}
