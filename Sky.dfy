/** The sky's image-based-lighting bakes: an irradiance cube map, a
    pre-filtered specular cube map with one roughness per mip level, and a
    BRDF look-up texture, each rendered face by face through a
    full-screen pass and bracketed by a save and a restore of the bound
    render target, depth view and viewport. The cube size, the number of
    small mips skipped and the look-up texture size are parameters. */
module Sky {
  import opened Common
  import opened Gpu

  function Pow2(n: nat): (r: nat)
    ensures r >= 1
  {
    if n == 0 then 1 else 2 * Pow2(n - 1)
  }

  lemma {:induction false} Pow2Monotone(i: nat, j: nat)
    requires i <= j
    ensures Pow2(i) <= Pow2(j)
    decreases j - i
  {
    if i < j {
      Pow2Monotone(i, j - 1);
    }
  }

  /** `(int)log2(n)` for a positive n: the exponent of the largest power of
      two that does not exceed n. */
  function Log2Floor(n: int): (r: nat)
    requires n >= 1
    ensures Pow2(r) <= n < Pow2(r + 1)
  {
    if n == 1 then 0
    else
      var h := Log2Floor(n / 2);
      assert Pow2(h + 2) == 2 * Pow2(h + 1);
      1 + h
  }

  /** Only one exponent brackets n, so `Log2Floor` is determined by its
      contract. */
  lemma Log2FloorUnique(n: int, k: nat)
    requires n >= 1 && Pow2(k) <= n < Pow2(k + 1)
    ensures Log2Floor(n) == k
  {
    var r := Log2Floor(n);
    if r < k {
      Pow2Monotone(r + 1, k);
    } else if r > k {
      Pow2Monotone(k + 1, r);
    }
  }

  lemma Log2FloorMonotone(a: int, b: int)
    requires 1 <= a <= b
    ensures Log2Floor(a) <= Log2Floor(b)
  {
    if Log2Floor(a) > Log2Floor(b) {
      Pow2Monotone(Log2Floor(b) + 1, Log2Floor(a));
    }
  }

  /** The number of specular mip levels baked: the full chain down to 1x1
      less the skipped small mips, but never fewer than one. Unless that
      floor applies, the top level `2^(r + skip - 1)` is the largest power of
      two not above the cube size. */
  function SpecMipLevels(cubeSize: int, skip: int): (r: int)
    requires cubeSize >= 1
    ensures r >= 1
    ensures Log2Floor(cubeSize) + 1 - skip >= 1 ==>
      r + skip - 1 >= 0 && Pow2(r + skip - 1) <= cubeSize < Pow2(r + skip)
    ensures Log2Floor(cubeSize) + 1 - skip < 1 ==> r == 1
  {
    Max(Log2Floor(cubeSize) + 1 - skip, 1)
  }

  /** A larger cube never gets fewer mip levels. */
  lemma SpecMipLevelsMonotone(a: int, b: int, skip: int)
    requires 1 <= a <= b
    ensures SpecMipLevels(a, skip) <= SpecMipLevels(b, skip)
  {
    Log2FloorMonotone(a, b);
  }

  /** `pow(2, e)` for any integer exponent. */
  function PowTwo(e: int): (r: real)
    ensures r > 0.0
  {
    if e >= 0 then Pow2(e) as real else 1.0 / Pow2(-e) as real
  }

  lemma PowTwoStep(e: int)
    ensures PowTwo(e + 1) == 2.0 * PowTwo(e)
  {
    if e >= 0 {
      assert Pow2(e + 1) == 2 * Pow2(e);
    } else if e == -1 {
      assert Pow2(1) == 2;
    } else {
      var p := Pow2(-e - 1) as real;
      assert Pow2(-e) as real == 2.0 * p;
      calc {
        2.0 * PowTwo(e);
        2.0 * (1.0 / (2.0 * p));
        1.0 / p;
      }
    }
  }

  /** The viewport edge for mip `mip` of the specular map. */
  function MipViewportWidth(mipLevels: int, skip: int, mip: int): real {
    PowTwo(mipLevels + skip - 1 - mip)
  }

  /** Each mip's viewport is half the size of the one above it. */
  lemma MipViewportHalves(mipLevels: int, skip: int, mip: int)
    ensures MipViewportWidth(mipLevels, skip, mip) == 2.0 * MipViewportWidth(mipLevels, skip, mip + 1)
  {
    PowTwoStep(mipLevels + skip - 1 - (mip + 1));
  }

  /** For a power-of-two cube whose level count is not floored, mip 0's
      viewport covers the whole face. */
  lemma MipViewportEnds(k: nat, skip: int)
    requires k + 1 - skip >= 1
    ensures MipViewportWidth(SpecMipLevels(Pow2(k), skip), skip, 0) == Pow2(k) as real
  {
    Log2FloorUnique(Pow2(k), k);
    var levels := SpecMipLevels(Pow2(k), skip);
    assert levels == k + 1 - skip;
    assert MipViewportWidth(levels, skip, 0) == PowTwo(k);
    MipViewportLast(levels, skip);
  }

  /** The smallest mip baked is `2^skip` wide, whatever the level count. */
  lemma MipViewportLast(mipLevels: int, skip: int)
    ensures MipViewportWidth(mipLevels, skip, mipLevels - 1) == PowTwo(skip)
  {
  }

  /** The roughness written for mip `mip`; `None` stands for the NaN of
      `0 / 0.0` when only one level is baked. */
  function Roughness(mip: int, mipLevels: int): (r: Option<real>)
    ensures r.None? <==> mipLevels == 1
  {
    if mipLevels == 1 then None else Some(mip as real / (mipLevels - 1) as real)
  }

  /** With two or more levels roughness rises from 0 at mip 0 to 1 at the
      last mip, strictly, and stays within [0, 1]. */
  lemma RoughnessRamp(mipLevels: int, m: int, n: int)
    requires mipLevels >= 2 && 0 <= m < n < mipLevels
    ensures Roughness(0, mipLevels) == Some(0.0)
    ensures Roughness(mipLevels - 1, mipLevels) == Some(1.0)
    ensures 0.0 <= Roughness(m, mipLevels).value < Roughness(n, mipLevels).value <= 1.0
  {
    var d := (mipLevels - 1) as real;
    assert d / d == 1.0;
    assert m as real / d < n as real / d by {
      assert m as real < n as real;
    }
    assert n as real / d <= d / d by {
      assert n as real <= d;
    }
  }

  /** The clear colour of every bake target: all zeroes. */
  const Transparent := Color(0.0, 0.0, 0.0, 0.0)

  /** Rendering one face: clear its view, bind it alone without depth,
      optionally set the viewport, draw, and flush. */
  function FaceSteps(rtv: Id, vp: Viewport, setViewport: bool, kind: DrawKind): seq<Event> {
    [ClearTarget(Some(rtv), Transparent), BindTargets([Some(rtv)], None)]
    + (if setViewport then [SetViewport(vp)] else [])
    + [Event.Draw(kind, [Some(rtv)], None, vp), Event.Flush]
  }

  lemma FaceStepsDraws(rtv: Id, vp: Viewport, setViewport: bool, kind: DrawKind)
    ensures Draws(FaceSteps(rtv, vp, setViewport, kind)) == [Event.Draw(kind, [Some(rtv)], None, vp)]
  {
    var pre := [ClearTarget(Some(rtv), Transparent), BindTargets([Some(rtv)], None)]
      + (if setViewport then [SetViewport(vp)] else []);
    var d := Event.Draw(kind, [Some(rtv)], None, vp);
    NoDraws(pre);
    assert FaceSteps(rtv, vp, setViewport, kind) == pre + [d, Event.Flush];
    DrawsAppend(pre, [d, Event.Flush]);
    assert Draws([d]) == [d] by {
      assert [d][..0] == [];
    }
    assert Draws([d, Event.Flush]) == [d] by {
      assert [d, Event.Flush][..1] == [d];
    }
  }

  lemma FaceStepsFlushed(rtv: Id, vp: Viewport, setViewport: bool, kind: DrawKind)
    ensures FlushAfterEachDraw(FaceSteps(rtv, vp, setViewport, kind))
  {
    var pre := [ClearTarget(Some(rtv), Transparent), BindTargets([Some(rtv)], None)]
      + (if setViewport then [SetViewport(vp)] else []);
    var d := Event.Draw(kind, [Some(rtv)], None, vp);
    NoDrawsFlushed(pre);
    assert FlushAfterEachDraw([d, Event.Flush]) by {
      assert [d, Event.Flush][1..] == [Event.Flush];
      assert [Event.Flush][1..] == [];
    }
    FlushAfterEachDrawAppend(pre, [d, Event.Flush]);
    assert FaceSteps(rtv, vp, setViewport, kind) == pre + [d, Event.Flush];
  }

  /** Rebinding the saved render target and depth view, then the saved
      viewport. */
  function Restore(rtv: Option<Id>, dsv: Option<Id>, vp: Viewport): seq<Event> {
    [BindTargets([rtv], dsv), SetViewport(vp)]
  }

  lemma RestoreDraws(rtv: Option<Id>, dsv: Option<Id>, vp: Viewport)
    ensures Draws(Restore(rtv, dsv, vp)) == []
  {
    NoDraws(Restore(rtv, dsv, vp));
  }

  // ---------------------------------------------------------------- irradiance

  /** Faces 0 .. faces-1 of the irradiance map, face f through view
      `firstRtv + f`, all under the viewport set before the loop. */
  function IrradianceFaces(firstRtv: Id, vp: Viewport, faces: nat): seq<Event> {
    if faces == 0 then []
    else IrradianceFaces(firstRtv, vp, faces - 1) + FaceSteps(firstRtv + faces - 1, vp, false, IrradianceFace(faces - 1))
  }

  /** The irradiance bake when ids are handed out from `base`: the texture
      is `base`, its shader view `base + 1`, the view of face f `base + 2 + f`. */
  function IrradianceTrace(base: Id, cubeSize: int, prevRtv: Option<Id>, prevDsv: Option<Id>, prevVp: Viewport): seq<Event> {
    var vp := SquareViewport(cubeSize as real);
    [SetViewport(vp)] + IrradianceFaces(base + 2, vp, 6) + Restore(prevRtv, prevDsv, prevVp)
  }

  lemma {:induction false} IrradianceFacesDraws(firstRtv: Id, vp: Viewport, faces: nat)
    ensures |Draws(IrradianceFaces(firstRtv, vp, faces))| == faces
    ensures forall f :: 0 <= f < faces ==>
      Draws(IrradianceFaces(firstRtv, vp, faces))[f] == Event.Draw(IrradianceFace(f), [Some(firstRtv + f)], None, vp)
  {
    if faces > 0 {
      var f := faces - 1;
      var prev := IrradianceFaces(firstRtv, vp, f);
      IrradianceFacesDraws(firstRtv, vp, f);
      FaceStepsDraws(firstRtv + f, vp, false, IrradianceFace(f));
      DrawsAppend(prev, FaceSteps(firstRtv + f, vp, false, IrradianceFace(f)));
      assert Draws(IrradianceFaces(firstRtv, vp, faces))
        == Draws(prev) + [Event.Draw(IrradianceFace(f), [Some(firstRtv + f)], None, vp)];
    }
  }

  lemma {:induction false} IrradianceFacesFlushed(firstRtv: Id, vp: Viewport, faces: nat)
    ensures FlushAfterEachDraw(IrradianceFaces(firstRtv, vp, faces))
  {
    if faces > 0 {
      var f := faces - 1;
      IrradianceFacesFlushed(firstRtv, vp, f);
      FaceStepsFlushed(firstRtv + f, vp, false, IrradianceFace(f));
      FlushAfterEachDrawAppend(IrradianceFaces(firstRtv, vp, f), FaceSteps(firstRtv + f, vp, false, IrradianceFace(f)));
    }
  }

  /** The irradiance bake draws exactly the six faces in order, each into its
      own face view with no depth buffer and a cube-sized viewport. */
  lemma IrradianceBakeDraws(base: Id, cubeSize: int, prevRtv: Option<Id>, prevDsv: Option<Id>, prevVp: Viewport)
    ensures |Draws(IrradianceTrace(base, cubeSize, prevRtv, prevDsv, prevVp))| == 6
    ensures forall f :: 0 <= f < 6 ==>
      Draws(IrradianceTrace(base, cubeSize, prevRtv, prevDsv, prevVp))[f]
        == Event.Draw(IrradianceFace(f), [Some(base + 2 + f)], None, SquareViewport(cubeSize as real))
  {
    var vp := SquareViewport(cubeSize as real);
    var faces := IrradianceFaces(base + 2, vp, 6);
    IrradianceFacesDraws(base + 2, vp, 6);
    NoDraws([SetViewport(vp)]);
    RestoreDraws(prevRtv, prevDsv, prevVp);
    DrawsAppend([SetViewport(vp)], faces);
    DrawsAppend([SetViewport(vp)] + faces, Restore(prevRtv, prevDsv, prevVp));
    assert Draws(IrradianceTrace(base, cubeSize, prevRtv, prevDsv, prevVp)) == Draws(faces);
  }

  /** Every irradiance draw is followed by a flush. */
  lemma IrradianceBakeFlushed(base: Id, cubeSize: int, prevRtv: Option<Id>, prevDsv: Option<Id>, prevVp: Viewport)
    ensures FlushAfterEachDraw(IrradianceTrace(base, cubeSize, prevRtv, prevDsv, prevVp))
  {
    var vp := SquareViewport(cubeSize as real);
    var faces := IrradianceFaces(base + 2, vp, 6);
    IrradianceFacesFlushed(base + 2, vp, 6);
    NoDrawsFlushed([SetViewport(vp)]);
    NoDrawsFlushed(Restore(prevRtv, prevDsv, prevVp));
    FlushAfterEachDrawAppend([SetViewport(vp)], faces);
    FlushAfterEachDrawAppend([SetViewport(vp)] + faces, Restore(prevRtv, prevDsv, prevVp));
  }

  // ------------------------------------------------------------------ specular

  /** The square viewport of mip `mip`. */
  function MipViewport(mipLevels: int, skip: int, mip: int): Viewport {
    SquareViewport(MipViewportWidth(mipLevels, skip, mip))
  }

  /** Faces 0 .. faces-1 of mip `mip`, face f through view `firstRtv + f`,
      each setting the mip's viewport and roughness before its draw. */
  function SpecularFaces(firstRtv: Id, mip: int, vp: Viewport, roughness: Option<real>, faces: nat): seq<Event> {
    if faces == 0 then []
    else (SpecularFaces(firstRtv, mip, vp, roughness, faces - 1)
          + FaceSteps(firstRtv + faces - 1, vp, true, SpecularFace(mip, faces - 1, roughness)))
  }

  /** Mips 0 .. mips-1, mip-major, six faces each; the view of (mip m,
      face f) is `firstRtv + 6m + f`. */
  function SpecularMips(firstRtv: Id, mipLevels: int, skip: int, mips: nat): seq<Event> {
    if mips == 0 then []
    else (SpecularMips(firstRtv, mipLevels, skip, mips - 1)
          + SpecularFaces(firstRtv + 6 * (mips - 1), mips - 1, MipViewport(mipLevels, skip, mips - 1),
                          Roughness(mips - 1, mipLevels), 6))
  }

  /** The specular bake with ids from `base`: texture `base`, shader view
      `base + 1`, then one view per mip and face. */
  function SpecularTrace(base: Id, mipLevels: nat, skip: int, prevRtv: Option<Id>, prevDsv: Option<Id>, prevVp: Viewport): seq<Event> {
    SpecularMips(base + 2, mipLevels, skip, mipLevels) + Restore(prevRtv, prevDsv, prevVp)
  }

  /** The draw the specular bake issues for mip `mip`, face `face`. */
  function SpecularDraw(rtv: Id, mip: int, face: int, mipLevels: int, skip: int): Event {
    Event.Draw(SpecularFace(mip, face, Roughness(mip, mipLevels)), [Some(rtv)], None, MipViewport(mipLevels, skip, mip))
  }

  lemma {:induction false} SpecularFacesDraws(firstRtv: Id, mip: int, vp: Viewport, roughness: Option<real>, faces: nat)
    ensures |Draws(SpecularFaces(firstRtv, mip, vp, roughness, faces))| == faces
    ensures forall f :: 0 <= f < faces ==>
      Draws(SpecularFaces(firstRtv, mip, vp, roughness, faces))[f]
        == Event.Draw(SpecularFace(mip, f, roughness), [Some(firstRtv + f)], None, vp)
  {
    if faces > 0 {
      var f := faces - 1;
      var head := SpecularFaces(firstRtv, mip, vp, roughness, f);
      var step := FaceSteps(firstRtv + f, vp, true, SpecularFace(mip, f, roughness));
      SpecularFacesDraws(firstRtv, mip, vp, roughness, f);
      FaceStepsDraws(firstRtv + f, vp, true, SpecularFace(mip, f, roughness));
      DrawsAppend(head, step);
      var d := Draws(head) + [Event.Draw(SpecularFace(mip, f, roughness), [Some(firstRtv + f)], None, vp)];
      assert Draws(SpecularFaces(firstRtv, mip, vp, roughness, faces)) == d;
      forall g | 0 <= g < faces
        ensures d[g] == Event.Draw(SpecularFace(mip, g, roughness), [Some(firstRtv + g)], None, vp)
      {
        if g < f {
          assert d[g] == Draws(head)[g];
        }
      }
    }
  }

  lemma {:induction false} SpecularFacesFlushed(firstRtv: Id, mip: int, vp: Viewport, roughness: Option<real>, faces: nat)
    ensures FlushAfterEachDraw(SpecularFaces(firstRtv, mip, vp, roughness, faces))
  {
    if faces > 0 {
      var f := faces - 1;
      var head := SpecularFaces(firstRtv, mip, vp, roughness, f);
      var step := FaceSteps(firstRtv + f, vp, true, SpecularFace(mip, f, roughness));
      SpecularFacesFlushed(firstRtv, mip, vp, roughness, f);
      FaceStepsFlushed(firstRtv + f, vp, true, SpecularFace(mip, f, roughness));
      FlushAfterEachDrawAppend(head, step);
    }
  }

  /** The six draws of mip `m`, numbered from the first view of the bake. */
  lemma SpecularMipBlock(firstRtv: Id, mipLevels: int, skip: int, m: nat)
    ensures var d := Draws(SpecularFaces(firstRtv + 6 * m, m, MipViewport(mipLevels, skip, m), Roughness(m, mipLevels), 6));
      |d| == 6
      && (forall k :: 6 * m <= k < 6 * m + 6 ==> d[k - 6 * m] == SpecularDraw(firstRtv + k, k / 6, k % 6, mipLevels, skip))
  {
    SpecularFacesDraws(firstRtv + 6 * m, m, MipViewport(mipLevels, skip, m), Roughness(m, mipLevels), 6);
    forall k | 6 * m <= k < 6 * m + 6
      ensures k / 6 == m && k % 6 == k - 6 * m
    {
    }
  }

  lemma {:induction false} SpecularMipsDraws(firstRtv: Id, mipLevels: int, skip: int, mips: nat)
    ensures |Draws(SpecularMips(firstRtv, mipLevels, skip, mips))| == 6 * mips
    ensures forall k :: 0 <= k < 6 * mips ==>
      Draws(SpecularMips(firstRtv, mipLevels, skip, mips))[k] == SpecularDraw(firstRtv + k, k / 6, k % 6, mipLevels, skip)
  {
    if mips > 0 {
      var m := mips - 1;
      var head := SpecularMips(firstRtv, mipLevels, skip, m);
      var last := SpecularFaces(firstRtv + 6 * m, m, MipViewport(mipLevels, skip, m), Roughness(m, mipLevels), 6);
      assert SpecularMips(firstRtv, mipLevels, skip, mips) == head + last;
      SpecularMipsDraws(firstRtv, mipLevels, skip, m);
      SpecularMipBlock(firstRtv, mipLevels, skip, m);
      DrawsAppend(head, last);
    }
  }

  lemma {:induction false} SpecularMipsFlushed(firstRtv: Id, mipLevels: int, skip: int, mips: nat)
    ensures FlushAfterEachDraw(SpecularMips(firstRtv, mipLevels, skip, mips))
  {
    if mips > 0 {
      var m := mips - 1;
      var head := SpecularMips(firstRtv, mipLevels, skip, m);
      var last := SpecularFaces(firstRtv + 6 * m, m, MipViewport(mipLevels, skip, m), Roughness(m, mipLevels), 6);
      SpecularMipsFlushed(firstRtv, mipLevels, skip, m);
      SpecularFacesFlushed(firstRtv + 6 * m, m, MipViewport(mipLevels, skip, m), Roughness(m, mipLevels), 6);
      FlushAfterEachDrawAppend(head, last);
    }
  }

  /** The specular bake draws `6 * mipLevels` times, mip-major with faces 0
      to 5 inside each mip: draw k renders face `k % 6` of mip `k / 6` into
      its own view with no depth buffer, with that mip's roughness and
      viewport. */
  lemma SpecularBakeDraws(base: Id, mipLevels: nat, skip: int, prevRtv: Option<Id>, prevDsv: Option<Id>, prevVp: Viewport)
    ensures |Draws(SpecularTrace(base, mipLevels, skip, prevRtv, prevDsv, prevVp))| == 6 * mipLevels
    ensures forall k :: 0 <= k < 6 * mipLevels ==>
      Draws(SpecularTrace(base, mipLevels, skip, prevRtv, prevDsv, prevVp))[k]
        == SpecularDraw(base + 2 + k, k / 6, k % 6, mipLevels, skip)
  {
    var mips := SpecularMips(base + 2, mipLevels, skip, mipLevels);
    SpecularMipsDraws(base + 2, mipLevels, skip, mipLevels);
    RestoreDraws(prevRtv, prevDsv, prevVp);
    DrawsAppend(mips, Restore(prevRtv, prevDsv, prevVp));
  }

  /** Every specular draw is followed by a flush. */
  lemma SpecularBakeFlushed(base: Id, mipLevels: nat, skip: int, prevRtv: Option<Id>, prevDsv: Option<Id>, prevVp: Viewport)
    ensures FlushAfterEachDraw(SpecularTrace(base, mipLevels, skip, prevRtv, prevDsv, prevVp))
  {
    SpecularMipsFlushed(base + 2, mipLevels, skip, mipLevels);
    NoDrawsFlushed(Restore(prevRtv, prevDsv, prevVp));
    FlushAfterEachDrawAppend(SpecularMips(base + 2, mipLevels, skip, mipLevels), Restore(prevRtv, prevDsv, prevVp));
  }

  // ----------------------------------------------------------------------- BRDF

  /** The BRDF bake with ids from `base`: texture `base`, shader view
      `base + 1`, render target view `base + 2`. */
  function BrdfTrace(base: Id, lookUpSize: int, prevRtv: Option<Id>, prevDsv: Option<Id>, prevVp: Viewport): seq<Event> {
    var vp := SquareViewport(lookUpSize as real);
    [SetViewport(vp)] + FaceSteps(base + 2, vp, false, BrdfLookUp) + Restore(prevRtv, prevDsv, prevVp)
  }

  /** The BRDF bake draws exactly once, into its one view with a viewport of
      the look-up size. */
  lemma BrdfBakeDraws(base: Id, lookUpSize: int, prevRtv: Option<Id>, prevDsv: Option<Id>, prevVp: Viewport)
    ensures Draws(BrdfTrace(base, lookUpSize, prevRtv, prevDsv, prevVp))
      == [Event.Draw(BrdfLookUp, [Some(base + 2)], None, SquareViewport(lookUpSize as real))]
  {
    var vp := SquareViewport(lookUpSize as real);
    var face := FaceSteps(base + 2, vp, false, BrdfLookUp);
    FaceStepsDraws(base + 2, vp, false, BrdfLookUp);
    NoDraws([SetViewport(vp)]);
    RestoreDraws(prevRtv, prevDsv, prevVp);
    DrawsAppend([SetViewport(vp)], face);
    DrawsAppend([SetViewport(vp)] + face, Restore(prevRtv, prevDsv, prevVp));
  }

  /** The BRDF draw is followed by a flush. */
  lemma BrdfBakeFlushed(base: Id, lookUpSize: int, prevRtv: Option<Id>, prevDsv: Option<Id>, prevVp: Viewport)
    ensures FlushAfterEachDraw(BrdfTrace(base, lookUpSize, prevRtv, prevDsv, prevVp))
  {
    var vp := SquareViewport(lookUpSize as real);
    var face := FaceSteps(base + 2, vp, false, BrdfLookUp);
    FaceStepsFlushed(base + 2, vp, false, BrdfLookUp);
    NoDrawsFlushed([SetViewport(vp)]);
    NoDrawsFlushed(Restore(prevRtv, prevDsv, prevVp));
    FlushAfterEachDrawAppend([SetViewport(vp)], face);
    FlushAfterEachDrawAppend([SetViewport(vp)] + face, Restore(prevRtv, prevDsv, prevVp));
  }

  /** The three bakes of construction, in order, with ids from `base`. */
  function BakeTrace(base: Id, cubeSize: int, skip: int, lookUpSize: int,
                     prevRtv: Option<Id>, prevDsv: Option<Id>, prevVp: Viewport): seq<Event>
    requires cubeSize >= 1
  {
    var levels := SpecMipLevels(cubeSize, skip);
    IrradianceTrace(base, cubeSize, prevRtv, prevDsv, prevVp)
    + SpecularTrace(base + 8, levels, skip, prevRtv, prevDsv, prevVp)
    + BrdfTrace(base + 10 + 6 * levels, lookUpSize, prevRtv, prevDsv, prevVp)
  }

  /** Construction issues the irradiance draws, then the specular draws,
      then the BRDF draw, `7 + 6 * levels` in all. */
  lemma BakeOrder(base: Id, cubeSize: int, skip: int, lookUpSize: int,
                  prevRtv: Option<Id>, prevDsv: Option<Id>, prevVp: Viewport)
    requires cubeSize >= 1
    ensures var levels := SpecMipLevels(cubeSize, skip);
      Draws(BakeTrace(base, cubeSize, skip, lookUpSize, prevRtv, prevDsv, prevVp))
        == Draws(IrradianceTrace(base, cubeSize, prevRtv, prevDsv, prevVp))
           + Draws(SpecularTrace(base + 8, levels, skip, prevRtv, prevDsv, prevVp))
           + Draws(BrdfTrace(base + 10 + 6 * levels, lookUpSize, prevRtv, prevDsv, prevVp))
    ensures |Draws(BakeTrace(base, cubeSize, skip, lookUpSize, prevRtv, prevDsv, prevVp))| == 7 + 6 * SpecMipLevels(cubeSize, skip)
  {
    var levels := SpecMipLevels(cubeSize, skip);
    var irr := IrradianceTrace(base, cubeSize, prevRtv, prevDsv, prevVp);
    var spec := SpecularTrace(base + 8, levels, skip, prevRtv, prevDsv, prevVp);
    var brdf := BrdfTrace(base + 10 + 6 * levels, lookUpSize, prevRtv, prevDsv, prevVp);
    IrradianceBakeDraws(base, cubeSize, prevRtv, prevDsv, prevVp);
    SpecularBakeDraws(base + 8, levels, skip, prevRtv, prevDsv, prevVp);
    BrdfBakeDraws(base + 10 + 6 * levels, lookUpSize, prevRtv, prevDsv, prevVp);
    DrawsAppend(irr, spec);
    DrawsAppend(irr + spec, brdf);
  }

  /** Every draw of construction is followed by a flush. */
  lemma BakeFlushed(base: Id, cubeSize: int, skip: int, lookUpSize: int,
                    prevRtv: Option<Id>, prevDsv: Option<Id>, prevVp: Viewport)
    requires cubeSize >= 1
    ensures FlushAfterEachDraw(BakeTrace(base, cubeSize, skip, lookUpSize, prevRtv, prevDsv, prevVp))
  {
    var levels := SpecMipLevels(cubeSize, skip);
    var irr := IrradianceTrace(base, cubeSize, prevRtv, prevDsv, prevVp);
    var spec := SpecularTrace(base + 8, levels, skip, prevRtv, prevDsv, prevVp);
    var brdf := BrdfTrace(base + 10 + 6 * levels, lookUpSize, prevRtv, prevDsv, prevVp);
    IrradianceBakeFlushed(base, cubeSize, prevRtv, prevDsv, prevVp);
    SpecularBakeFlushed(base + 8, levels, skip, prevRtv, prevDsv, prevVp);
    BrdfBakeFlushed(base + 10 + 6 * levels, lookUpSize, prevRtv, prevDsv, prevVp);
    FlushAfterEachDrawAppend(irr, spec);
    FlushAfterEachDrawAppend(irr + spec, brdf);
  }

  /** The sky and its three baked lighting maps. */
  class Sky {
    const context: Context
    const skyTexture: Id
    const cubeSize: int
    const mipsToSkip: int
    const lookUpSize: int
    var specMipLevels: int
    var irradianceMap: Option<Id>
    var specularMap: Option<Id>
    var brdfLookUpMap: Option<Id>

    ghost predicate Valid()
      reads this`specMipLevels
    {
      cubeSize >= 1 && specMipLevels == SpecMipLevels(cubeSize, mipsToSkip)
    }

    /** Stores the handles, zeroes the mip count, then bakes irradiance,
        specular and BRDF in that order. */
    constructor(context: Context, skyTexture: Id, cubeSize: int, mipsToSkip: int, lookUpSize: int)
      requires cubeSize >= 1
      modifies context`nextId, context`trace, context`boundTargets, context`boundDepth, context`viewport
      ensures Valid()
      ensures this.context == context && this.skyTexture == skyTexture
      ensures this.cubeSize == cubeSize && this.mipsToSkip == mipsToSkip && this.lookUpSize == lookUpSize
      ensures var b := old(context.nextId);
        irradianceMap == Some(b + 1) && specularMap == Some(b + 9)
        && brdfLookUpMap == Some(b + 11 + 6 * specMipLevels)
        && context.nextId == b + 13 + 6 * specMipLevels
      ensures context.trace == old(context.trace)
        + BakeTrace(old(context.nextId), cubeSize, mipsToSkip, lookUpSize,
                    SlotZero(old(context.boundTargets)), old(context.boundDepth), old(context.viewport))
      ensures context.boundTargets == [SlotZero(old(context.boundTargets))]
      ensures context.boundDepth == old(context.boundDepth) && context.viewport == old(context.viewport)
    {
      this.context := context;
      this.skyTexture := skyTexture;
      this.cubeSize := cubeSize;
      this.mipsToSkip := mipsToSkip;
      this.lookUpSize := lookUpSize;
      specMipLevels := 0;
      new;
      IBLCreateIrradianceMap();
      IBLCreateConvolvedSpecularMap();
      IBLCreateBRDFLookUpTexture();
    }

    function GetSpecIBLMipLevels(): (levels: int)
      requires Valid()
      reads this`specMipLevels
      ensures levels >= 1 && levels == SpecMipLevels(cubeSize, mipsToSkip)
    {
      specMipLevels
    }

    /** Draws the sky box into whatever is bound; the sky's rasterizer and
        depth states are set around the draw and reset after it. */
    method Draw()
      modifies context`trace
      ensures context.trace == old(context.trace)
        + [Event.Draw(SkyBox, context.boundTargets, context.boundDepth, context.viewport)]
    {
      context.Draw(SkyBox);
    }

    method IBLCreateIrradianceMap()
      modifies this`irradianceMap, context`nextId, context`trace, context`boundTargets, context`boundDepth, context`viewport
      ensures irradianceMap == Some(old(context.nextId) + 1)
      ensures context.nextId == old(context.nextId) + 8
      ensures context.trace == old(context.trace)
        + IrradianceTrace(old(context.nextId), cubeSize,
                          SlotZero(old(context.boundTargets)), old(context.boundDepth), old(context.viewport))
      ensures context.boundTargets == [SlotZero(old(context.boundTargets))]
      ensures context.boundDepth == old(context.boundDepth) && context.viewport == old(context.viewport)
    {
      var texture := context.Create();
      var srv := context.Create();
      irradianceMap := Some(srv);
      var prevRtv, prevDsv := context.OMGetRenderTargets();
      var prevVp := context.RSGetViewports();
      var vp := SquareViewport(cubeSize as real);
      context.RSSetViewports(vp);
      ghost var start := context.trace;
      for face := 0 to 6
        invariant irradianceMap == Some(srv)
        invariant context.nextId == texture + 2 + face
        invariant context.viewport == vp
        invariant context.trace == start + IrradianceFaces(texture + 2, vp, face)
      {
        var _ := RenderFace(vp, false, IrradianceFace(face));
      }
      context.OMSetRenderTargets([prevRtv], prevDsv);
      context.RSSetViewports(prevVp);
    }

    method IBLCreateConvolvedSpecularMap()
      requires cubeSize >= 1
      modifies this`specMipLevels, this`specularMap, context`nextId, context`trace, context`boundTargets, context`boundDepth, context`viewport
      ensures Valid()
      ensures specularMap == Some(old(context.nextId) + 1)
      ensures context.nextId == old(context.nextId) + 2 + 6 * specMipLevels
      ensures context.trace == old(context.trace)
        + SpecularTrace(old(context.nextId), specMipLevels, mipsToSkip,
                        SlotZero(old(context.boundTargets)), old(context.boundDepth), old(context.viewport))
      ensures context.boundTargets == [SlotZero(old(context.boundTargets))]
      ensures context.boundDepth == old(context.boundDepth) && context.viewport == old(context.viewport)
    {
      specMipLevels := SpecMipLevels(cubeSize, mipsToSkip);
      var levels := specMipLevels;
      var texture := context.Create();
      var srv := context.Create();
      specularMap := Some(srv);
      var prevRtv, prevDsv := context.OMGetRenderTargets();
      var prevVp := context.RSGetViewports();
      RenderSpecularMips(levels);
      context.OMSetRenderTargets([prevRtv], prevDsv);
      context.RSSetViewports(prevVp);
    }

    /** One face of a bake: a new render target view, cleared, bound alone
        without depth, optionally a new viewport, one draw, one flush. */
    method RenderFace(vp: Viewport, setViewport: bool, kind: DrawKind) returns (rtv: Id)
      requires !setViewport ==> context.viewport == vp
      modifies context`nextId, context`trace, context`boundTargets, context`boundDepth, context`viewport
      ensures rtv == old(context.nextId) && context.nextId == rtv + 1
      ensures context.trace == old(context.trace) + FaceSteps(rtv, vp, setViewport, kind)
      ensures context.viewport == vp
    {
      rtv := context.Create();
      context.ClearRenderTargetView(Some(rtv), Transparent);
      context.OMSetRenderTargets([Some(rtv)], None);
      if setViewport {
        context.RSSetViewports(vp);
      }
      context.Draw(kind);
      context.Flush();
    }

    /** The mip loop of the specular bake, with views numbered from the
        current id. */
    method RenderSpecularMips(levels: nat)
      modifies context`nextId, context`trace, context`boundTargets, context`boundDepth, context`viewport
      ensures context.nextId == old(context.nextId) + 6 * levels
      ensures context.trace == old(context.trace) + SpecularMips(old(context.nextId), levels, mipsToSkip, levels)
    {
      ghost var start := context.trace;
      ghost var first := context.nextId;
      for mip := 0 to levels
        invariant context.nextId == first + 6 * mip
        invariant context.trace == start + SpecularMips(first, levels, mipsToSkip, mip)
      {
        RenderSpecularMip(mip, levels);
        assert SpecularMips(first, levels, mipsToSkip, mip + 1)
          == SpecularMips(first, levels, mipsToSkip, mip)
             + SpecularFaces(first + 6 * mip, mip, MipViewport(levels, mipsToSkip, mip), Roughness(mip, levels), 6);
      }
    }

    /** The inner face loop of the specular bake: faces 0 to 5 of mip `mip`. */
    method RenderSpecularMip(mip: int, levels: int)
      modifies context`nextId, context`trace, context`boundTargets, context`boundDepth, context`viewport
      ensures context.nextId == old(context.nextId) + 6
      ensures context.trace == old(context.trace)
        + SpecularFaces(old(context.nextId), mip, MipViewport(levels, mipsToSkip, mip), Roughness(mip, levels), 6)
    {
      ghost var start := context.trace;
      ghost var first := context.nextId;
      for face := 0 to 6
        invariant context.nextId == first + face
        invariant context.trace == start
          + SpecularFaces(first, mip, MipViewport(levels, mipsToSkip, mip), Roughness(mip, levels), face)
      {
        var _ := RenderFace(MipViewport(levels, mipsToSkip, mip), true, SpecularFace(mip, face, Roughness(mip, levels)));
      }
    }

    method IBLCreateBRDFLookUpTexture()
      modifies this`brdfLookUpMap, context`nextId, context`trace, context`boundTargets, context`boundDepth, context`viewport
      ensures brdfLookUpMap == Some(old(context.nextId) + 1)
      ensures context.nextId == old(context.nextId) + 3
      ensures context.trace == old(context.trace)
        + BrdfTrace(old(context.nextId), lookUpSize,
                    SlotZero(old(context.boundTargets)), old(context.boundDepth), old(context.viewport))
      ensures context.boundTargets == [SlotZero(old(context.boundTargets))]
      ensures context.boundDepth == old(context.boundDepth) && context.viewport == old(context.viewport)
    {
      var texture := context.Create();
      var srv := context.Create();
      brdfLookUpMap := Some(srv);
      var prevRtv, prevDsv := context.OMGetRenderTargets();
      var prevVp := context.RSGetViewports();
      var vp := SquareViewport(lookUpSize as real);
      context.RSSetViewports(vp);
      var _ := RenderFace(vp, false, BrdfLookUp);
      context.OMSetRenderTargets([prevRtv], prevDsv);
      context.RSSetViewports(prevVp);
    }
  }
}
