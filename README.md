# A verified model of the AdvancedDX11Starter renderer core

This project models the core of a small Direct3D 11 deferred renderer. It has four parts, each in its own module:

- **`Particles`**: the particle emitter's fixed-capacity ring of particle records.
  - It models aging, the time-budget spawn loop, packing the live span for upload, the quad index buffer and the draw index count.
- **`Rendering`**: the renderer.
  - It holds the table of eight render targets, built and rebuilt on resize.
  - A frame is modelled as a trace of clear, bind, draw and state events. These cover the geometry pass, with refractive entities set aside; the point-light meshes; the sky; SSAO, blur and combine; the final copy; the optional light rays; the optional refraction pass, which swaps each material's pixel shader and restores it; particles; and present.
- **`Sky`**: the image-based-lighting bakes.
  - It covers the irradiance, the pre-filtered specular cube and the BRDF look-up.
  - It includes the mip-count formula, the per-mip viewport and roughness, the mip-by-face draw schedule, and the save and restore of the bound state around each bake.
- **`Scene`**: the game object.
  - It covers light generation and re-randomisation, the two particle emitters and their per-frame update, the GUI toggle key, and the resize hand-off.

**Supporting modules**

- `Gpu` models the device context as an id allocator plus an event log (`Context.trace`).
- `Common` holds the vector and optional-handle types.
- `Lights` holds the light record and the shared light list.
- `FrameProperties` states and proves properties of a whole frame's trace:
  - which targets end up cleared to which colour;
  - how many draws of each kind a frame issues;
  - the exact order of the draws.

**How the source is represented**

- GPU objects are integer ids.
- Floats are reals.
- Every `rand() / RAND_MAX` value is an oracle parameter in `[0, 1]`.
- Emitter and renderer state lives in Dafny classes whose methods change fields and arrays in place. Each method's postcondition ties the new state to a specification function or predicate of the old state. The game's emitter update states, for every emitter, what that emitter's own Update states (`Particles.Emitter.SteppedFrom`).

## Model

| member | source | states |
|---|---|---|
| Particles.BuildQuadIndices | AdvancedDX11Starter-main/Emitter.cpp:53-65 | the index list has 6·max entries, entry k is 4·(k/6) plus the corner pattern 0,1,2,0,2,3, and every index is below 4·max |
| Particles.Emitter.constructor | AdvancedDX11Starter-main/Emitter.cpp:4-42 | all cursors, the live count and the spawn budget start at 0, the seconds per particle is 1/particlesPerSecond, every slot is a zeroed record, no particle is live, and the index data has the quad pattern |
| Particles.Emitter.CreateBuffers | AdvancedDX11Starter-main/Emitter.cpp:44-97 | a fresh array of maxParticles zeroed slots and the quad index data |
| Particles.Emitter.UpdateSingleParticle | AdvancedDX11Starter-main/Emitter.cpp:158-168 | an expired slot advances the first-alive cursor by one modulo capacity and drops the count by one, whichever slot was tested; otherwise nothing changes |
| Particles.Emitter.AgeSlots | AdvancedDX11Starter-main/Emitter.cpp:111-114 | one scan loop retires exactly as many particles as it finds expired, removing that many from the front of the live list, ring invariant kept |
| Particles.Emitter.AgeWrapped | AdvancedDX11Starter-main/Emitter.cpp:116-123 | the two-loop scan of a wrapped ring retires exactly the number of expired live particles |
| Particles.Emitter.Age | AdvancedDX11Starter-main/Emitter.cpp:107-130 | whichever of the three scan shapes runs, the number retired equals the expired count of the scanned slots and of the live list, and the survivors are the live list minus that many oldest |
| Particles.ScannedCoversLive | AdvancedDX11Starter-main/Emitter.cpp:108-129 | the slots the three branches scan are exactly numAlive, equal the live span except in the full case (all slots in index order), and contain the same number of expired records |
| Particles.OrderedAgingSplits | AdvancedDX11Starter-main/Emitter.cpp:161-166 | when spawn times do not decrease along the live list, the first ExpiredCount records are exactly the expired ones, so the survivors are exactly the unexpired |
| Particles.UnorderedAgingKeepsExpired | AdvancedDX11Starter-main/Emitter.cpp:161-166 | a concrete live list with a young record before an old one: aging retires the young one and keeps the expired one |
| Particles.RingSpawn | AdvancedDX11Starter-main/Emitter.cpp:194-195 | advancing the dead cursor modulo capacity and counting one more keeps the ring invariant below capacity |
| Particles.RingRetire | AdvancedDX11Starter-main/Emitter.cpp:165-166 | advancing the alive cursor and counting one fewer keeps the ring invariant |
| Particles.LiveSpawn | AdvancedDX11Starter-main/Emitter.cpp:174-195 | writing the slot after the live span extends the live list by exactly that record |
| Particles.SpawnKeepsDead | AdvancedDX11Starter-main/Emitter.cpp:174-195 | writing the first dead slot and counting it live leaves every slot still outside the live ring as it was |
| Particles.LiveRetire | AdvancedDX11Starter-main/Emitter.cpp:165-166 | a retirement drops exactly the oldest live record |
| Particles.SpawnBounds | AdvancedDX11Starter-main/Emitter.cpp:174-190 | a spawned record has spawnTime = now, each position axis within emitter position ± range, each velocity axis in [base, base + 2·range], and each rotation between its configured ends |
| Particles.Emitter.SpawnParticle | AdvancedDX11Starter-main/Emitter.cpp:170-197 | below capacity: only the dead slot changes (to the spawned record), the dead cursor becomes (old+1) % max, the count grows by one and the live list gains that record at the end; at capacity nothing changes |
| Particles.DrainedProduct | AdvancedDX11Starter-main/Emitter.cpp:133-139 | subtracting one interval per attempt a times equals subtracting a·interval |
| Particles.BudgetStep | AdvancedDX11Starter-main/Emitter.cpp:136-139 | while the budget still exceeds one interval the number of attempts is below a bound fixed before the loop (termination) |
| Particles.Emitter.EmitDue | AdvancedDX11Starter-main/Emitter.cpp:132-139 | the budget gains dt and loses one interval per attempt, dropped attempts included, ends at most one interval, the number spawned is min(attempts, free slots) and the new live list is the old one followed by those spawns, the k-th drawn from the k-th jitter; every slot outside the new live ring keeps its old record |
| Particles.PackedLayout | AdvancedDX11Starter-main/Emitter.cpp:144-154 | unwrapped: the upload is the live span in order; wrapped: head [0, firstDead) then tail [firstAlive, max), a rotation of the live list with the same multiset; empty: all max slots |
| Particles.Emitter.PackForUpload | AdvancedDX11Starter-main/Emitter.cpp:141-155 | the upload is Packed of the ring, its length is numAlive (max when empty) and it holds the live particles as a multiset |
| Particles.Emitter.Update | AdvancedDX11Starter-main/Emitter.cpp:105-156 | aging, then spawning, then packing (SteppedFrom of the old live list and budget): retired = expired count of the old live list, the new live list is the old survivors followed by the fresh spawns, spawned = min(attempts, free slots after aging), the budget is the old one plus dt minus one interval per attempt, ends at most one interval and is positive after any attempt, the ring invariant holds; every slot outside the new live ring keeps its old record; the upload is the packed ring holding the live particles |
| Particles.Emitter.Draw | AdvancedDX11Starter-main/Emitter.cpp:235 | the indexed draw uses numAlive·6 indices, never more than the index buffer holds |
| Particles.Emitter.SetPosition | AdvancedDX11Starter-main/Emitter.cpp:256-259 | the emitter position becomes the argument |
| Rendering.FromIndex | AdvancedDX11Starter-main/Renderer.h:13-23 | an integer names a target type exactly when it is in [0, 8), and then Index maps that type back to it |
| Rendering.IndexInjective | AdvancedDX11Starter-main/Renderer.h:13-23 | distinct target types have distinct table indices |
| Rendering.CreationIndex | AdvancedDX11Starter-main/Renderer.cpp:123-130 | every target type has a position in the creation order, and that position holds the type |
| Rendering.Renderer.constructor | AdvancedDX11Starter-main/Renderer.cpp:10-62 | handles stored, light-ray and refraction tunables at their literal starting values, drawPointMeshes on, the flags the source never initialises taken as given, and the eight targets built as PostResize builds them |
| Rendering.Renderer.PreResize | AdvancedDX11Starter-main/Renderer.cpp:106-110 | only the back-buffer and depth views are released; the target tables are outside its frame |
| Rendering.Renderer.PostResize | AdvancedDX11Starter-main/Renderer.cpp:112-133 | new size and views recorded, both tables replaced by the eight freshly created views, the textures and views maps extended by exactly the new targets |
| Rendering.Renderer.ResetTables | AdvancedDX11Starter-main/Renderer.cpp:120-121 | every RTV and SRV entry is released |
| Rendering.Renderer.CreateTargets | AdvancedDX11Starter-main/Renderer.cpp:123-130 | the eight targets are created in source order, 3 ids each, and the resulting views are the ones ResizedRtvs/ResizedSrvs name |
| Rendering.Renderer.StoreTargets | AdvancedDX11Starter-main/Renderer.cpp:123-130 | the tables hold exactly the created views |
| Rendering.Renderer.CreateRenderTarget | AdvancedDX11Starter-main/Renderer.cpp:379-406 | one texture of the given size and format, then a render-target view and a shader view of it, on consecutive ids |
| Rendering.ResizedTargetTexture | AdvancedDX11Starter-main/Renderer.cpp:123-130 | after a resize every target's texture has exactly the window size, R32_FLOAT for SCENE_DEPTHS and R8G8B8A8 otherwise |
| Rendering.ResizedTargetRtv | AdvancedDX11Starter-main/Renderer.cpp:123-130 | every type's RTV entry is a new id above every id used before, and a view of that type's new texture |
| Rendering.ResizedTargetSrv | AdvancedDX11Starter-main/Renderer.cpp:123-130 | every type's SRV entry is a new id, a view of that type's new texture |
| Rendering.ResizedViewsDistinct | AdvancedDX11Starter-main/Renderer.cpp:123-130 | the sixteen new views are pairwise distinct, and no RTV equals any SRV |
| Rendering.Renderer.GetRenderTargetSRV | AdvancedDX11Starter-main/Renderer.cpp:368-372 | null outside [0, 8), otherwise the SRV table entry of that type |
| Rendering.SelectSorted | AdvancedDX11Starter-main/Renderer.cpp:172-180 | the set-aside list holds only refractive entity indices, strictly increasing (original order) |
| Rendering.SelectOnce | AdvancedDX11Starter-main/Renderer.cpp:172-180 | every refractive entity appears in the set-aside list exactly once and no other entity appears |
| Rendering.GeometryDrawsShape | AdvancedDX11Starter-main/Renderer.cpp:175-207 | every geometry draw is of a non-refractive entity with its own pixel shader into the five scene targets |
| Rendering.PointLightDrawsShape | AdvancedDX11Starter-main/Renderer.cpp:458-497 | every light-mesh draw is of a point light among the first lightCount, scaled by range/20 and tinted by colour·intensity |
| Rendering.RefractionDrawsShape | AdvancedDX11Starter-main/Renderer.cpp:314-332 | the refraction pass draws each set-aside entity once, in order, with the refraction shader, into the back buffer without depth |
| Rendering.ParticleDrawsShape | AdvancedDX11Starter-main/Renderer.cpp:342-344 | one indexed draw per emitter, in list order, with that emitter's index count |
| Rendering.Renderer.Render | AdvancedDX11Starter-main/Renderer.cpp:135-366 | the frame appends exactly FrameTrace of the values read at its start, leaves every material's pixel shader as it was, and leaves the back buffer and depth view bound |
| Rendering.Renderer.DrawScene | AdvancedDX11Starter-main/Renderer.cpp:140-217 | clears, scene binding, geometry, optional point lights and the sky, and returns the refractive entities in order |
| Rendering.Renderer.ClearTargets | AdvancedDX11Starter-main/Renderer.cpp:141-149 | back buffer and depth cleared, every target cleared to black, then SCENE_DEPTHS cleared to (1,0,0,0) |
| Rendering.Renderer.BindScene | AdvancedDX11Starter-main/Renderer.cpp:151-170 | the five scene targets and the depth view are bound, then the back buffer and depth are cleared again |
| Rendering.Renderer.GeometryPass | AdvancedDX11Starter-main/Renderer.cpp:172-207 | non-refractive entities drawn in list order with their own shader; refractive ones collected, not drawn |
| Rendering.Renderer.DrawPointLights | AdvancedDX11Starter-main/Renderer.cpp:448-498 | exactly one mesh draw per point light among the first lightCount lights, others skipped |
| Rendering.Renderer.PostProcess | AdvancedDX11Starter-main/Renderer.cpp:219-305 | SSAO, blur, combine, the final copy and, if enabled, the light rays, in that order |
| Rendering.Renderer.SsaoPasses | AdvancedDX11Starter-main/Renderer.cpp:219-264 | SSAO into SSAO_RESULTS with slot 4 still SKY_AND_OCCLUDERS, blur into SSAO_BLUR, combine into FINAL_COMPOSITE, all without depth |
| Rendering.Renderer.FinalPass | AdvancedDX11Starter-main/Renderer.cpp:268-277 | the full-screen copy, reading the SCENE_COLORS_NO_AMBIENT shader view, into the back buffer without depth, then depth rebound |
| Rendering.Renderer.LightRayPass | AdvancedDX11Starter-main/Renderer.cpp:280-305 | one full-screen light-ray draw into the back buffer without depth |
| Rendering.Renderer.Overlay | AdvancedDX11Starter-main/Renderer.cpp:308-347 | optional refraction, then the particles, every material shader restored |
| Rendering.Renderer.Refraction | AdvancedDX11Starter-main/Renderer.cpp:309-333 | the refraction segment when useRefraction, nothing otherwise, so refractive entities are not drawn that frame |
| Rendering.Renderer.RefractionPass | AdvancedDX11Starter-main/Renderer.cpp:311-332 | back buffer bound without depth, then each set-aside entity drawn with the refraction shader, and every material's shader afterwards equals its value before |
| Rendering.Renderer.DrawRefracted | AdvancedDX11Starter-main/Renderer.cpp:315-331 | one draw with the refraction shader, and the material's own shader restored after it |
| Rendering.Renderer.ParticlePass | AdvancedDX11Starter-main/Renderer.cpp:335-347 | back buffer and depth bound, particle states on, one draw per emitter, states off |
| Rendering.Renderer.DrawEmitters | AdvancedDX11Starter-main/Renderer.cpp:342-344 | each emitter's Draw index count becomes one draw, in list order |
| Rendering.Renderer.Finish | AdvancedDX11Starter-main/Renderer.cpp:355-365 | present, rebind the back buffer and depth view, unbind the shader resources |
| FrameProperties.ClearEachLast | AdvancedDX11Starter-main/Renderer.cpp:144-146 | after the clear loop a view's last clear is black exactly when it is in the table, and absent otherwise |
| FrameProperties.FrameClears | AdvancedDX11Starter-main/Renderer.cpp:141-170 | at the first draw of a frame every target's last clear is black except SCENE_DEPTHS at (1,0,0,0), and the back buffer's is black |
| FrameProperties.GeometryDrawCount | AdvancedDX11Starter-main/Renderer.cpp:172-207 | an entity-mesh draw with a given shader occurs once exactly when the entity is non-refractive and the shader is its own, and never otherwise |
| FrameProperties.PointLightDrawCount | AdvancedDX11Starter-main/Renderer.cpp:458-497 | a light-mesh draw occurs once exactly when it is of a point light below lightCount with that light's scale and tint |
| FrameProperties.RefractionDrawCount | AdvancedDX11Starter-main/Renderer.cpp:314-332 | a refraction-shader draw of an entity occurs as often as the entity is in the set-aside list |
| FrameProperties.ParticleDrawCount | AdvancedDX11Starter-main/Renderer.cpp:342-344 | a particle draw occurs once exactly when it is of an emitter in the list with that emitter's index count |
| FrameProperties.SceneDrawCount | AdvancedDX11Starter-main/Renderer.cpp:140-217 | per draw kind, the opening of the frame issues the geometry, point-light and sky draws and nothing else |
| FrameProperties.PostDrawCount | AdvancedDX11Starter-main/Renderer.cpp:219-305 | the post chain issues one SSAO, one blur, one combine and one copy draw, and one light-ray draw exactly when enabled |
| FrameProperties.OverlayDrawCount | AdvancedDX11Starter-main/Renderer.cpp:308-347 | each refractive entity is drawn once with the refraction shader exactly when refraction is on, and each emitter once |
| FrameProperties.FrameDrawCounts | AdvancedDX11Starter-main/Renderer.cpp:135-366 | for every draw kind, the number of such draws in a frame equals ExpectedCount: refractive entities only with refraction on and only with the refraction shader, opaque entities once with their own shader, point lights only with the meshes on, one each of sky, SSAO, blur, combine and copy, light rays only when enabled, one draw per emitter, no bake draws |
| FrameProperties.SceneDraws | AdvancedDX11Starter-main/Renderer.cpp:172-217 | the draws before post-processing are geometry, then point lights if enabled, then the sky |
| FrameProperties.PostDraws | AdvancedDX11Starter-main/Renderer.cpp:219-305 | the post-processing draws are SSAO, blur, combine, copy and optionally light rays, each into the targets named; the copy reads the SCENE_COLORS_NO_AMBIENT shader view, and when that differs from FINAL_COMPOSITE's no draw copies the composite |
| FrameProperties.OverlayDraws | AdvancedDX11Starter-main/Renderer.cpp:308-347 | the final draws are the refraction draws when enabled, then the particle draws |
| FrameProperties.FramePassOrder | AdvancedDX11Starter-main/Renderer.cpp:172-347 | the draws of a whole frame, in order, are exactly FrameDraws: geometry, point lights, sky, SSAO, blur, combine, copy, light rays, refraction, particles |
| Sky.Log2Floor | AdvancedDX11Starter-main/Sky.cpp:314 | the integer part of log2: 2^r ≤ n < 2^(r+1) |
| Sky.Log2FloorMonotone | AdvancedDX11Starter-main/Sky.cpp:314 | a larger argument never has a smaller integer log2 |
| Sky.SpecMipLevels | AdvancedDX11Starter-main/Sky.cpp:314 | max(floor(log2 size) + 1 − skip, 1), in particular at least 1 |
| Sky.SpecMipLevelsMonotone | AdvancedDX11Starter-main/Sky.cpp:314 | the mip count does not decrease as the cube grows |
| Sky.MipViewportHalves | AdvancedDX11Starter-main/Sky.cpp:379-380 | each mip's viewport is half the previous one |
| Sky.MipViewportEnds | AdvancedDX11Starter-main/Sky.cpp:379-380 | for a power-of-two cube the top mip's viewport is the cube size when the max does not clamp |
| Sky.MipViewportLast | AdvancedDX11Starter-main/Sky.cpp:379-380 | the last mip's viewport is 2^skip |
| Sky.Roughness | AdvancedDX11Starter-main/Sky.cpp:386 | the roughness is undefined (a division by zero) exactly when there is one mip |
| Sky.RoughnessRamp | AdvancedDX11Starter-main/Sky.cpp:386 | with two or more mips roughness is 0 at mip 0, 1 at the last and strictly increasing in between |
| Sky.IrradianceBakeDraws | AdvancedDX11Starter-main/Sky.cpp:221-307 | exactly six draws, face f into its own view with no depth and the cube-size viewport |
| Sky.IrradianceBakeFlushed | AdvancedDX11Starter-main/Sky.cpp:275-301 | every irradiance draw is followed by a flush |
| Sky.SpecularBakeDraws | AdvancedDX11Starter-main/Sky.cpp:309-406 | exactly 6·mipLevels draws, mip-major then face 0..5, draw k into view base+2+k with mip k/6's viewport and roughness |
| Sky.SpecularBakeFlushed | AdvancedDX11Starter-main/Sky.cpp:360-399 | every specular draw is followed by a flush |
| Sky.BrdfBakeDraws | AdvancedDX11Starter-main/Sky.cpp:408-484 | exactly one draw, into the look-up view with the look-up-size viewport |
| Sky.BrdfBakeFlushed | AdvancedDX11Starter-main/Sky.cpp:458-479 | the BRDF draw is followed by a flush |
| Sky.BakeOrder | AdvancedDX11Starter-main/Sky.cpp:72-74 | construction draws the irradiance faces, then the specular mips, then the BRDF, 7 + 6·levels draws in all |
| Sky.BakeFlushed | AdvancedDX11Starter-main/Sky.cpp:72-74 | every draw issued during construction is followed by a flush |
| Sky.Sky.constructor | AdvancedDX11Starter-main/Sky.cpp:40-76 | the three bakes run in order with ids handed out consecutively, the mip count is stored, render target slot 0, the depth view and the viewport are restored (slot 0 alone is rebound); only the context's trace, ids, bindings and viewport change, so its texture and view tables are untouched |
| Sky.Sky.GetSpecIBLMipLevels | AdvancedDX11Starter-main/Sky.cpp:93-96 | returns the stored mip count, which is SpecMipLevels of the cube size and at least 1 |
| Sky.Sky.Draw | AdvancedDX11Starter-main/Sky.cpp:102-127 | one sky-box draw into whatever is bound |
| Sky.Sky.IBLCreateIrradianceMap | AdvancedDX11Starter-main/Sky.cpp:221-307 | the irradiance bake's events, its shader view stored, and the saved slot-0 target, depth view and viewport restored; the context's texture and view tables are untouched |
| Sky.Sky.IBLCreateConvolvedSpecularMap | AdvancedDX11Starter-main/Sky.cpp:309-406 | the mip count is set by the formula, the specular bake's events follow, and the saved slot-0 target, depth view and viewport are restored |
| Sky.Sky.IBLCreateBRDFLookUpTexture | AdvancedDX11Starter-main/Sky.cpp:408-484 | the BRDF bake's events, its view stored, and the saved slot-0 target, depth view and viewport restored |
| Sky.Sky.RenderSpecularMips | AdvancedDX11Starter-main/Sky.cpp:360-401 | the mip loop appends SpecularMips, six new views per mip |
| Scene.RandomPositionBounds | AdvancedDX11Starter-main/Game.cpp:591 | a scattered position lies in x∈[−10,10], y∈[−5,5], z∈[−10,10] |
| Scene.RandomPointLightBounds | AdvancedDX11Starter-main/Game.cpp:589-594 | a generated point light is of point type with position in that box, each colour channel in [0,1], range in [5,10] and intensity in [0.1,3] |
| Scene.Game.GenerateLights | AdvancedDX11Starter-main/Game.cpp:557-600 | the list becomes the three directional lights in order, then point lights up to max(3, lightCount) entries, light i drawn from sample i |
| Scene.GeneratedLightKinds | AdvancedDX11Starter-main/Game.cpp:557-600 | in a generated list an entry is directional exactly when its index is below 3, and every later entry is a point light within the drawn ranges |
| Scene.Game.RandomizeLights | AdvancedDX11Starter-main/Game.cpp:729 | the first lightCount lights get a new position, directional ones included; nothing else of any light changes and the length stays |
| Scene.RescatterKeepsRanges | AdvancedDX11Starter-main/Game.cpp:729 | re-scattering keeps every field but the position, and a point light inside the generated ranges stays inside them |
| Scene.Game.ToggleGui | AdvancedDX11Starter-main/Game.cpp:775-777 | the GUI flag flips |
| Scene.CreateEmitters | AdvancedDX11Starter-main/Game.cpp:467-543 | the list is snow (200 slots, 50 per second, lifetime 5) then flame (120, 20, 3) with their positions and spawn shapes, both empty and valid; the trace emitter is not in it |
| Scene.Game.constructor | AdvancedDX11Starter-main/Game.cpp:37-59 | the light count starts at 0 with an empty list and no renderer |
| Scene.Game.Init | AdvancedDX11Starter-main/Game.cpp:83-141 | two fresh valid emitters that share neither object nor particle array, lightCount 10, lights generated, the renderer created sharing the lights and emitters, GUI on |
| Scene.NewRenderer | AdvancedDX11Starter-main/Game.cpp:97-120 | a fresh renderer satisfying its invariant that holds the given context, sky, entities, light list, light count and emitters, with the window size and back-buffer and depth handles it was given |
| Scene.UpdateEach | AdvancedDX11Starter-main/Game.cpp:769-771 | for distinct emitters with distinct particle arrays, every emitter k ends as one Update from its own old live list and budget with the draws jitters(k), and they stay distinct and valid; only the ring cursors, live count, spawn budget and particle slots may change, so positions and index data are kept |
| Scene.StepAt | AdvancedDX11Starter-main/Game.cpp:770 | updating emitter i makes it one Update from its recorded state, leaves every later emitter's state and every earlier emitter's result as they were, and changes no particle array; only emitter i's ring cursors, count, budget and slots may change |
| Scene.Game.UpdateEmitters | AdvancedDX11Starter-main/Game.cpp:769-771 | every emitter in the game's list is updated once, in list order: emitter k ends as one Update (SteppedFrom) from its own state before the call, with the draws jitters(k); positions and index data are kept, as only the ring cursors, count, budget and particle slots may change |
| Scene.Game.Update | AdvancedDX11Starter-main/Game.cpp:767-778 | each emitter ends as one Update from its own old state, then Tab regenerates the lights, then 'I' flips the GUI flag; lights unchanged without Tab; emitter positions and index data are kept |
| Scene.Game.HandleKeys | AdvancedDX11Starter-main/Game.cpp:774-778 | Tab regenerates the lights from the draws, otherwise the list is unchanged; 'I' flips the GUI flag, otherwise it stays |
| Scene.Game.OnResize | AdvancedDX11Starter-main/Game.cpp:609-621 | the renderer's views are released, then its targets are rebuilt at the new size with the new views, the new textures and views entered in the context's tables; a valid renderer stays valid, and its light count, flags and other fields are untouched |
| Scene.Game.Draw | AdvancedDX11Starter-main/Game.cpp:785-789 | the renderer draws one frame over the game's own light list and light count |

## Left out

- Direct3D itself (buffers, shaders, blend, depth and rasterizer states, Map/Unmap, CopySubresourceRegion): calls that only set state are events in the trace or are not modelled. Constant-buffer contents and shader programs are not visible.
- Floating-point arithmetic: floats are reals, so rounding and the `float` comparisons of the spawn loop are exact in the model.
- `rand()`: every draw is a parameter. The order in which C++ evaluates the three `RandomRange` arguments of one vector constructor is unspecified, so `PointSample` names its draws by field.
- The SSAO offset kernel, the random texture, the camera and every matrix (view, projection, inverses, the sun's screen position) are floating-point setup with no trace effect. They are not modelled.
- ImGui, the sprite font and `DrawUI` are left out. That includes the "Draw Point Light Meshes" checkbox: it writes the game's `lightsOn`, which nothing reads, so the renderer's `drawPointMeshes` stays true.
- Asset loading is left out: shaders, textures, meshes, materials, entities and the sky cube map files. Entities, shader ids and the sky are parameters of `Scene.Game.Init`, and the sky cube size, skipped mips and look-up size are parameters of `Sky.Sky`.
- The Sky constructor that takes a ready-made cube map (Sky.cpp:7-38) is left out. It differs from the modelled one only in where the sky texture comes from.
- `Game::DrawPointLights` duplicates the renderer's version and is never called, so it is left out.
- Camera movement, Escape/Quit and the window base class are not modelled.
- Lights.h, Material.h, GameEntity.h and Sky.h are not part of this model:
  - the light record carries only the fields Game.cpp and Renderer.cpp use;
  - a material is its refractive flag plus a pixel-shader id;
  - an entity is its material.
- Heap management is not modelled: the destructor, `delete[]` of the old particle array, and ComPtr release other than resetting a table entry.
- Rendering.Renderer.Render: it reads the renderer's fields once, into a value snapshot (`Setup`), at the start of the frame. The source reads them as it goes. The two agree because nothing in a frame writes those fields.
- Rendering.Renderer.StoreTargets: the source creates each target straight into its table slot. The model creates all eight, then stores the two tables. The final state is the same, but the intermediate states inside PostResize are not modelled.
- Rendering.Renderer.Render: the `targets[]` array of the source is a five-element sequence value passed between the pass methods rather than an array updated in place.
- Scene.Game.GenerateLights: a negative `lightCount` is excluded by its precondition. The source compares it with an unsigned size, so such a count never ends the loop.
- Scene.Game.RandomizeLights: it requires `lightCount` to be at most the list length. The source indexes without a check, which is undefined behaviour beyond the end.
- Scene.Game.UpdateEmitters: it requires the emitters, and their particle arrays, to be pairwise distinct. The game's list is built that way (Scene.Game.Init); a list holding one emitter twice would update it twice.
- FrameProperties.FrameClears: it assumes that the table's views are distinct from the back buffer and from SCENE_DEPTHS's view, as a resize makes them (Rendering.ResizedViewsDistinct). With aliased views the source's last clear of a shared view would differ.
