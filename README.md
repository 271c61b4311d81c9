# GPU particle system bookkeeping, modelled in Dafny

This project models the CPU-side bookkeeping of the GPU particle engine declared in
`Src/Projects/shader_GPU_Particles/ParticleSystem.h` (namespace `GPUParticles`):

- `ParticleSystemConnections`, the registry of collision primitives, force fields and
  instance mesh patches. These are held by value in ordered tables. Beside them it keeps
  the shared instance vertex stream and the terrain texture id (`connections.dfy`,
  module `Connections`). The tables are `seq` fields of a class, and the setters reassign
  them.
- The two double-buffer index pairs of `ParticleSystem`: `mCurrVB`/`mCurrTFB` for the
  particle storage and `mSurfaceBack`/`mSurfaceFront` for the emitting surface. Each pair
  always holds the slots 0 and 1, one per role. Each swap exchanges the roles
  (`double_buffer.dfy`, module `DoubleBuffer`, and the class in `particle_system.dfy`).
- The plain parameter state of `ParticleSystem` (`particle_system.dfy`, module
  `Particles`): the reset flag, the maximum particle count, the lifetime, the connections
  pointer, and the last emitter position and 4x4 transform received from the host. The
  16-entry transform is an `array` that the copy loops fill entry by entry.
- `TextureInfo`, the description of the surface texture, and its byte-size arithmetic.

C++ integer width is explicit (`cpp_int.dfy`, module `CppInt`):
- `int` and `unsigned int` are the subset types `Int32` and `UInt32`.
- `static_cast<int>` of a container size keeps the low 32 bits as two's complement.
- `int` division truncates toward zero.

So a patch table longer than `INT_MAX` entries reads back a negative patch count. That
length is reachable, because the patch count is passed as an `unsigned int`.

The single- and double-precision floats are datatypes over their IEEE 754 bit patterns.
The casts between them (`(float)` and `(double)`) are function-valued parameters of the
copy operations, so the model fixes which index goes where and not how a value is rounded.

Most of the registry and swap operations are only declared in the header. Their bodies
live in an implementation file that is not part of this model. The model gives them the
behaviour their names and the header's comments fix (the comment on `SwapBuffers` at
`ParticleSystem.h:377` calls it the operation that switches the update and render
double-buffers):
- a count setter is `std::vector::resize`;
- a data setter overwrites one entry;
- `SetInstanceVertexStream` stores the stream and resizes the patch table;
- a swap exchanges the two indices of its pair;
- `NeedReset` raises the reset flag;
- the `ParticleSystem` constructor stores `maxparticles` as the maximum particle count.

The surface pair is read as "front is read by the simulation, back receives the next
upload", as the names suggest; the header does not say which slot an upload writes, and
the swap contract does not depend on it.

## Model

| member | source | states |
|---|---|---|
| CppInt.SizeToInt | Src/Projects/shader_GPU_Particles/ParticleSystem.h:56-61 | the `int` cast of a size is congruent to it modulo 2^32; it equals the size up to `INT_MAX` and is negative for sizes between `INT_MAX` and 2^32 (it wraps again from 2^32 on) |
| CppInt.DivTrunc | Src/Projects/shader_GPU_Particles/ParticleSystem.h:297 | C++ `/` by a positive divisor: the remainder lies strictly between -b and b and has the sign of the dividend, and the quotient has the dividend's sign |
| Connections.Resized | Src/Projects/shader_GPU_Particles/ParticleSystem.h:45 | `resize(n)` yields exactly n entries: the old entries below n are kept and every new entry is the value-initialised element |
| Connections.ParticleSystemConnections.constructor | Src/Projects/shader_GPU_Particles/ParticleSystem.h:97-105 | all three tables start empty and the terrain texture id starts at 0 |
| Connections.ParticleSystemConnections.GetNumberOfCollisions | Src/Projects/shader_GPU_Particles/ParticleSystem.h:56-58 | the reported collision count is the length of the collision table (the cast never wraps while the table is no longer than `INT_MAX`) |
| Connections.ParticleSystemConnections.GetNumberOfForces | Src/Projects/shader_GPU_Particles/ParticleSystem.h:59-61 | the reported force count is the length of the force table |
| Connections.ParticleSystemConnections.GetNumberOfInstanceSubPatches | Src/Projects/shader_GPU_Particles/ParticleSystem.h:82-85 | the reported patch count is the table length up to `INT_MAX`, and the length minus 2^32 (negative) above it |
| Connections.ParticleSystemConnections.GetInstanceVertexStream | Src/Projects/shader_GPU_Particles/ParticleSystem.h:87-90 | returns the stored instance vertex stream |
| Connections.ParticleSystemConnections.GetInstanceMeshVector | Src/Projects/shader_GPU_Particles/ParticleSystem.h:91-93 | returns the patch table as a value (the mutable reference is not modelled, see Left out) |
| Connections.ParticleSystemConnections.GetTextureTerrain | Src/Projects/shader_GPU_Particles/ParticleSystem.h:77-80 | returns the stored terrain texture id |
| Connections.ParticleSystemConnections.SetTextureTerrain | Src/Projects/shader_GPU_Particles/ParticleSystem.h:72-80 | afterwards `GetTextureTerrain()` returns the id given; nothing else changes |
| Connections.ParticleSystemConnections.SetCollisionsCount | Src/Projects/shader_GPU_Particles/ParticleSystem.h:45 | afterwards `GetNumberOfCollisions()` is the count given and the table is the old one resized; the force and patch tables are untouched |
| Connections.ParticleSystemConnections.SetCollisionData | Src/Projects/shader_GPU_Particles/ParticleSystem.h:46 | for an index below the count, entry i becomes the data; every other entry, the count and the other tables are unchanged |
| Connections.ParticleSystemConnections.SetForcesCount | Src/Projects/shader_GPU_Particles/ParticleSystem.h:49 | afterwards `GetNumberOfForces()` is the count given and the table is the old one resized; the collision and patch tables are untouched |
| Connections.ParticleSystemConnections.SetForceData | Src/Projects/shader_GPU_Particles/ParticleSystem.h:50 | for an index below the count, entry i becomes the data; every other entry, the count and the other tables are unchanged |
| Connections.ParticleSystemConnections.SetInstanceVertexStream | Src/Projects/shader_GPU_Particles/ParticleSystem.h:53 | afterwards `GetInstanceVertexStream()` is the stream given and the patch table has exactly `patchCount` entries, so the reported patch count is `patchCount` up to `INT_MAX` |
| Connections.ParticleSystemConnections.SetInstancePatchData | Src/Projects/shader_GPU_Particles/ParticleSystem.h:54 | patch i becomes the (offset, size, texId) record; every other patch, the patch count and the other tables are unchanged |
| DoubleBuffer.Swap | Src/Projects/shader_GPU_Particles/ParticleSystem.h:377 | the slot just written becomes the one read; a complementary pair stays complementary and both of its roles change slot |
| DoubleBuffer.SwapInvolutive | Src/Projects/shader_GPU_Particles/ParticleSystem.h:377-378 | two swaps restore the original pair |
| DoubleBuffer.SwapTimesParity | Src/Projects/shader_GPU_Particles/ParticleSystem.h:377 | after any number of swaps the pair is still complementary; it is the starting pair exactly when the number of swaps is even, and the swapped pair otherwise |
| Particles.NarrowedMatrix | Src/Projects/shader_GPU_Particles/ParticleSystem.h:174-178 | exactly 16 entries, entry i narrowed from host entry i |
| Particles.WidenedMatrix | Src/Projects/shader_GPU_Particles/ParticleSystem.h:179-183 | same length as the matrix, entry i widened from matrix entry i |
| Particles.MatrixRoundTrip | Src/Projects/shader_GPU_Particles/ParticleSystem.h:174-183 | setting the transform from doubles and reading it back returns the first 16 host entries unchanged when every entry survives the float round trip |
| Particles.TextureInfo.GetPixelMemorySize | Src/Projects/shader_GPU_Particles/ParticleSystem.h:296-298 | with no partial channel sum overflowing `int`, bytes per pixel are the channel bits divided by 8 and truncated toward zero (8r <= bits < 8r+8 for non-negative bits, mirrored for negative); non-negative channels give a non-negative size |
| Particles.TextureInfo.GetImageSize | Src/Projects/shader_GPU_Particles/ParticleSystem.h:300-302 | with no `int` overflow, the image size is non-negative for non-negative fields, and zero exactly when the width, the height or the pixel size is zero |
| Particles.ParticleSystem.constructor | Src/Projects/shader_GPU_Particles/ParticleSystem.h:118 | starts with the reset flag raised, the given capacity, no connections, particle pair (VB 0, TFB 1) and surface pair (back 0, front 1) |
| Particles.ParticleSystem.IsNeedReset | Src/Projects/shader_GPU_Particles/ParticleSystem.h:130-133 | returns the stored reset flag |
| Particles.ParticleSystem.NeedReset | Src/Projects/shader_GPU_Particles/ParticleSystem.h:129-133 | afterwards `IsNeedReset()` is true |
| Particles.ParticleSystem.SetMaxParticles | Src/Projects/shader_GPU_Particles/ParticleSystem.h:146-149 | the maximum particle count becomes the value given; nothing else changes |
| Particles.ParticleSystem.SetLifeTime | Src/Projects/shader_GPU_Particles/ParticleSystem.h:150-153 | the lifetime becomes the value given; nothing else changes |
| Particles.ParticleSystem.SetConnections | Src/Projects/shader_GPU_Particles/ParticleSystem.h:242-245 | the system now refers to the registry given; nothing else changes |
| Particles.ParticleSystem.SetLastEmitterPosition | Src/Projects/shader_GPU_Particles/ParticleSystem.h:155-158 | the `nv::vec3` overload: the stored position becomes the vector given |
| Particles.ParticleSystem.SetLastEmitterPos | Src/Projects/shader_GPU_Particles/ParticleSystem.h:159-162 | host components 0, 1, 2 become x, y, z, each narrowed |
| Particles.ParticleSystem.GetLastEmitterPos | Src/Projects/shader_GPU_Particles/ParticleSystem.h:163-168 | host entries 0, 1, 2 receive x, y, z widened; entries from 3 on are unchanged |
| Particles.ParticleSystem.SetLastEmitterTransform | Src/Projects/shader_GPU_Particles/ParticleSystem.h:170-173 | the `nv::mat4` overload: the stored 16 entries become the matrix given |
| Particles.ParticleSystem.SetLastEmitterTM | Src/Projects/shader_GPU_Particles/ParticleSystem.h:174-178 | the stored transform is `NarrowedMatrix` of the host array: entry i from entry i, for i in 0..15 |
| Particles.ParticleSystem.GetLastEmitterTransform | Src/Projects/shader_GPU_Particles/ParticleSystem.h:179-183 | host entries 0..15 become `WidenedMatrix` of the stored transform; entries from 16 on are unchanged |
| Particles.ParticleSystem.SwapBuffers | Src/Projects/shader_GPU_Particles/ParticleSystem.h:377 | the (`mCurrVB`, `mCurrTFB`) pair becomes `Swap` of the old one and stays complementary |
| Particles.ParticleSystem.SwapSurfaceBuffers | Src/Projects/shader_GPU_Particles/ParticleSystem.h:378 | the (`mSurfaceFront`, `mSurfaceBack`) pair becomes `Swap` of the old one, so the copy just uploaded to the back becomes the front, and stays complementary |
| Particles.EmitterTransformRoundTrip | Src/Projects/shader_GPU_Particles/ParticleSystem.h:174-183 | setting the transform from one host array and reading it into another fills entries 0..15 with the round-tripped source entries, and leaves the rest alone |
| Particles.SwapBuffersTwice | Src/Projects/shader_GPU_Particles/ParticleSystem.h:342-343 | two simulation-step swaps in a row restore `mCurrVB` and `mCurrTFB` |

## Left out

- GPU work is not modelled, because it is foreign OpenGL calls whose bodies are not in the header. This covers `UploadCollisionsToGPU`, `UploadForcesToGPU`, `BindCollisions`, `BindForces`, the SSBO and NV buffers, transform feedback, the query object, `SimulateParticles`, `RenderParticles` and the render techniques, `ReloadShaders`, `ChangeDisplayContext`, `InitParticleSystem`, `ClearParticleSystem` and the noise texture.
- Emission sampling is not modelled: `GenerateParticle`, `GenerateParticleColor`, `GenerateParticleSize`, the `GetRandom*` helpers, `GetRandomSpeed` and the spherical conversions. It depends on the random engine and float trigonometry, and its bodies are not in the header.
- `ResetParticles`, `PrepareParticles`, `EmitParticles`, `EmitterSurfaceUpdateOnCPU`, `EmitterSurfaceUpdateOnGPU`, `UploadSurfaceDataToGPU`, `SetParticleSize`, `SetParticleColor`, `SetRenderSizeAndColorCurves`, `GetSimulationData` and `GetRenderData` are not modelled. Their rules (clamping, validation, emission counts) are in the implementation file, which is not part of this model. So nothing here clears the reset flag.
- `GetTotalCycles`, `GetDisplayedCount` and the fields they read (`mTotalCycles`, `mInstanceCount`) are not modelled, because no body in the header writes them; they are set only in the implementation file (for example by `SimulateParticles`).
- The rounding of the float/double casts is not modelled. The casts are parameters, and `MatrixRoundTrip` states the round trip under the assumption that each entry survives it.
- `GetInstanceMeshVector` returns a mutable reference in C++. The model returns the table as a value, so writes made through that reference are not captured. Patch contents are written only through `SetInstancePatchData`; the table is resized by `SetInstanceVertexStream`.
- `PerModelUserData` is a plain public record with no operations, and is not modelled.
- The default argument 1048576 of the constructor's `maxparticles` is not modelled: callers of the model always pass the capacity.
- Connections.ParticleSystemConnections.SetCollisionsCount: a negative count is excluded by `requires`. Converting it to `size_t` is not fixed by the header.
- Connections.ParticleSystemConnections.SetForcesCount: a negative count is excluded by `requires`, for the same reason.
- Connections.ParticleSystemConnections.SetInstancePatchData: patches are written without checking that they lie within the vertex stream or do not overlap other patches, and no overlapping update is rejected. The header shows no such check, and `TInstanceVertexStream` is opaque here, so its extent is unknown.
- Connections.ParticleSystemConnections.SetCollisionData, SetForceData and SetInstancePatchData require an index below the current count. Indexing a `std::vector` out of range has no defined behaviour.
- Particles.ParticleSystem.constructor: the initial contents of the transform, the initial emitter position and the initial lifetime are left unspecified, because the default constructors of `nv::mat4` and `nv::vec3` and the constructor body are not in the header.
- Connections.ParticleSystemConnections.constructor: the initial instance vertex stream is left unspecified, because the constructor body and `TInstanceVertexStream` are not in the header.
- Particles.TextureInfo.GetPixelMemorySize and GetImageSize require that no partial sum or product, evaluated left to right, overflows `int`. Signed overflow is undefined in C++.
