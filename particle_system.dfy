// The CPU-side bookkeeping of `ParticleSystem`: the reset flag, the capacity
// and lifetime parameters, the last emitter position and transform handed
// over by the host, the two double-buffer index pairs, and the size
// arithmetic of the surface texture description. Everything the class does on
// the GPU, and the random emission sampling, is outside this model.
module Particles {
  import opened CppInt
  import opened DoubleBuffer
  import Connections

  /** A single-precision float as stored by the engine, by its IEEE 754 bits. */
  datatype Float = Float(bits: bv32)
  /** A double-precision float as exchanged with the host, by its IEEE 754 bits. */
  datatype Double = Double(bits: bv64)

  /** `nv::vec3`. */
  datatype Vec3 = Vec3(x: Float, y: Float, z: Float)

  /** Entries in the flat array of an `nv::mat4`. */
  const MatrixEntries: nat := 16

  /** The 16 transform entries of `tm`, each narrowed to single precision. */
  function NarrowedMatrix(tm: seq<Double>, narrow: Double -> Float): (m: seq<Float>)
    requires |tm| >= MatrixEntries
    ensures |m| == MatrixEntries
    ensures forall i :: 0 <= i < MatrixEntries ==> m[i] == narrow(tm[i])
  {
    seq(MatrixEntries, i requires 0 <= i < MatrixEntries => narrow(tm[i]))
  }

  /** The transform entries widened to double precision. */
  function WidenedMatrix(m: seq<Float>, widen: Float -> Double): (tm: seq<Double>)
    ensures |tm| == |m|
    ensures forall i :: 0 <= i < |m| ==> tm[i] == widen(m[i])
  {
    seq(|m|, i requires 0 <= i < |m| => widen(m[i]))
  }

  /** Handing a transform to the engine and reading it back returns the first
      16 entries unchanged whenever every entry survives the float round trip. */
  lemma MatrixRoundTrip(tm: seq<Double>, narrow: Double -> Float, widen: Float -> Double)
    requires |tm| >= MatrixEntries
    requires forall i :: 0 <= i < MatrixEntries ==> widen(narrow(tm[i])) == tm[i]
    ensures WidenedMatrix(NarrowedMatrix(tm, narrow), widen) == tm[..MatrixEntries]
  {
  }

  /** The surface texture description used for colour inheritance: bits per
      channel and the image dimensions, all C++ `int`. */
  datatype TextureInfo = TextureInfo(red: Int32, green: Int32, blue: Int32, alpha: Int32,
                                     width: Int32, height: Int32)
  {
    /** The channel sum is evaluated left to right in `int`; no partial sum
        may overflow. */
    predicate PixelSizeDefined()
    {
      InInt32(red + green) && InInt32(red + green + blue) &&
      InInt32(red + green + blue + alpha)
    }

    predicate ChannelsNonNegative()
    {
      red >= 0 && green >= 0 && blue >= 0 && alpha >= 0
    }

    /** Bytes per pixel: the total channel bits divided by 8, truncated toward
        zero as C++ does. */
    function GetPixelMemorySize(): (r: Int32)
      requires PixelSizeDefined()
      ensures var bits := red + green + blue + alpha;
        (bits >= 0 ==> 8 * r <= bits < 8 * r + 8) &&
        (bits < 0 ==> 8 * r - 8 < bits <= 8 * r)
      ensures ChannelsNonNegative() ==> r >= 0
    {
      DivTrunc(red + green + blue + alpha, 8)
    }

    /** `width * height * GetPixelMemorySize()` is evaluated left to right in
        `int`; neither product may overflow. */
    predicate ImageSizeDefined()
    {
      PixelSizeDefined() && InInt32(width * height) &&
      InInt32(width * height * GetPixelMemorySize())
    }

    /** Bytes of the whole image. */
    function GetImageSize(): (r: Int32)
      requires ImageSizeDefined()
      ensures ChannelsNonNegative() && width >= 0 && height >= 0 ==> r >= 0
      ensures r == 0 <==> width == 0 || height == 0 || GetPixelMemorySize() == 0
    {
      var p := GetPixelMemorySize();
      ProductZero(width, height, p);
      ProductSign(width, height, p);
      width * height * p
    }
  }

  /** A product of three integers is zero exactly when one factor is. */
  lemma ProductZero(a: int, b: int, c: int)
    ensures a * b * c == 0 <==> a == 0 || b == 0 || c == 0
  {
  }

  /** A product of three non-negative integers is non-negative. */
  lemma ProductSign(a: int, b: int, c: int)
    ensures a >= 0 && b >= 0 && c >= 0 ==> a * b * c >= 0
  {
  }

  class ParticleSystem {
    var needReset: bool
    var maxParticles: UInt32
    var lifeTime: UInt32
    var lastEmitterPos: Vec3
    /** `mLastEmitterTransform.mat_array`. */
    const lastEmitterTransform: array<Float>
    var connections: Connections.ParticleSystemConnections?

    /** `mCurrVB` (read by the next pass) and `mCurrTFB` (written by it). */
    var currVB: UInt32
    var currTFB: UInt32
    /** `mSurfaceBack` and `mSurfaceFront`: the front copy is read by the
        simulation, the back copy receives the next surface upload. */
    var surfaceBack: UInt32
    var surfaceFront: UInt32

    ghost function ParticleBuffers(): IndexPair
      reads this
    {
      IndexPair(currVB, currTFB)
    }

    ghost function SurfaceBuffers(): IndexPair
      reads this
    {
      IndexPair(surfaceFront, surfaceBack)
    }

    /** Both index pairs address the two slots of their buffer arrays, one
        role each, and the transform has the 16 entries of a 4x4 matrix. */
    ghost predicate Valid()
      reads this
    {
      lastEmitterTransform.Length == MatrixEntries &&
      Complementary(ParticleBuffers()) && Complementary(SurfaceBuffers())
    }

    constructor (maxparticles: UInt32)
      ensures Valid() && fresh(lastEmitterTransform)
      ensures needReset
      ensures maxParticles == maxparticles
      ensures connections == null
      ensures ParticleBuffers() == IndexPair(0, 1)
      ensures surfaceBack == 0 && surfaceFront == 1
    {
      needReset := true;
      maxParticles := maxparticles;
      lastEmitterTransform := new Float[MatrixEntries];
      connections := null;
      currVB, currTFB := 0, 1;
      surfaceBack, surfaceFront := 0, 1;
    }

    function IsNeedReset(): (reset: bool)
      reads this
      ensures reset == needReset
    {
      needReset
    }

    /** Requests a reset before the next simulation step. */
    method NeedReset()
      modifies this`needReset
      ensures IsNeedReset()
    {
      needReset := true;
    }

    method SetMaxParticles(count: UInt32)
      modifies this`maxParticles
      ensures maxParticles == count
    {
      maxParticles := count;
    }

    method SetLifeTime(value: UInt32)
      modifies this`lifeTime
      ensures lifeTime == value
    {
      lifeTime := value;
    }

    method SetConnections(pConnections: Connections.ParticleSystemConnections?)
      modifies this`connections
      ensures connections == pConnections
    {
      connections := pConnections;
    }

    /** The `nv::vec3` overload: the position is copied as a value. */
    method SetLastEmitterPosition(lastpos: Vec3)
      modifies this`lastEmitterPos
      ensures lastEmitterPos == lastpos
    {
      lastEmitterPos := lastpos;
    }

    /** The `const double *` overload: components 0, 1, 2 become x, y, z. */
    method SetLastEmitterPos(lastpos: array<Double>, narrow: Double -> Float)
      requires lastpos.Length >= 3
      modifies this`lastEmitterPos
      ensures lastEmitterPos == Vec3(narrow(lastpos[0]), narrow(lastpos[1]), narrow(lastpos[2]))
    {
      lastEmitterPos := Vec3(narrow(lastpos[0]), narrow(lastpos[1]), narrow(lastpos[2]));
    }

    /** Writes x, y, z to components 0, 1, 2 of the caller's array and nothing else. */
    method GetLastEmitterPos(lastpos: array<Double>, widen: Float -> Double)
      requires lastpos.Length >= 3
      modifies lastpos
      ensures lastpos[..3] == [widen(lastEmitterPos.x), widen(lastEmitterPos.y), widen(lastEmitterPos.z)]
      ensures lastpos[3..] == old(lastpos[3..])
    {
      lastpos[0] := widen(lastEmitterPos.x);
      lastpos[1] := widen(lastEmitterPos.y);
      lastpos[2] := widen(lastEmitterPos.z);
    }

    /** The `nv::mat4` overload: the matrix is copied as a value. */
    method SetLastEmitterTransform(tm: seq<Float>)
      requires Valid()
      requires |tm| == MatrixEntries
      modifies lastEmitterTransform
      ensures Valid()
      ensures lastEmitterTransform[..] == tm
    {
      forall i | 0 <= i < MatrixEntries {
        lastEmitterTransform[i] := tm[i];
      }
    }

    /** The `const double *` overload: entry i of the matrix is narrowed from
        entry i of `tm`, for i in 0..15. */
    method SetLastEmitterTM(tm: array<Double>, narrow: Double -> Float)
      requires Valid()
      requires tm.Length >= MatrixEntries
      modifies lastEmitterTransform
      ensures Valid()
      ensures lastEmitterTransform[..] == NarrowedMatrix(tm[..], narrow)
    {
      var i := 0;
      while i < MatrixEntries
        invariant 0 <= i <= MatrixEntries
        invariant forall k :: 0 <= k < i ==> lastEmitterTransform[k] == narrow(tm[k])
      {
        lastEmitterTransform[i] := narrow(tm[i]);
        i := i + 1;
      }
    }

    /** Entry i of `tm` is widened from entry i of the matrix, for i in 0..15;
        the rest of `tm` is left alone. */
    method GetLastEmitterTransform(tm: array<Double>, widen: Float -> Double)
      requires Valid()
      requires tm.Length >= MatrixEntries
      modifies tm
      ensures tm[..MatrixEntries] == WidenedMatrix(lastEmitterTransform[..], widen)
      ensures tm[MatrixEntries..] == old(tm[MatrixEntries..])
    {
      var i := 0;
      while i < MatrixEntries
        invariant 0 <= i <= MatrixEntries
        invariant forall k :: 0 <= k < i ==> tm[k] == widen(lastEmitterTransform[k])
        invariant tm[MatrixEntries..] == old(tm[MatrixEntries..])
      {
        tm[i] := widen(lastEmitterTransform[i]);
        i := i + 1;
      }
    }

    /** After a simulation step the buffer just written becomes the one read. */
    method SwapBuffers()
      requires Valid()
      modifies this`currVB, this`currTFB
      ensures Valid()
      ensures ParticleBuffers() == Swap(old(ParticleBuffers()))
    {
      currVB, currTFB := currTFB, currVB;
    }

    /** After a surface upload the copy just written becomes the one read. */
    method SwapSurfaceBuffers()
      requires Valid()
      modifies this`surfaceBack, this`surfaceFront
      ensures Valid()
      ensures SurfaceBuffers() == Swap(old(SurfaceBuffers()))
    {
      surfaceBack, surfaceFront := surfaceFront, surfaceBack;
    }
  }

  /** Setting the emitter transform from the host's doubles and reading it
      back delivers entry i from entry i, for exactly the 16 matrix entries. */
  method EmitterTransformRoundTrip(ps: ParticleSystem, src: array<Double>, dst: array<Double>,
                                   narrow: Double -> Float, widen: Float -> Double)
    requires ps.Valid()
    requires src.Length >= MatrixEntries && dst.Length >= MatrixEntries
    modifies ps.lastEmitterTransform, dst
    ensures forall i :: 0 <= i < MatrixEntries ==> dst[i] == widen(narrow(old(src[i])))
    ensures dst[MatrixEntries..] == old(dst[MatrixEntries..])
  {
    ps.SetLastEmitterTM(src, narrow);
    ps.GetLastEmitterTransform(dst, widen);
  }

  /** Two simulation steps in a row hand the original buffer back to the reader. */
  method SwapBuffersTwice(ps: ParticleSystem)
    requires ps.Valid()
    modifies ps`currVB, ps`currTFB
    ensures ps.Valid()
    ensures ps.currVB == old(ps.currVB) && ps.currTFB == old(ps.currTFB)
  {
    ps.SwapBuffers();
    ps.SwapBuffers();
    SwapInvolutive(old(ps.ParticleBuffers()));
  }
}
