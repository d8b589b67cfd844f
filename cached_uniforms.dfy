/** Change-detecting cached uniforms: a float uniform and a four-component
    float vector uniform. Each keeps its last value, reports whether a freshly
    supplied value differs from it, and uploads the cached value to a GPU
    program at a uniform location. The GL upload calls are modelled as events
    appended to a log. */
module CachedUniforms {
  import opened JavaLang
  import opened StarevalFunction

  /** How often a uniform is recomputed. Only stored here: the scheduling that
      reads it belongs to the base class, which is not part of this model. */
  datatype UpdateFrequency = Once | PerTick | PerFrame | Custom

  /** The kinds of values of the expression language. */
  datatype ValueType = Boolean | Int | Float | Vec2 | Vec3 | Vec4

  /** How many scalar components an upload of a value of type `t` carries. */
  function ComponentCount(t: ValueType): nat {
    match t
    case Boolean => 1
    case Int => 1
    case Float => 1
    case Vec2 => 2
    case Vec3 => 3
    case Vec4 => 4
  }

  /** One upload call: `glUniform1f` or `glUniform4f` at a location. */
  datatype Upload =
    | Uniform1f(location: int32, v0: Float32)
    | Uniform4f(location: int32, x: Float32, y: Float32, z: Float32, w: Float32)
  {
    /** The components the call sends, in argument order. */
    function Components(): seq<Float32> {
      match this
      case Uniform1f(_, v0) => [v0]
      case Uniform4f(_, x, y, z, w) => [x, y, z, w]
    }
  }

  /** The GPU side as seen from the uniforms: the uploads made so far, in order. */
  class UploadSink {
    ghost var uploads: seq<Upload>

    constructor ()
      ensures uploads == []
    {
      uploads := [];
    }
  }

  /** A float uniform fed by a float supplier. The supplied value and the
      uniform's location come from collaborators outside this model, so they
      are parameters of the methods that use them. */
  class FloatCachedUniform {
    const updateFrequency: UpdateFrequency
    var cached: Float32

    constructor (updateFrequency: UpdateFrequency)
      ensures this.updateFrequency == updateFrequency
      ensures cached == PositiveZero
    {
      this.updateFrequency := updateFrequency;
      cached := PositiveZero;
    }

    /** Stores the supplied value and reports whether it differs, under Java's
        `!=` on floats, from the value cached before. */
    method DoUpdate(supplied: Float32) returns (changed: bool)
      modifies this`cached
      ensures cached == supplied
      ensures changed <==> FloatNotEqual(old(cached), supplied)
    {
      var prev := cached;
      cached := supplied;
      changed := FloatNotEqual(prev, cached);
    }

    /** Uploads the cached value as one float at `location`; the cache is left as it was. */
    method Push(location: int32, sink: UploadSink)
      modifies sink
      ensures sink.uploads == old(sink.uploads) + [Uniform1f(location, cached)]
      ensures |Uniform1f(location, cached).Components()| == ComponentCount(GetType())
    {
      sink.uploads := sink.uploads + [Uniform1f(location, cached)];
    }

    /** Copies the cached value into the float slot; no other slot is written. */
    method WriteTo(ret: FunctionReturn)
      modifies ret`floatReturn
      ensures ret.floatReturn == cached
    {
      ret.floatReturn := cached;
    }

    /** The uniform's value type: a float, uploaded as one component. */
    function GetType(): (t: ValueType)
      ensures t == Float && ComponentCount(t) == 1
    {
      Float
    }
  }

  /** Two updates in a row with the same non-NaN value: the second reports no change. */
  method UpdateTwiceWithSameValue(u: FloatCachedUniform, v: Float32) returns (first: bool, second: bool)
    requires !IsNaN(v)
    modifies u
    ensures first <==> FloatNotEqual(old(u.cached), v)
    ensures !second && u.cached == v
  {
    first := u.DoUpdate(v);
    FloatNotEqualIrreflexive(v);
    second := u.DoUpdate(v);
  }

  /** A NaN supplied twice in a row is reported as a change both times. */
  method UpdateTwiceWithNaN(u: FloatCachedUniform, v: Float32) returns (first: bool, second: bool)
    requires IsNaN(v)
    modifies u
    ensures first && second
  {
    NaNAlwaysDiffers(v, u.cached);
    first := u.DoUpdate(v);
    NaNAlwaysDiffers(v, v);
    second := u.DoUpdate(v);
  }

  /** The mutable four-component float vector the vector uniform caches into
      (the vendored JOML `Vector4f`). */
  class Vector4f {
    var x: Float32
    var y: Float32
    var z: Float32
    var w: Float32

    /** The no-argument constructor builds (0, 0, 0, 1). */
    constructor ()
      ensures x == PositiveZero && y == PositiveZero && z == PositiveZero && w == PositiveOne
    {
      x, y, z, w := PositiveZero, PositiveZero, PositiveZero, PositiveOne;
    }

    /** Copies the four components of `v` into this vector. */
    method Set(v: Vector4f)
      modifies this
      ensures x == old(v.x) && y == old(v.y) && z == old(v.z) && w == old(v.w)
    {
      x, y, z, w := v.x, v.y, v.z, v.w;
    }
  }

  /** A vec4 uniform. Its cache is a vector object of its own, allocated by the
      constructor and updated in place afterwards. */
  class Float4VectorCachedUniform {
    const updateFrequency: UpdateFrequency
    const cached: Vector4f

    constructor (updateFrequency: UpdateFrequency)
      ensures this.updateFrequency == updateFrequency
      ensures fresh(cached)
      ensures cached.x == PositiveZero && cached.y == PositiveZero
      ensures cached.z == PositiveZero && cached.w == PositiveOne
    {
      this.updateFrequency := updateFrequency;
      cached := new Vector4f();
    }

    /** Copies `other` component by component into the existing cache object. */
    method SetFrom(other: Vector4f)
      modifies cached
      ensures cached.x == old(other.x) && cached.y == old(other.y)
      ensures cached.z == old(other.z) && cached.w == old(other.w)
    {
      cached.Set(other);
    }

    /** Uploads the cached vector as four floats at `location`, in the order
        x, y, z, w; the cache is left as it was. */
    method Push(location: int32, sink: UploadSink)
      modifies sink
      ensures sink.uploads == old(sink.uploads) + [Uniform4f(location, cached.x, cached.y, cached.z, cached.w)]
      ensures |Uniform4f(location, cached.x, cached.y, cached.z, cached.w).Components()| == ComponentCount(GetType())
    {
      sink.uploads := sink.uploads + [Uniform4f(location, cached.x, cached.y, cached.z, cached.w)];
    }

    /** The uniform's value type: a four-component vector, uploaded as four components. */
    function GetType(): (t: ValueType)
      ensures t == Vec4 && ComponentCount(t) == 4
    {
      Vec4
    }
  }

  /** The cache is a copy: changing the source vector after `setFrom` does not
      change what the uniform holds or uploads. */
  method SetFromThenChangeSource(u: Float4VectorCachedUniform, source: Vector4f, x: Float32,
                                 location: int32, sink: UploadSink)
    requires source != u.cached
    modifies u.cached, source, sink
    ensures u.cached.x == old(source.x) && u.cached.y == old(source.y)
    ensures u.cached.z == old(source.z) && u.cached.w == old(source.w)
    ensures source.x == x
    ensures sink.uploads == old(sink.uploads) + [Uniform4f(location, old(source.x), old(source.y), old(source.z), old(source.w))]
  {
    u.SetFrom(source);
    source.x := x;
    u.Push(location, sink);
  }
}
