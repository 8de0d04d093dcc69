/**
  Binding values to the uniform inputs of an appearance.

  An appearance holds one value per uniform slot of its effect. Each setter
  looks the uniform up by name, checks its data-type tag, checks the length
  of the caller's flattened buffer against the element count and the tag's
  component count, and only then overwrites that one slot. Every failure is
  reported as a Status and leaves all slots as they were.
 */
module Appearance {
  import opened Effect

  /** The outcome of one setter call; the three errors are the exceptions the setters throw. */
  datatype Status = Ok | NotFound | TypeMismatch | ArityMismatch

  /** An opaque reference to a texture sampler owned by the renderer. */
  datatype SamplerRef = SamplerRef(id: nat)

  /** What an appearance stores for one uniform: its elements in buffer order, or a sampler. */
  datatype SlotValue =
    | FloatValues(floats: seq<seq<F32>>)
    | IntValues(ints: seq<seq<I32>>)
    | Texture(sampler: SamplerRef)

  type Slots = map<string, SlotValue>

  /** Every slot other than `name` is the same in `before` and `after`. */
  ghost predicate OthersUnchanged(before: Slots, after: Slots, name: string) {
    forall k :: k != name ==> (k in after <==> k in before) && (k in after ==> after[k] == before[k])
  }

  /** `v` is a value a uniform declared as `uniform` can hold: its tag's kind and shape. */
  predicate Conforms(uniform: Descriptor, v: SlotValue) {
    match v
    case FloatValues(elements) =>
      && IsFloatType(uniform.dataType) && |elements| == uniform.elementCount
      && forall i :: 0 <= i < |elements| ==> |elements[i]| == Components(uniform.dataType)
    case IntValues(elements) =>
      && IsIntType(uniform.dataType) && |elements| == uniform.elementCount
      && forall i :: 0 <= i < |elements| ==> |elements[i]| == Components(uniform.dataType)
    case Texture(_) => uniform.dataType == TextureSampler
  }

  /** Every slot belongs to a uniform of the effect and holds a value that uniform can hold. */
  ghost predicate WellTyped(uniforms: Uniforms, slots: Slots) {
    forall k :: k in slots ==> k in uniforms && Conforms(uniforms[k], slots[k])
  }

  // ---------------------------------------------------------------------
  // The float setter

  /** What setUniformFloat reports for a buffer of `length` values. */
  function FloatStatus(uniforms: Uniforms, name: string, length: nat): (s: Status)
    ensures s == NotFound <==> name !in uniforms
    ensures s == TypeMismatch <==> name in uniforms && !IsFloatType(uniforms[name].dataType)
    ensures s == Ok <==> name in uniforms && IsFloatType(uniforms[name].dataType) && length == ExpectedLength(uniforms[name])
    ensures name in uniforms && IsFloatType(uniforms[name].dataType) && length != ExpectedLength(uniforms[name])
            ==> s == ArityMismatch
  {
    if name !in uniforms then NotFound
    else
      var uniform := uniforms[name];
      if !IsFloatType(uniform.dataType) then TypeMismatch
      else if length != ExpectedLength(uniform) then ArityMismatch
      else Ok
  }

  /** The value a float uniform holds once `values` has been written to it. */
  function FloatValue(uniform: Descriptor, values: seq<F32>): (v: SlotValue)
    requires IsFloatType(uniform.dataType) && |values| == ExpectedLength(uniform)
    ensures v.FloatValues? && |v.floats| == uniform.elementCount
    ensures forall i :: 0 <= i < |v.floats| ==> |v.floats[i]| == Components(uniform.dataType)
    ensures Flatten(v.floats) == values
  {
    FlattenChunks(values, uniform.elementCount, Components(uniform.dataType));
    FloatValues(Chunks(values, uniform.elementCount, Components(uniform.dataType)))
  }

  /** The slots after setUniformFloat(name, values). */
  function AfterFloat(uniforms: Uniforms, slots: Slots, name: string, values: seq<F32>): (r: Slots)
    ensures FloatStatus(uniforms, name, |values|) != Ok ==> r == slots
    ensures FloatStatus(uniforms, name, |values|) == Ok ==>
              name in r && r[name].FloatValues? && Flatten(r[name].floats) == values
              && |r[name].floats| == uniforms[name].elementCount
              && forall i :: 0 <= i < |r[name].floats| ==> |r[name].floats[i]| == Components(uniforms[name].dataType)
    ensures OthersUnchanged(slots, r, name)
  {
    if FloatStatus(uniforms, name, |values|) == Ok then slots[name := FloatValue(uniforms[name], values)]
    else slots
  }

  // ---------------------------------------------------------------------
  // The integer setter

  /** What setUniformInt reports for a buffer of `length` values. */
  function IntStatus(uniforms: Uniforms, name: string, length: nat): (s: Status)
    ensures s == NotFound <==> name !in uniforms
    ensures s == TypeMismatch <==> name in uniforms && !IsIntType(uniforms[name].dataType)
    ensures s == Ok <==> name in uniforms && IsIntType(uniforms[name].dataType) && length == ExpectedLength(uniforms[name])
    ensures name in uniforms && IsIntType(uniforms[name].dataType) && length != ExpectedLength(uniforms[name])
            ==> s == ArityMismatch
  {
    if name !in uniforms then NotFound
    else
      var uniform := uniforms[name];
      if !IsIntType(uniform.dataType) then TypeMismatch
      else if length != ExpectedLength(uniform) then ArityMismatch
      else Ok
  }

  /** The value an integer uniform holds once `values` has been written to it. */
  function IntValue(uniform: Descriptor, values: seq<I32>): (v: SlotValue)
    requires IsIntType(uniform.dataType) && |values| == ExpectedLength(uniform)
    ensures v.IntValues? && |v.ints| == uniform.elementCount
    ensures forall i :: 0 <= i < |v.ints| ==> |v.ints[i]| == Components(uniform.dataType)
    ensures Flatten(v.ints) == values
  {
    FlattenChunks(values, uniform.elementCount, Components(uniform.dataType));
    IntValues(Chunks(values, uniform.elementCount, Components(uniform.dataType)))
  }

  /** The slots after setUniformInt(name, values). */
  function AfterInt(uniforms: Uniforms, slots: Slots, name: string, values: seq<I32>): (r: Slots)
    ensures IntStatus(uniforms, name, |values|) != Ok ==> r == slots
    ensures IntStatus(uniforms, name, |values|) == Ok ==>
              name in r && r[name].IntValues? && Flatten(r[name].ints) == values
              && |r[name].ints| == uniforms[name].elementCount
              && forall i :: 0 <= i < |r[name].ints| ==> |r[name].ints[i]| == Components(uniforms[name].dataType)
    ensures OthersUnchanged(slots, r, name)
  {
    if IntStatus(uniforms, name, |values|) == Ok then slots[name := IntValue(uniforms[name], values)]
    else slots
  }

  // ---------------------------------------------------------------------
  // The texture setter

  /** What setTexture reports. */
  function TextureStatus(uniforms: Uniforms, name: string): (s: Status)
    ensures s == NotFound <==> name !in uniforms
    ensures s == Ok <==> name in uniforms && uniforms[name].dataType == TextureSampler
    ensures s != ArityMismatch
  {
    if name !in uniforms then NotFound
    else if uniforms[name].dataType != TextureSampler then TypeMismatch
    else Ok
  }

  /** The slots after setTexture(name, sampler). */
  function AfterTexture(uniforms: Uniforms, slots: Slots, name: string, sampler: SamplerRef): (r: Slots)
    ensures TextureStatus(uniforms, name) != Ok ==> r == slots
    ensures TextureStatus(uniforms, name) == Ok ==> name in r && r[name] == Texture(sampler)
    ensures OthersUnchanged(slots, r, name)
  {
    if TextureStatus(uniforms, name) == Ok then slots[name := Texture(sampler)] else slots
  }

  // ---------------------------------------------------------------------
  // The setters keep every slot fitting its uniform

  lemma AfterFloatWellTyped(uniforms: Uniforms, slots: Slots, name: string, values: seq<F32>)
    requires WellTyped(uniforms, slots)
    ensures WellTyped(uniforms, AfterFloat(uniforms, slots, name, values))
  {
    var r := AfterFloat(uniforms, slots, name, values);
    forall k | k in r
      ensures k in uniforms && Conforms(uniforms[k], r[k])
    {
      if k == name && FloatStatus(uniforms, name, |values|) == Ok {
        assert r[k] == FloatValue(uniforms[k], values);
      }
    }
  }

  lemma AfterIntWellTyped(uniforms: Uniforms, slots: Slots, name: string, values: seq<I32>)
    requires WellTyped(uniforms, slots)
    ensures WellTyped(uniforms, AfterInt(uniforms, slots, name, values))
  {
    var r := AfterInt(uniforms, slots, name, values);
    forall k | k in r
      ensures k in uniforms && Conforms(uniforms[k], r[k])
    {
      if k == name && IntStatus(uniforms, name, |values|) == Ok {
        assert r[k] == IntValue(uniforms[k], values);
      }
    }
  }

  lemma AfterTextureWellTyped(uniforms: Uniforms, slots: Slots, name: string, sampler: SamplerRef)
    requires WellTyped(uniforms, slots)
    ensures WellTyped(uniforms, AfterTexture(uniforms, slots, name, sampler))
  {
  }

  // ---------------------------------------------------------------------
  // The appearance object

  /**
    An appearance: the uniforms its effect declares, which never change, and
    the value currently bound to each uniform slot.
   */
  class Appearance {
    const effect: Uniforms
    var slots: Slots

    /** The object invariant: the slots fit the effect's uniforms. */
    ghost predicate Valid()
      reads this
    {
      WellTyped(effect, slots)
    }

    constructor (effect: Uniforms, slots: Slots)
      requires WellTyped(effect, slots)
      ensures Valid()
      ensures this.effect == effect && this.slots == slots
    {
      this.effect := effect;
      this.slots := slots;
    }

    /**
      One case of the switch in the setter: writes `values` to the uniform
      `name` as `count` elements of `components` floats each, if the length fits.
     */
    method CommitFloats(name: string, values: seq<F32>, count: nat, components: nat) returns (status: Status)
      requires Valid()
      requires name in effect && IsFloatType(effect[name].dataType)
      requires count == effect[name].elementCount && components == Components(effect[name].dataType)
      modifies this`slots
      ensures Valid()
      ensures status == (if |values| == count * components then Ok else ArityMismatch)
      ensures status == Ok ==> slots == old(slots)[name := FloatValues(Chunks(values, count, components))]
      ensures status != Ok ==> slots == old(slots)
    {
      if |values| != count * components {
        return ArityMismatch;
      }
      slots := slots[name := FloatValues(Chunks(values, count, components))];
      return Ok;
    }

    /**
      One case of the switch in the setter: writes `values` to the uniform
      `name` as `count` elements of `components` integers each, if the length fits.
     */
    method CommitInts(name: string, values: seq<I32>, count: nat, components: nat) returns (status: Status)
      requires Valid()
      requires name in effect && IsIntType(effect[name].dataType)
      requires count == effect[name].elementCount && components == Components(effect[name].dataType)
      modifies this`slots
      ensures Valid()
      ensures status == (if |values| == count * components then Ok else ArityMismatch)
      ensures status == Ok ==> slots == old(slots)[name := IntValues(Chunks(values, count, components))]
      ensures status != Ok ==> slots == old(slots)
    {
      if |values| != count * components {
        return ArityMismatch;
      }
      slots := slots[name := IntValues(Chunks(values, count, components))];
      return Ok;
    }

    /** Binds a flattened float buffer to the float uniform `name`. */
    method SetUniformFloat(name: string, values: seq<F32>) returns (status: Status)
      requires Valid()
      modifies this`slots
      ensures status == FloatStatus(effect, name, |values|)
      ensures slots == AfterFloat(effect, old(slots), name, values)
      ensures Valid()
    {
      AfterFloatWellTyped(effect, slots, name, values);
      if name !in effect {
        return NotFound;
      }
      var uniform := effect[name];
      var count := uniform.elementCount;
      match uniform.dataType {
        case Float => status := CommitFloats(name, values, count, 1);
        case Vector2F => status := CommitFloats(name, values, count, 2);
        case Vector3F => status := CommitFloats(name, values, count, 3);
        case Vector4F => status := CommitFloats(name, values, count, 4);
        case Matrix22F => status := CommitFloats(name, values, count, 4);
        case Matrix33F => status := CommitFloats(name, values, count, 9);
        case Matrix44F => status := CommitFloats(name, values, count, 16);
        case _ => status := TypeMismatch;
      }
    }

    /** Binds a flattened int32 buffer to the integer uniform `name`. */
    method SetUniformInt(name: string, values: seq<I32>) returns (status: Status)
      requires Valid()
      modifies this`slots
      ensures status == IntStatus(effect, name, |values|)
      ensures slots == AfterInt(effect, old(slots), name, values)
      ensures Valid()
    {
      AfterIntWellTyped(effect, slots, name, values);
      if name !in effect {
        return NotFound;
      }
      var uniform := effect[name];
      var count := uniform.elementCount;
      match uniform.dataType {
        case Int32 => status := CommitInts(name, values, count, 1);
        case Vector2I => status := CommitInts(name, values, count, 2);
        case Vector3I => status := CommitInts(name, values, count, 3);
        case Vector4I => status := CommitInts(name, values, count, 4);
        case _ => status := TypeMismatch;
      }
    }

    /** Binds `sampler` to the texture uniform `name`. */
    method SetTexture(name: string, sampler: SamplerRef) returns (status: Status)
      requires Valid()
      modifies this`slots
      ensures status == TextureStatus(effect, name)
      ensures slots == AfterTexture(effect, old(slots), name, sampler)
      ensures Valid()
    {
      AfterTextureWellTyped(effect, slots, name, sampler);
      if name !in effect {
        return NotFound;
      }
      if effect[name].dataType != TextureSampler {
        return TypeMismatch;
      }
      slots := slots[name := Texture(sampler)];
      return Ok;
    }
  }

  // ---------------------------------------------------------------------
  // Properties across calls

  /** An unknown name is reported as not found by all three setters, whatever the buffer. */
  lemma MissingNameNotFound(uniforms: Uniforms, name: string, length: nat)
    requires name !in uniforms
    ensures FloatStatus(uniforms, name, length) == NotFound
    ensures IntStatus(uniforms, name, length) == NotFound
    ensures TextureStatus(uniforms, name) == NotFound
  {
  }

  /** A uniform accepted by one setter is a type mismatch for the other two. */
  lemma SettersExclusive(uniforms: Uniforms, name: string, length1: nat, length2: nat)
    requires name in uniforms
    ensures FloatStatus(uniforms, name, length1) == Ok ==>
              IntStatus(uniforms, name, length2) == TypeMismatch && TextureStatus(uniforms, name) == TypeMismatch
    ensures IntStatus(uniforms, name, length1) == Ok ==>
              FloatStatus(uniforms, name, length2) == TypeMismatch && TextureStatus(uniforms, name) == TypeMismatch
    ensures TextureStatus(uniforms, name) == Ok ==>
              FloatStatus(uniforms, name, length1) == TypeMismatch && IntStatus(uniforms, name, length2) == TypeMismatch
  {
  }

  /** Setting the same float buffer twice leaves the same slots as setting it once. */
  lemma AfterFloatIdempotent(uniforms: Uniforms, slots: Slots, name: string, values: seq<F32>)
    ensures AfterFloat(uniforms, AfterFloat(uniforms, slots, name, values), name, values)
         == AfterFloat(uniforms, slots, name, values)
  {
  }

  /** Setting the same int buffer twice leaves the same slots as setting it once. */
  lemma AfterIntIdempotent(uniforms: Uniforms, slots: Slots, name: string, values: seq<I32>)
    ensures AfterInt(uniforms, AfterInt(uniforms, slots, name, values), name, values)
         == AfterInt(uniforms, slots, name, values)
  {
  }

  /** Binding the same sampler twice leaves the same slots as binding it once. */
  lemma AfterTextureIdempotent(uniforms: Uniforms, slots: Slots, name: string, sampler: SamplerRef)
    ensures AfterTexture(uniforms, AfterTexture(uniforms, slots, name, sampler), name, sampler)
         == AfterTexture(uniforms, slots, name, sampler)
  {
  }

  /** A successful float write overrides any earlier successful one to the same uniform. */
  lemma AfterFloatLastWins(uniforms: Uniforms, slots: Slots, name: string, first: seq<F32>, second: seq<F32>)
    requires FloatStatus(uniforms, name, |second|) == Ok
    ensures AfterFloat(uniforms, AfterFloat(uniforms, slots, name, first), name, second)
         == AfterFloat(uniforms, slots, name, second)
  {
  }

  /** A successful int write overrides any earlier successful one to the same uniform. */
  lemma AfterIntLastWins(uniforms: Uniforms, slots: Slots, name: string, first: seq<I32>, second: seq<I32>)
    requires IntStatus(uniforms, name, |second|) == Ok
    ensures AfterInt(uniforms, AfterInt(uniforms, slots, name, first), name, second)
         == AfterInt(uniforms, slots, name, second)
  {
  }

  /** Binding a sampler overrides any earlier binding of the same uniform. */
  lemma AfterTextureLastWins(uniforms: Uniforms, slots: Slots, name: string, first: SamplerRef, second: SamplerRef)
    ensures AfterTexture(uniforms, AfterTexture(uniforms, slots, name, first), name, second)
         == AfterTexture(uniforms, slots, name, second)
  {
  }

  /** The stored elements determine the buffer: two accepted buffers that store the same value are equal. */
  lemma FloatValueInjective(uniform: Descriptor, values1: seq<F32>, values2: seq<F32>)
    requires IsFloatType(uniform.dataType)
    requires |values1| == ExpectedLength(uniform) && |values2| == ExpectedLength(uniform)
    requires FloatValue(uniform, values1) == FloatValue(uniform, values2)
    ensures values1 == values2
  {
  }

  /** Float writes to two different uniforms can be done in either order. */
  lemma AfterFloatCommute(uniforms: Uniforms, slots: Slots, name1: string, name2: string,
                          values1: seq<F32>, values2: seq<F32>)
    requires name1 != name2
    ensures AfterFloat(uniforms, AfterFloat(uniforms, slots, name1, values1), name2, values2)
         == AfterFloat(uniforms, AfterFloat(uniforms, slots, name2, values2), name1, values1)
  {
  }

  /** Concrete bindings of a Vector3F colour, a texture sampler and an unknown name, replayed on an appearance. */
  method LightColorScenario()
  {
    var uniforms := map["lightColor" := Descriptor(Vector3F, 1), "diffuseMap" := Descriptor(TextureSampler, 1)];
    var appearance := new Appearance(uniforms, map[]);
    var one, half, quarter: F32 := 0x3F80_0000, 0x3F00_0000, 0x3E80_0000;

    var status := appearance.SetUniformFloat("lightColor", [one, half]);
    assert status == ArityMismatch && appearance.slots == map[];

    status := appearance.SetUniformFloat("lightColor", [one, half, quarter]);
    assert status == Ok;
    var stored := appearance.slots["lightColor"].floats;
    assert |stored| == 1 && Flatten(stored) == [one, half, quarter];

    status := appearance.SetUniformFloat("diffuseMap", [one]);
    assert status == TypeMismatch;

    status := appearance.SetTexture("diffuseMap", SamplerRef(7));
    assert status == Ok && appearance.slots["diffuseMap"] == Texture(SamplerRef(7));

    status := appearance.SetUniformInt("unknownUniform", []);
    assert status == NotFound;
    status := appearance.SetTexture("unknownUniform", SamplerRef(7));
    assert status == NotFound;
  }
}
