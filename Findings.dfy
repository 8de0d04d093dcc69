/**
  The status setUniformFloat and setUniformInt report as the C++ source has
  them, next to the model in Appearance. A failed `assert` aborts the
  process; here it is shown as ArityMismatch. The slot write itself is the
  one the model already has.

  Two things differ from the behaviour the model gives the setters:
  - an existing uniform whose tag is not a float tag falls to the `default`
    branch, which throws the same "Uniform not found!" error as a missing
    name;
  - the buffer length is only checked by `assert`, in both numeric setters,
    which a build with NDEBUG compiles away, so such a build hands a short
    buffer to a write that reads elementCount * components values from it.
 */
module Findings {
  import opened Effect
  import opened Appearance

  /**
    The error setUniformFloat raises as written, or Ok when it writes.
    `assertsEnabled` is false in a build with NDEBUG. An `assert` that fails
    aborts the process; ArityMismatch stands for that.
   */
  function FloatStatusAsWritten(uniforms: Uniforms, name: string, length: nat, assertsEnabled: bool): (s: Status)
    ensures s != TypeMismatch
    ensures name in uniforms && !IsFloatType(uniforms[name].dataType) ==> s == NotFound
    ensures s == Ok ==> name in uniforms && IsFloatType(uniforms[name].dataType)
    ensures !assertsEnabled ==> s != ArityMismatch
    ensures !assertsEnabled && name in uniforms && IsFloatType(uniforms[name].dataType) ==> s == Ok
  {
    if name !in uniforms then NotFound
    else
      var uniform := uniforms[name];
      if !IsFloatType(uniform.dataType) then NotFound
      else if assertsEnabled && length != ExpectedLength(uniform) then ArityMismatch
      else Ok
  }

  /**
    An int32 uniform that exists is reported as not found by the source,
    while the model reports a type mismatch.
   */
  lemma IntUniformReportedNotFound()
    ensures var uniforms := map["count" := Descriptor(Int32, 1)];
            && "count" in uniforms
            && FloatStatusAsWritten(uniforms, "count", 1, true) == NotFound
            && FloatStatus(uniforms, "count", 1) == TypeMismatch
  {
  }

  /**
    Without asserts, a two-value buffer is written to a Vector3F uniform,
    whose write reads three values; the model rejects it.
   */
  lemma ShortBufferWrittenWithoutAsserts()
    ensures var uniforms := map["lightColor" := Descriptor(Vector3F, 1)];
            && FloatStatusAsWritten(uniforms, "lightColor", 2, false) == Ok
            && 2 < ExpectedLength(uniforms["lightColor"])
            && FloatStatus(uniforms, "lightColor", 2) == ArityMismatch
  {
  }

  /**
    With asserts enabled, the source and the model accept and reject the same
    calls; they differ only in which error a non-float uniform reports.
   */
  lemma AsWrittenAgreesWithAsserts(uniforms: Uniforms, name: string, length: nat)
    ensures (FloatStatusAsWritten(uniforms, name, length, true) == Ok) == (FloatStatus(uniforms, name, length) == Ok)
    ensures FloatStatus(uniforms, name, length) != TypeMismatch ==>
              FloatStatusAsWritten(uniforms, name, length, true) == FloatStatus(uniforms, name, length)
  {
  }

  /**
    The error setUniformInt raises as written, or Ok when it writes. Its
    `default` branch reports the type error; only the length check depends
    on `assertsEnabled`.
   */
  function IntStatusAsWritten(uniforms: Uniforms, name: string, length: nat, assertsEnabled: bool): (s: Status)
    ensures assertsEnabled ==> s == IntStatus(uniforms, name, length)
    ensures !assertsEnabled ==> s != ArityMismatch
    ensures !assertsEnabled ==>
              s == (if IntStatus(uniforms, name, length) == ArityMismatch then Ok else IntStatus(uniforms, name, length))
    ensures s == Ok ==> name in uniforms && IsIntType(uniforms[name].dataType)
  {
    if name !in uniforms then NotFound
    else
      var uniform := uniforms[name];
      if !IsIntType(uniform.dataType) then TypeMismatch
      else if assertsEnabled && length != ExpectedLength(uniform) then ArityMismatch
      else Ok
  }

  /**
    Without asserts, three values are written to a two-element Vector4I
    uniform, whose write reads eight; the model rejects it.
   */
  lemma ShortIntBufferWrittenWithoutAsserts()
    ensures var uniforms := map["weights" := Descriptor(Vector4I, 2)];
            && IntStatusAsWritten(uniforms, "weights", 3, false) == Ok
            && ExpectedLength(uniforms["weights"]) == 8
            && IntStatus(uniforms, "weights", 3) == ArityMismatch
  {
  }
}
