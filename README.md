# Uniform binding of a ramses-python Appearance

This project models how `RamsesPython::Appearance` binds values to the uniform inputs of its
effect (src/Appearance.cpp). The class has three setters:

- `setUniformFloat(name, values)` looks the uniform up by name in the appearance's effect. It
  switches on the uniform's data type over the seven float tags. For the matched tag it checks
  that the flat buffer holds `elementCount × components` values. The component counts are
  Float 1, Vector2F 2, Vector3F 3, Vector4F 4, Matrix22F 4, Matrix33F 9 and Matrix44F 16. It then
  writes the buffer into the uniform's slot.
- `setUniformInt(name, values)` does the same over Int32, Vector2I, Vector3I and Vector4I.
- `setTexture(name, sampler)` looks the uniform up, requires the `TextureSampler` tag, and binds
  the sampler.

Files:

- `Effect.dfy` (module `Effect`) describes what the effect provides. It has the twelve data-type
  tags and a uniform descriptor (tag and element count). An effect's uniforms are a map from
  name to descriptor. It also defines the component count of each tag. `Chunks` and `Flatten`
  split a flat buffer into its elements and lay them out again. They come with the two
  round-trip lemmas.
- `Appearance.dfy` (module `Appearance`) holds the class `Appearance`. The class has the
  immutable uniform map `effect` and a mutable slot map `slots`, one value per uniform. Its
  invariant `Valid()` says that every slot belongs to a uniform of the effect and holds a value
  of that uniform's kind and shape. The three setters are methods that return a `Status`
  instead of throwing. Each setter is specified by two functions. One gives the status
  (`FloatStatus`, `IntStatus`, `TextureStatus`). The other gives the slot map afterwards
  (`AfterFloat`, `AfterInt`, `AfterTexture`). Lemmas relate calls to each other: not-found
  ordering, mutual exclusion of the setters, preservation of the invariant, idempotence, last
  write wins, and commuting float writes to distinct uniforms. `LightColorScenario` replays concrete
  bindings on an object.
- `Findings.dfy` (module `Findings`) models the status that `setUniformFloat` and
  `setUniformInt` report as the C++ is written, beside the model's version. A failed `assert` is
  shown as `ArityMismatch`.

The model departs from the literal code in two places that are listed under "## Findings".
The simplifications it makes are listed under "## Left out".

- The source checks buffer lengths with `assert`. The model always enforces the check and
  reports `ArityMismatch`.
- The float setter's `default` branch throws the same "Uniform not found!" error as a missing
  name. The model reports `TypeMismatch` for that case, so `NotFound` means exactly "no such name".

The committed value of a numeric uniform is stored as `elementCount` elements of `components`
values each, in buffer order, as the renderer reads the pointer it is given. `Flatten` of the
stored elements is the caller's buffer.

## Model

| member | source | states |
|---|---|---|
| `Effect.Components` | src/Appearance.cpp:36-97 | The per-tag multiplier of both switches: d for a d-vector, d·d for a d×d matrix, 1 for a scalar; always between 1 and 16 |
| `Effect.Chunks` | src/Appearance.cpp:38-62 | A buffer of n·m values read as n elements, each of exactly m values |
| `Effect.FlattenChunks` | src/Appearance.cpp:38-62 | Reading a buffer as elements loses and reorders nothing: laying the elements end to end gives the buffer back |
| `Effect.ChunksFlatten` | src/Appearance.cpp:38-62 | Conversely, elements of equal length are recovered from their concatenation |
| `Appearance.FloatStatus` | src/Appearance.cpp:26-67 | setUniformFloat fails with NotFound exactly when the name is absent, and with TypeMismatch exactly when the uniform exists but has no float tag. It succeeds exactly when the uniform has a float tag and the length equals elementCount × components; a float uniform with any other length gives ArityMismatch |
| `Appearance.FloatValue` | src/Appearance.cpp:36-62 | The value written to a float uniform has elementCount elements of components values each, and flattens back to the caller's buffer unchanged |
| `Appearance.AfterFloat` | src/Appearance.cpp:23-68 | On any failure no slot changes. On success the named slot holds the caller's buffer as elementCount elements of components values each. Every other slot is untouched |
| `Appearance.IntStatus` | src/Appearance.cpp:73-102 | setUniformInt: NotFound exactly when the name is absent, TypeMismatch exactly when the tag is not Int32/Vector2I/3I/4I, success exactly for an integer tag with length elementCount × components, ArityMismatch otherwise |
| `Appearance.IntValue` | src/Appearance.cpp:83-97 | The value written to an integer uniform has elementCount elements of components values each and flattens back to the caller's buffer |
| `Appearance.AfterInt` | src/Appearance.cpp:70-103 | On failure no slot changes. On success the named slot holds the buffer as elementCount elements of components values each; every other slot is untouched |
| `Appearance.TextureStatus` | src/Appearance.cpp:108-120 | setTexture: NotFound exactly when the name is absent, success exactly when the tag is TextureSampler, never an arity error |
| `Appearance.AfterTexture` | src/Appearance.cpp:105-123 | On failure no slot changes; on success the named slot holds exactly the supplied sampler and every other slot is untouched |
| `Appearance.Appearance.constructor` | src/Appearance.cpp:17-21 | An appearance over a given effect, with given initial slot values that fit its uniforms; the invariant holds |
| `Appearance.Appearance.CommitFloats` | src/Appearance.cpp:36-62 | One case of the float switch: writes the buffer as count elements of the case's multiplier exactly when the length fits, otherwise reports ArityMismatch and writes nothing; called only with the uniform's own tag, element count and multiplier, it keeps the invariant |
| `Appearance.Appearance.CommitInts` | src/Appearance.cpp:83-97 | One case of the integer switch, as for CommitFloats; the invariant is kept |
| `Appearance.Appearance.SetUniformFloat` | src/Appearance.cpp:23-68 | The method's status is FloatStatus and its new slots are AfterFloat of the old ones; the literal per-case multipliers agree with Components; the invariant is kept |
| `Appearance.Appearance.SetUniformInt` | src/Appearance.cpp:70-103 | The method's status is IntStatus and its new slots are AfterInt of the old ones; the invariant is kept |
| `Appearance.Appearance.SetTexture` | src/Appearance.cpp:105-123 | The method's status is TextureStatus and its new slots are AfterTexture of the old ones; the invariant is kept |
| `Appearance.MissingNameNotFound` | src/Appearance.cpp:26-32 | Lookup comes first: an absent name gives NotFound from all three setters, whatever the buffer |
| `Appearance.SettersExclusive` | src/Appearance.cpp:34-120 | A uniform that one setter accepts is a TypeMismatch for the other two |
| `Appearance.AfterFloatIdempotent` | src/Appearance.cpp:38-62 | Repeating a setUniformFloat call leaves the same slots as one call |
| `Appearance.AfterIntIdempotent` | src/Appearance.cpp:85-97 | Repeating a setUniformInt call leaves the same slots as one call |
| `Appearance.AfterTextureIdempotent` | src/Appearance.cpp:122 | Repeating a setTexture call leaves the same slots as one call |
| `Appearance.AfterFloatLastWins` | src/Appearance.cpp:38-62 | A successful float write replaces whatever an earlier float write to the same uniform left |
| `Appearance.AfterIntLastWins` | src/Appearance.cpp:85-97 | A successful int write replaces whatever an earlier int write to the same uniform left |
| `Appearance.AfterTextureLastWins` | src/Appearance.cpp:122 | Binding a sampler replaces any earlier binding of the same uniform |
| `Appearance.AfterFloatWellTyped` | src/Appearance.cpp:36-66 | setUniformFloat keeps every slot of a uniform of the effect, holding a value of that uniform's kind and shape |
| `Appearance.AfterIntWellTyped` | src/Appearance.cpp:83-101 | setUniformInt keeps every slot fitting its uniform |
| `Appearance.AfterTextureWellTyped` | src/Appearance.cpp:116-122 | setTexture keeps every slot fitting its uniform: a sampler is only bound to a TextureSampler uniform |
| `Appearance.FloatValueInjective` | src/Appearance.cpp:38 | Two accepted buffers that store the same value are the same buffer |
| `Appearance.AfterFloatCommute` | src/Appearance.cpp:38-62 | Float writes to two different uniforms give the same slots in either order |
| `Findings.FloatStatusAsWritten` | src/Appearance.cpp:23-67 | The source's setUniformFloat reports every existing non-float uniform as not found, never reports a type mismatch, writes only to float uniforms, and, with asserts compiled out, never rejects a length |
| `Findings.IntUniformReportedNotFound` | src/Appearance.cpp:64-66 | An existing Int32 uniform is reported as "not found" by the source's float setter, while the model reports TypeMismatch |
| `Findings.ShortBufferWrittenWithoutAsserts` | src/Appearance.cpp:44-46 | Without asserts, a 2-value buffer is written to a one-element Vector3F uniform, which needs 3; the model reports ArityMismatch |
| `Findings.IntStatusAsWritten` | src/Appearance.cpp:70-102 | With asserts on, the source's setUniformInt reports exactly the model's status; with asserts compiled out it never rejects a length |
| `Findings.ShortIntBufferWrittenWithoutAsserts` | src/Appearance.cpp:95-97 | Without asserts, 3 values are written to a two-element Vector4I uniform, which needs 8; the model reports ArityMismatch |
| `Findings.AsWrittenAgreesWithAsserts` | src/Appearance.cpp:34-67 | With asserts on, the source and the model accept exactly the same calls. They report the same status except on the non-float branch |

## Findings

| source | as written | input that shows it | evidently intended | confidence | as-written member | corrected member |
|---|---|---|---|---|---|---|
| src/Appearance.cpp:64-66 | The `default` branch of setUniformFloat throws "Uniform not found!" for a uniform that was found but has a non-float tag | an effect with `count` as Int32, `setUniformFloat("count", [..])` | a type-mismatch error, as setUniformInt (line 100) and setTexture (line 118) give | medium, not executed | `Findings.IntUniformReportedNotFound` | `Appearance.FloatStatus` |
| src/Appearance.cpp:36-62 | The buffer length is checked only by `assert`. A build with NDEBUG passes a short buffer to a write that reads elementCount × components values | `lightColor` as Vector3F with one element, buffer of 2 values, NDEBUG | reject the call before writing | high, not executed | `Findings.ShortBufferWrittenWithoutAsserts` | `Appearance.FloatStatus` |
| src/Appearance.cpp:83-97 | The same `assert`-only length check in setUniformInt | `weights` as Vector4I with two elements, buffer of 3 values, NDEBUG | reject the call before writing | high, not executed | `Findings.ShortIntBufferWrittenWithoutAsserts` | `Appearance.IntStatus` |

## Left out

- The renderer library behind `findUniformInput`, the `setInputValue*` family and `setInputTexture` is not part of this model. The effect is a name-to-descriptor map and the appearance's renderer state is a slot map.
- The renderer writes (`setInputValue*` at src/Appearance.cpp:38-62 and 85-97, `setInputTexture` at line 122) return a status that the source ignores. The model assumes every such write takes effect, so a write the renderer refuses is not modelled: the model's Ok always changes the slot.
- Uniform names are matched as whole strings. The source passes `name.c_str()` to `findUniformInput` (src/Appearance.cpp:26, 73, 108), so a name with an embedded NUL character is looked up by its part before the first NUL. The model does not capture this: for such a name it reports NotFound where the source may find and write a uniform.
- C++ exceptions and their message strings: each thrown error is a `Status` value returned by the method, and the message text is not modelled.
- Floating-point semantics: float values are 32-bit patterns (`bv32`) that are only counted and copied.
- Data-type tags of the renderer library other than the twelve listed in `Effect.DataType` are not modelled.
- Integer widths of `elementCount` (an unsigned 32-bit count) and of `size()`: element counts and lengths are unbounded naturals, so the product `elementCount × components` cannot wrap.
- Texture sampler internals and liveness: a sampler is an opaque identifier, and the model does not check that it is still alive.
- The `RamsesObject` base class and the wrapped object pointer: the constructor only records the effect and the initial slot values.
- Python binding glue and concurrent use of one appearance from several threads.
