# Raytracing data pipeline: a Dafny model

This project models the CPU side of the raytracing pipeline of a Unity
audio-visualisation scene. The `RaytracingManager` component collects the
scene's `Box` and `Source` components when it is enabled. It then allocates
one structured GPU buffer for each kind, sized to the number collected. On
every frame that the shader pass runs, it repacks every object into a
fixed-stride record (`RTBox`, `RTSource`, with `RTMaterial` nested in
`RTBox`), uploads the records, binds the buffers and publishes their counts
to the material. On teardown it releases both buffers. The record layouts
are modelled as encode/decode pairs over 4-byte words, and the manager as a
class whose invariant ties each buffer to its scene array.

Modules, one per source file or component:

- `Floats` (`floats.dfy`): floats as opaque 32-bit patterns, `Vector3`, the word type and `sizeof(float)`.
- `Layout` (`layout.dfy`): fixed-stride packing of records into one word sequence, and cutting a buffer back into records. It is generic over the record type: a record format is an encode function, a decode function and a width in words that undo each other.
- `MaterialLayout`, `BoxLayout`, `SourceLayout` (`rt_material.dfy`, `rt_box.dfy`, `rt_source.dfy`): the three GPU records. Each has its `Size` and encode/decode with round-trip lemmas. `BoxLayout` and `SourceLayout` also prove `Format()` and pack at their stride through `Layout`. `RTMaterial` is only ever uploaded inside an `RTBox`.
- `Scene` (`scene.dfy`): the `Box` and `Source` components as objects with the fields the manager reads.
- `Engine` (`engine.dfy`): the engine calls the manager makes, as effects on visible state. A `ComputeBuffer` has words and a release count, a `Material` has named buffer and integer bindings, and a `RenderTexture` has pixels. The GPU kernel is a function that the caller supplies.
- `Raytracing` (`raytracing_manager.dfy`): the `RaytracingManager` class.

Notes on the modelling:

- `FindObjectsByType` is an engine query with unspecified order, so it becomes the two sequence parameters of `OnEnable`.
- `PrepareBuffers` is written as two methods, `UploadBoxes` (lines 35-57) and `UploadSources` (lines 59-72), and `PrepareBuffers` calls them in that order. Each copy loop sits in a method of its own, `BuildBoxRecords` (lines 35-53) and `BuildSourceRecords` (lines 59-69). Each of these fills a new array, and its loop invariant states the records built so far. The split keeps each proof small.
- A repack cannot overrun or truncate a buffer. The scene arrays are assigned only by `OnEnable`, and `PrepareBuffers` iterates over those same arrays, so the uploaded data always has exactly the buffer's count. The `Valid` invariant and the `PrepareBuffers` contract state this. Components added after enabling are not seen until the next `OnEnable`.
- Re-running `OnEnable` overwrites both buffer references without releasing the old buffers. `OnEnable`'s contract states this: the previous buffers' release counts are unchanged.

## Model

| member | source | states |
|---|---|---|
| `Floats.EncodeVector3` | Assets/RTBox.cs:5-6 | a `Vector3` field takes three words, x, y, z in that order |
| `Floats.DecodeVector3` | Assets/RTBox.cs:5-6 | reading three words gives a vector whose encoding is those words |
| `Floats.Vector3RoundTrip` | Assets/RTSource.cs:5-6 | decoding an encoded vector gives the vector back |
| `Layout.ConcatLength` | Assets/RaytracingManager.cs:27-28 | n records of k words pack into exactly k*n words |
| `Layout.ConcatAt` | Assets/RaytracingManager.cs:27-28 | record i of a stride-k buffer occupies words [k*i, k*i+k) |
| `Layout.ConcatSlices` | Assets/RaytracingManager.cs:27-28 | cutting a k*n-word buffer into n records and packing them again gives the buffer back |
| `Layout.SlicesAt` | Assets/RaytracingManager.cs:27-28 | record i cut from a buffer is words [k*i, k*i+k) |
| `Layout.Pack` | Assets/RaytracingManager.cs:55 | n records of a k-word format upload as exactly k*n words |
| `Layout.PackAt` | Assets/RaytracingManager.cs:27-28 | for any record format, record i occupies words [k*i, k*i+k) of the packed buffer and reading it at stride k gives it back |
| `Layout.PackRecordsAt` | Assets/RaytracingManager.cs:27-28 | for any record format, every record read at stride k from a packed buffer is the record at that index |
| `Layout.Unpack` | Assets/RTBox.cs:8 | reading a buffer of k*n words as n records gives n records; this is the kernel reading `boxes[i]`/`sources[i]` for every index, not a C# line |
| `Layout.UnpackPack` | Assets/RaytracingManager.cs:27-28 | for any record format, reading back a packed buffer gives the same records in the same order |
| `Layout.PackUnpack` | Assets/RaytracingManager.cs:27-28 | for any record format, packing the records read from a k*n-word buffer gives the buffer back |
| `MaterialLayout.Size` | Assets/RTMaterial.cs:11 | `RTMaterial.Size` is 16 bytes, a whole number of floats |
| `MaterialLayout.WordCount` | Assets/RTMaterial.cs:6-11 | a material record is Size / sizeof(float) = 4 words |
| `MaterialLayout.Encode` | Assets/RTMaterial.cs:6-9 | words are absorption, transmission, roughness, scatter in declaration order, 4 in all |
| `MaterialLayout.Decode` | Assets/RTMaterial.cs:6-9 | word i of a 4-word record is read into the i-th declared field |
| `MaterialLayout.DecodeEncode` | Assets/RTMaterial.cs:6-11 | decoding an encoded material gives it back |
| `MaterialLayout.EncodeDecode` | Assets/RTMaterial.cs:6-11 | encoding the decode of any 4 words gives those words |
| `MaterialLayout.EncodeInjective` | Assets/RTMaterial.cs:6-9 | distinct materials have distinct encodings |
| `BoxLayout.Size` | Assets/RTBox.cs:8 | `RTBox.Size` is 6 floats plus `RTMaterial.Size`, 40 bytes |
| `BoxLayout.WordCount` | Assets/RTBox.cs:8 | a box record is 10 words |
| `BoxLayout.Encode` | Assets/RTBox.cs:5-8 | words are min.x, min.y, min.z, max.x, max.y, max.z, then words 6..9 are the material's encoding; 10 in all |
| `BoxLayout.Decode` | Assets/RTBox.cs:5-8 | words 0..2 give min, 3..5 give max, and 6..9 give the material |
| `BoxLayout.DecodeEncode` | Assets/RTBox.cs:5-8 | decoding an encoded box gives it back |
| `BoxLayout.EncodeDecode` | Assets/RTBox.cs:5-8 | encoding the decode of any 10 words gives those words |
| `BoxLayout.Format` | Assets/RTBox.cs:5-8 | box encode and decode form a 10-word record format: each undoes the other |
| `BoxLayout.Pack` | Assets/RaytracingManager.cs:55 | n boxes upload as 10*n words |
| `BoxLayout.RecordAtEncoding` | Assets/RTBox.cs:5-8 | `RecordAt`, the box read at index i of a buffer, is the box whose encoding is words [10i, 10i+10); this is the kernel's indexed read `boxes[i]`, not a C# line |
| `BoxLayout.PackAt` | Assets/RaytracingManager.cs:27 | box i occupies words [10i, 10i+10) and reading record i at stride 10 recovers box i |
| `BoxLayout.PackRecordsAt` | Assets/RaytracingManager.cs:27 | every record read at stride 10 from a packed buffer is the box at that index |
| `SourceLayout.Size` | Assets/RTSource.cs:8 | `RTSource.Size` is 7 floats, 28 bytes |
| `SourceLayout.WordCount` | Assets/RTSource.cs:8 | a source record is 7 words |
| `SourceLayout.Encode` | Assets/RTSource.cs:5-7 | words are position.xyz, color.xyz, then intensity at offset 6; 7 in all |
| `SourceLayout.Decode` | Assets/RTSource.cs:5-7 | words 0..2 give position, 3..5 give color, and word 6 gives intensity |
| `SourceLayout.DecodeEncode` | Assets/RTSource.cs:5-8 | decoding an encoded source gives it back |
| `SourceLayout.EncodeDecode` | Assets/RTSource.cs:5-8 | encoding the decode of any 7 words gives those words |
| `SourceLayout.Format` | Assets/RTSource.cs:5-8 | source encode and decode form a 7-word record format: each undoes the other |
| `SourceLayout.Pack` | Assets/RaytracingManager.cs:70 | n sources upload as 7*n words |
| `SourceLayout.RecordAtEncoding` | Assets/RTSource.cs:5-8 | `RecordAt`, the source read at index i of a buffer, is the source whose encoding is words [7i, 7i+7); this is the kernel's indexed read `sources[i]`, not a C# line |
| `SourceLayout.PackAt` | Assets/RaytracingManager.cs:28 | source i occupies words [7i, 7i+7) and reading record i at stride 7 recovers source i |
| `SourceLayout.PackRecordsAt` | Assets/RaytracingManager.cs:28 | every record read at stride 7 from a packed buffer is the source at that index |
| `Scene.Box.constructor` | Assets/Box.cs:8-14 | a box component holds its bounds and four material floats |
| `Scene.Source.constructor` | Assets/Source.cs:20-21 | a source component holds its transform, color and intensity |
| `Engine.ComputeBuffer.constructor` | Assets/RaytracingManager.cs:27-28 | a new buffer has the given count and stride, count*stride/4 words, and has not been released |
| `Engine.ComputeBuffer.SetData` | Assets/RaytracingManager.cs:55 | uploading overwrites the buffer from word 0 |
| `Engine.ComputeBuffer.Release` | Assets/RaytracingManager.cs:85 | releasing counts one more release of that buffer |
| `Engine.Material.SetBuffer` | Assets/RaytracingManager.cs:56 | binds a buffer under a name, other bindings unchanged |
| `Engine.Material.SetInt` | Assets/RaytracingManager.cs:57 | binds an integer under a name, other bindings unchanged |
| `Engine.Blit` | Assets/RaytracingManager.cs:111 | a plain blit makes the destination equal to the source image |
| `Engine.BlitWithMaterial` | Assets/RaytracingManager.cs:107 | the destination is the kernel's output on the source image and the material's `boxes`/`boxCount`/`sources`/`sourceCount` bindings |
| `Raytracing.BoxRecord` | Assets/RaytracingManager.cs:38-52 | the words uploaded for a scene box are its min.xyz, max.xyz, then absorption, transmission, roughness, scatter |
| `Raytracing.SourceRecord` | Assets/RaytracingManager.cs:62-68 | the words uploaded for a scene source are its transform's position.xyz, its color.xyz, then its intensity |
| `Raytracing.BoxRecords` | Assets/RaytracingManager.cs:35-53 | one record per scene box, same length, record i built from box i |
| `Raytracing.SourceRecords` | Assets/RaytracingManager.cs:59-69 | one record per scene source, same length, record i built from source i |
| `Raytracing.RaytracingManager.Valid` | Assets/RaytracingManager.cs:12-16 | both buffers are held or both are null; held buffers are distinct, unreleased, and hold 10 words per scene box and 7 words per scene source |
| `Raytracing.RaytracingManager.ShaderPath` | Assets/RaytracingManager.cs:99 | the shader pass is chosen exactly when `useShader` is on and a material is set, the condition at line 99; the contract states the half that `OnRenderImage` relies on, that the shader pass always has a material |
| `Raytracing.RaytracingManager.constructor` | Assets/RaytracingManager.cs:8-16 | a new manager keeps its settings, holds no scene objects and no buffers, and is valid |
| `Raytracing.RaytracingManager.PrepareObjects` | Assets/RaytracingManager.cs:19-23 | the scene arrays become the query results, in query order |
| `Raytracing.RaytracingManager.CreateBuffers` | Assets/RaytracingManager.cs:25-30 | two fresh buffers sized to the scene arrays' lengths at strides `RTBox.Size` and `RTSource.Size`; the invariant holds |
| `Raytracing.RaytracingManager.OnEnable` | Assets/RaytracingManager.cs:75-79 | after enabling, the scene arrays are the query results and each buffer is fresh with count equal to its array's length; buffers held before are not released |
| `Raytracing.RaytracingManager.BuildBoxRecords` | Assets/RaytracingManager.cs:35-53 | a new array with one record per scene box, in order; record k is built from box k |
| `Raytracing.RaytracingManager.BuildSourceRecords` | Assets/RaytracingManager.cs:59-69 | a new array with one record per scene source, in order; record k is built from source k |
| `Raytracing.RaytracingManager.UploadBoxes` | Assets/RaytracingManager.cs:35-57 | the box buffer holds the packed records of the scene boxes, record k built from box k with min/max copied and the four floats moved into the material; `boxes` and `boxCount` are bound to the buffer and its count |
| `Raytracing.RaytracingManager.UploadSources` | Assets/RaytracingManager.cs:59-72 | the source buffer holds the packed records of the scene sources, record k from source k's transform position, color and intensity; `sources` and `sourceCount` are bound |
| `Raytracing.RaytracingManager.PrepareBuffers` | Assets/RaytracingManager.cs:32-73 | both buffers hold their scene arrays' records index for index; the published counts equal the buffer counts, which equal the array lengths; the invariant is kept |
| `Raytracing.RaytracingManager.OnDestroy` | Assets/RaytracingManager.cs:81-94 | each non-null buffer is released exactly once, its data untouched, and set to null; with no buffers held nothing changes |
| `Raytracing.RaytracingManager.OnRenderImage` | Assets/RaytracingManager.cs:97-113 | if `useShader` is on and a material is set, the buffers are repacked and bound with their counts, the material's other bindings are kept, and the output is the kernel's result over them; otherwise the output is a copy of the input and the buffers and material are untouched |
| `Raytracing.EnableRenderDestroy` | Assets/RaytracingManager.cs:75-94 | over enable, two frames and two teardowns, each buffer gets the scene's count and is released exactly once |

## Left out

- View-parameter math (Assets/RaytracingManager.cs:102-106): `tan`, degree-to-radian conversion and the camera's local-to-world matrix are floating-point numerics. The `ViewParameters` and `CameraLocalToWorldMatrix` bindings are not modelled, and the kernel does not receive them.
- Floats are identified with their bit patterns and never computed on; the pipeline only copies them.
- Engine calls (`ComputeBuffer` allocation, `SetData`, `Release`, `SetBuffer`, `SetInt`, `Graphics.Blit`) are foreign. They are modelled only as their visible effects on buffer words, release counts, material bindings and texture pixels. The GPU kernel is an arbitrary function supplied by the caller.
- A failing `new ComputeBuffer` (Assets/RaytracingManager.cs:27-28) is not modelled. It is the only way one buffer can be held without the other, which is why `Valid` can require both buffers held or both null and `OnDestroy` can require `Valid`.
- Unity's handling of a zero-length `ComputeBuffer` is not visible in the code. The model allocates an empty buffer for an empty scene.
- Unity's own limits on a buffer's stride (a multiple of 4, at most 2048 bytes) are met by both record sizes; only the multiple-of-4 and non-zero conditions are modelled.
- The order in which `FindObjectsByType` returns components is unspecified. It is an input to `OnEnable`, so the model assumes no particular order.
- Rendering before `OnEnable` would throw at Assets/RaytracingManager.cs:35, because `_sceneBoxes` is still null there. The model's constructor stands for the null arrays with empty sequences. A shader frame after a failed allocation would throw at Assets/RaytracingManager.cs:55. `OnRenderImage` and `PrepareBuffers` require the buffers to be held, so neither exception path is modelled.
- Destroyed components: a collected `Source` destroyed after `OnEnable` makes line 65 throw on every frame, after the boxes were already uploaded and bound, and a destroyed `Box` keeps being uploaded from its last field values. Scene objects in the model cannot be destroyed, so neither case is modelled.
- The `Update` frame-rate print (Assets/RaytracingManager.cs:115-118) is debug output.
- `Box.Start` reading renderer bounds, `Source`'s spectrum analysis and colour smoothing, the camera controller and the compute-shader dispatch component are outside this model; `Box` and `Source` are modelled only as the fields the manager reads.
- Ordering and synchronisation between GPU work and the blit is not modelled.
