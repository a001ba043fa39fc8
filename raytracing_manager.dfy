/** `RaytracingManager`: collects the scene's boxes and sources when
    enabled, sizes one structured buffer for each, repacks and uploads both
    every frame the shader pass runs, and releases them on teardown. */
module Raytracing {
  import opened Floats
  import MaterialLayout
  import BoxLayout
  import SourceLayout
  import Scene
  import Engine

  /** The record a scene box becomes: corners copied, the four material
      floats moved into the material in declaration order. */
  function BoxRecord(b: Scene.Box): (r: BoxLayout.RTBox)
    reads b
    ensures BoxLayout.Encode(r) == EncodeVector3(b.min) + EncodeVector3(b.max) +
      [b.absorption.bits, b.transmission.bits, b.roughness.bits, b.scatter.bits]
  {
    BoxLayout.RTBox(b.min, b.max,
      MaterialLayout.RTMaterial(b.absorption, b.transmission, b.roughness, b.scatter))
  }

  /** The record a scene source becomes: the position of its transform,
      its color and its intensity. */
  function SourceRecord(s: Scene.Source): (r: SourceLayout.RTSource)
    reads s, s.transform
    ensures SourceLayout.Encode(r) ==
      EncodeVector3(s.transform.position) + EncodeVector3(s.color) + [s.intensity.bits]
  {
    SourceLayout.RTSource(s.transform.position, s.color, s.intensity)
  }

  /** The records of a whole scene array, index for index. */
  ghost function BoxRecords(boxes: seq<Scene.Box>): (r: seq<BoxLayout.RTBox>)
    reads boxes
    ensures |r| == |boxes|
    ensures forall i :: 0 <= i < |boxes| ==> r[i] == BoxRecord(boxes[i])
  {
    seq(|boxes|, i requires 0 <= i < |boxes| reads boxes => BoxRecord(boxes[i]))
  }

  ghost function SourceRecords(sources: seq<Scene.Source>): (r: seq<SourceLayout.RTSource>)
    reads sources, set s | s in sources :: s.transform
    ensures |r| == |sources|
    ensures forall i :: 0 <= i < |sources| ==> r[i] == SourceRecord(sources[i])
  {
    seq(|sources|, i requires 0 <= i < |sources| reads sources, set s | s in sources :: s.transform
      => SourceRecord(sources[i]))
  }

  /** A buffer that is allocated, not yet released, and sized for `count`
      records of `stride` bytes. */
  ghost predicate Live(buffer: Engine.ComputeBuffer, count: nat, stride: nat)
    reads buffer
  {
    buffer.Valid() && buffer.count == count && buffer.stride == stride && buffer.releaseCount == 0
  }

  class RaytracingManager {
    var useShader: bool
    var raytracingMaterial: Engine.Material?

    var sceneBoxes: seq<Scene.Box>
    var sceneSources: seq<Scene.Source>

    var boxBuffer: Engine.ComputeBuffer?
    var sourceBuffer: Engine.ComputeBuffer?

    /** Both buffers are allocated or both are null; allocated buffers are
        two distinct live buffers whose counts are the lengths of the scene
        arrays, at the record strides. */
    ghost predicate Valid()
      reads this, boxBuffer, sourceBuffer
      ensures Valid() && boxBuffer != null ==>
        sourceBuffer != null && boxBuffer != sourceBuffer &&
        |boxBuffer.data| == BoxLayout.WordCount() * |sceneBoxes| &&
        |sourceBuffer.data| == SourceLayout.WordCount() * |sceneSources|
    {
      (boxBuffer == null <==> sourceBuffer == null) &&
      (boxBuffer != null ==>
        boxBuffer != sourceBuffer &&
        Live(boxBuffer, |sceneBoxes|, BoxLayout.Size()) &&
        Live(sourceBuffer, |sceneSources|, SourceLayout.Size()))
    }

    /** The frame takes the shader pass rather than a plain copy. */
    predicate ShaderPath()
      reads this
      ensures ShaderPath() ==> raytracingMaterial != null
    {
      useShader && raytracingMaterial != null
    }

    /** The component as the engine creates it: serialized settings, nothing
        collected, no buffers. */
    constructor (useShader: bool, raytracingMaterial: Engine.Material?)
      ensures Valid()
      ensures this.useShader == useShader && this.raytracingMaterial == raytracingMaterial
      ensures sceneBoxes == [] && sceneSources == []
      ensures boxBuffer == null && sourceBuffer == null
    {
      this.useShader, this.raytracingMaterial := useShader, raytracingMaterial;
      sceneBoxes, sceneSources := [], [];
      boxBuffer, sourceBuffer := null, null;
    }

    /** `PrepareObjects`: stores the scene query's results. */
    method PrepareObjects(boxes: seq<Scene.Box>, sources: seq<Scene.Source>)
      modifies this`sceneBoxes, this`sceneSources
      ensures sceneBoxes == boxes && sceneSources == sources
    {
      sceneBoxes := boxes;
      sceneSources := sources;
    }

    /** `CreateBuffers`: one fresh buffer per record kind, sized to the
        collected arrays. Buffers held before are not released. */
    method CreateBuffers()
      modifies this`boxBuffer, this`sourceBuffer
      ensures Valid() && boxBuffer != null
      ensures fresh(boxBuffer) && fresh(sourceBuffer)
      ensures boxBuffer.count == |sceneBoxes| && boxBuffer.stride == BoxLayout.Size()
      ensures sourceBuffer.count == |sceneSources| && sourceBuffer.stride == SourceLayout.Size()
    {
      boxBuffer := new Engine.ComputeBuffer(|sceneBoxes|, BoxLayout.Size());
      sourceBuffer := new Engine.ComputeBuffer(|sceneSources|, SourceLayout.Size());
    }

    /** `OnEnable`: collect, then allocate. Re-enabling replaces both buffer
        references without releasing the buffers they held. */
    method OnEnable(boxes: seq<Scene.Box>, sources: seq<Scene.Source>)
      modifies this`sceneBoxes, this`sceneSources, this`boxBuffer, this`sourceBuffer
      ensures Valid() && boxBuffer != null
      ensures sceneBoxes == boxes && sceneSources == sources
      ensures fresh(boxBuffer) && fresh(sourceBuffer)
      ensures boxBuffer.count == |boxes| && boxBuffer.stride == BoxLayout.Size()
      ensures sourceBuffer.count == |sources| && sourceBuffer.stride == SourceLayout.Size()
      ensures old(boxBuffer) != null ==> old(boxBuffer).releaseCount == old(boxBuffer.releaseCount)
      ensures old(sourceBuffer) != null ==> old(sourceBuffer).releaseCount == old(sourceBuffer.releaseCount)
    {
      PrepareObjects(boxes, sources);
      CreateBuffers();
    }

    /** The copy loop of `PrepareBuffers` for boxes: a new array holding
        one `RTBox` per scene box, record k built from box k. */
    method BuildBoxRecords() returns (rtBoxes: array<BoxLayout.RTBox>)
      ensures fresh(rtBoxes)
      ensures rtBoxes[..] == BoxRecords(sceneBoxes)
    {
      rtBoxes := new BoxLayout.RTBox[|sceneBoxes|];
      var i := 0;
      while i < |sceneBoxes|
        modifies rtBoxes
        invariant 0 <= i <= |sceneBoxes|
        invariant forall k :: 0 <= k < i ==> rtBoxes[k] == BoxRecord(sceneBoxes[k])
      {
        var sceneBox := sceneBoxes[i];
        rtBoxes[i] := BoxLayout.RTBox(sceneBox.min, sceneBox.max,
          MaterialLayout.RTMaterial(sceneBox.absorption, sceneBox.transmission,
                                    sceneBox.roughness, sceneBox.scatter));
        i := i + 1;
      }
    }

    /** The copy loop of `PrepareBuffers` for sources: a new array holding
        one `RTSource` per scene source, record k built from source k. */
    method BuildSourceRecords() returns (rtSources: array<SourceLayout.RTSource>)
      ensures fresh(rtSources)
      ensures rtSources[..] == SourceRecords(sceneSources)
    {
      rtSources := new SourceLayout.RTSource[|sceneSources|];
      var i := 0;
      while i < |sceneSources|
        modifies rtSources
        invariant 0 <= i <= |sceneSources|
        invariant forall k :: 0 <= k < i ==> rtSources[k] == SourceRecord(sceneSources[k])
      {
        var sceneSource := sceneSources[i];
        rtSources[i] := SourceLayout.RTSource(sceneSource.transform.position,
                                              sceneSource.color, sceneSource.intensity);
        i := i + 1;
      }
    }

    /** First half of `PrepareBuffers`: one `RTBox` per scene box, index
        for index, uploaded to the box buffer and bound with its count. */
    method UploadBoxes()
      requires Valid() && boxBuffer != null && raytracingMaterial != null
      modifies boxBuffer`data, raytracingMaterial
      ensures Valid()
      ensures boxBuffer.data == BoxLayout.Pack(old(BoxRecords(sceneBoxes)))
      ensures forall k :: 0 <= k < |sceneBoxes| ==>
        BoxLayout.RecordAt(boxBuffer.data, k) == old(BoxRecord(sceneBoxes[k]))
      ensures raytracingMaterial.buffers == old(raytracingMaterial.buffers)["boxes" := boxBuffer]
      ensures raytracingMaterial.ints == old(raytracingMaterial.ints)["boxCount" := boxBuffer.count]
    {
      ghost var boxes := BoxRecords(sceneBoxes);
      var rtBoxes := BuildBoxRecords();
      assert boxBuffer.stride / SizeOfFloat == BoxLayout.WordCount();
      boxBuffer.SetData(BoxLayout.Pack(rtBoxes[..]));
      assert Live(boxBuffer, |sceneBoxes|, BoxLayout.Size());
      assert Valid();
      raytracingMaterial.SetBuffer("boxes", boxBuffer);
      raytracingMaterial.SetInt("boxCount", boxBuffer.count);
      BoxLayout.PackRecordsAt(boxes);
    }

    /** Second half of `PrepareBuffers`: one `RTSource` per scene source,
        index for index, uploaded to the source buffer and bound with its
        count. */
    method UploadSources()
      requires Valid() && sourceBuffer != null && raytracingMaterial != null
      modifies sourceBuffer`data, raytracingMaterial
      ensures Valid()
      ensures sourceBuffer.data == SourceLayout.Pack(old(SourceRecords(sceneSources)))
      ensures forall k :: 0 <= k < |sceneSources| ==>
        SourceLayout.RecordAt(sourceBuffer.data, k) == old(SourceRecord(sceneSources[k]))
      ensures raytracingMaterial.buffers == old(raytracingMaterial.buffers)["sources" := sourceBuffer]
      ensures raytracingMaterial.ints == old(raytracingMaterial.ints)["sourceCount" := sourceBuffer.count]
    {
      ghost var sources := SourceRecords(sceneSources);
      var rtSources := BuildSourceRecords();
      assert sourceBuffer.stride / SizeOfFloat == SourceLayout.WordCount();
      sourceBuffer.SetData(SourceLayout.Pack(rtSources[..]));
      assert Live(sourceBuffer, |sceneSources|, SourceLayout.Size());
      assert Valid();
      raytracingMaterial.SetBuffer("sources", sourceBuffer);
      raytracingMaterial.SetInt("sourceCount", sourceBuffer.count);
      SourceLayout.PackRecordsAt(sources);
    }

    /** `PrepareBuffers`: repacks the boxes, then the sources. Each buffer
        then holds exactly as many records as its scene array, record k
        built from scene object k, and the material binds both buffers and
        publishes their counts. */
    method PrepareBuffers()
      requires Valid() && boxBuffer != null && raytracingMaterial != null
      modifies boxBuffer`data, sourceBuffer`data, raytracingMaterial
      ensures Valid()
      ensures boxBuffer.data == BoxLayout.Pack(old(BoxRecords(sceneBoxes)))
      ensures forall k :: 0 <= k < |sceneBoxes| ==>
        BoxLayout.RecordAt(boxBuffer.data, k) == old(BoxRecord(sceneBoxes[k]))
      ensures sourceBuffer.data == SourceLayout.Pack(old(SourceRecords(sceneSources)))
      ensures forall k :: 0 <= k < |sceneSources| ==>
        SourceLayout.RecordAt(sourceBuffer.data, k) == old(SourceRecord(sceneSources[k]))
      ensures raytracingMaterial.buffers ==
        old(raytracingMaterial.buffers)["boxes" := boxBuffer]["sources" := sourceBuffer]
      ensures raytracingMaterial.ints ==
        old(raytracingMaterial.ints)["boxCount" := boxBuffer.count]["sourceCount" := sourceBuffer.count]
      ensures boxBuffer.count == |sceneBoxes| && sourceBuffer.count == |sceneSources|
    {
      UploadBoxes();
      UploadSources();
    }

    /** `OnDestroy`: releases each buffer that is not null, once, and nulls
        it. With no buffers held it changes nothing. */
    method OnDestroy()
      requires Valid()
      modifies this`boxBuffer, this`sourceBuffer, boxBuffer, sourceBuffer
      ensures Valid() && boxBuffer == null && sourceBuffer == null
      ensures old(boxBuffer) != null ==> old(boxBuffer).releaseCount == old(boxBuffer.releaseCount) + 1
      ensures old(sourceBuffer) != null ==> old(sourceBuffer).releaseCount == old(sourceBuffer.releaseCount) + 1
      ensures old(boxBuffer) != null ==> old(boxBuffer).data == old(boxBuffer.data)
      ensures old(sourceBuffer) != null ==> old(sourceBuffer).data == old(sourceBuffer.data)
      ensures old(boxBuffer) == null ==> unchanged(this)
    {
      if boxBuffer != null {
        boxBuffer.Release();
        boxBuffer := null;
      }
      if sourceBuffer != null {
        sourceBuffer.Release();
        sourceBuffer := null;
      }
    }

    /** `OnRenderImage`: with the shader on and a material set, repacks the
        buffers and runs the kernel over the camera image; otherwise copies
        the image and touches nothing else. */
    method OnRenderImage(source: Engine.RenderTexture, destination: Engine.RenderTexture, kernel: Engine.Kernel)
      requires Valid()
      requires ShaderPath() ==> boxBuffer != null
      modifies destination, boxBuffer, sourceBuffer, raytracingMaterial
      ensures Valid()
      ensures ShaderPath() ==>
        boxBuffer.data == BoxLayout.Pack(old(BoxRecords(sceneBoxes))) &&
        sourceBuffer.data == SourceLayout.Pack(old(SourceRecords(sceneSources))) &&
        raytracingMaterial.buffers ==
          old(raytracingMaterial.buffers)["boxes" := boxBuffer]["sources" := sourceBuffer] &&
        raytracingMaterial.ints ==
          old(raytracingMaterial.ints)["boxCount" := |sceneBoxes|]["sourceCount" := |sceneSources|] &&
        destination.pixels == kernel(Engine.KernelInputs(old(source.pixels),
          boxBuffer.data, |sceneBoxes|, sourceBuffer.data, |sceneSources|))
      ensures !ShaderPath() ==>
        destination.pixels == old(source.pixels) &&
        (boxBuffer != null ==> unchanged(boxBuffer, sourceBuffer)) &&
        (raytracingMaterial != null ==> unchanged(raytracingMaterial))
    {
      if useShader && raytracingMaterial != null {
        PrepareBuffers();
        Engine.BlitWithMaterial(source, destination, raytracingMaterial, kernel);
      } else {
        Engine.Blit(source, destination);
      }
    }
  }

  /** The engine's lifecycle for one component: enable, render frames,
      destroy, destroy again. Each buffer is released exactly once. */
  method EnableRenderDestroy(m: RaytracingManager, boxes: seq<Scene.Box>, sources: seq<Scene.Source>,
                             frame: Engine.RenderTexture, output: Engine.RenderTexture, kernel: Engine.Kernel)
    returns (boxBuffer: Engine.ComputeBuffer, sourceBuffer: Engine.ComputeBuffer)
    requires m.Valid()
    modifies m, m.raytracingMaterial, output
    ensures m.boxBuffer == null && m.sourceBuffer == null
    ensures boxBuffer.count == |boxes| && sourceBuffer.count == |sources|
    ensures boxBuffer.releaseCount == 1 && sourceBuffer.releaseCount == 1
  {
    m.OnEnable(boxes, sources);
    boxBuffer, sourceBuffer := m.boxBuffer, m.sourceBuffer;
    m.OnRenderImage(frame, output, kernel);
    m.OnRenderImage(frame, output, kernel);
    m.OnDestroy();
    m.OnDestroy();
  }
}
