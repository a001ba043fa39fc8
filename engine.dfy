/** The engine and GPU calls the manager makes, as effects on state the
    model can see: a compute buffer's words and release count, a material's
    named bindings, a render texture's pixels. The GPU kernel itself is a
    function the caller supplies. */
module Engine {
  import opened Floats

  /** `ComputeBuffer`: `count` records of `stride` bytes, held as the
      4-byte words they occupy. */
  class ComputeBuffer {
    const count: nat
    const stride: nat
    var data: seq<Word>
    var releaseCount: nat

    ghost predicate Valid()
      reads this
    {
      stride > 0 && stride % SizeOfFloat == 0 && |data| == count * (stride / SizeOfFloat)
    }

    /** Allocates `count` records of `stride` bytes. The contents are
        unspecified: the body starts from zeros, and no contract says so. */
    constructor (count: nat, stride: nat)
      requires stride > 0 && stride % SizeOfFloat == 0
      ensures Valid() && this.count == count && this.stride == stride && releaseCount == 0
    {
      this.count, this.stride := count, stride;
      data := seq(count * (stride / SizeOfFloat), _ => 0);
      releaseCount := 0;
    }

    /** `SetData`: uploads `words` to the start of the buffer. */
    method SetData(words: seq<Word>)
      requires Valid() && |words| <= |data|
      modifies this`data
      ensures Valid() && data == words + old(data)[|words|..]
    {
      data := words + data[|words|..];
    }

    /** `Release`: frees the device memory. */
    method Release()
      modifies this`releaseCount
      ensures releaseCount == old(releaseCount) + 1
    {
      releaseCount := releaseCount + 1;
    }
  }

  /** A shader material with the named parameters the manager binds. */
  class Material {
    var buffers: map<string, ComputeBuffer>
    var ints: map<string, int>

    constructor ()
      ensures buffers == map[] && ints == map[]
    {
      buffers, ints := map[], map[];
    }

    method SetBuffer(name: string, buffer: ComputeBuffer)
      modifies this`buffers
      ensures buffers == old(buffers)[name := buffer]
    {
      buffers := buffers[name := buffer];
    }

    method SetInt(name: string, value: int)
      modifies this`ints
      ensures ints == old(ints)[name := value]
    {
      ints := ints[name := value];
    }
  }

  datatype Color = Color(r: Float, g: Float, b: Float, a: Float)

  class RenderTexture {
    var pixels: seq<Color>

    constructor (pixels: seq<Color>)
      ensures this.pixels == pixels
    {
      this.pixels := pixels;
    }
  }

  /** What the kernel reads: the camera image and the bound scene buffers
      with their counts. */
  datatype KernelInputs = KernelInputs(camera: seq<Color>, boxes: seq<Word>, boxCount: int,
                                       sources: seq<Word>, sourceCount: int)

  /** The ray-tracing shader pass, supplied by the caller. */
  type Kernel = KernelInputs -> seq<Color>

  /** `Graphics.Blit(source, destination)`: a plain copy. */
  method Blit(source: RenderTexture, destination: RenderTexture)
    modifies destination
    ensures destination.pixels == old(source.pixels)
  {
    destination.pixels := source.pixels;
  }

  /** `Graphics.Blit(source, destination, material)`: runs the kernel on the
      source image and the material's `boxes`/`sources` bindings. */
  method BlitWithMaterial(source: RenderTexture, destination: RenderTexture, material: Material, kernel: Kernel)
    requires "boxes" in material.buffers && "sources" in material.buffers
    requires "boxCount" in material.ints && "sourceCount" in material.ints
    modifies destination
    ensures destination.pixels == kernel(KernelInputs(old(source.pixels),
      old(material.buffers["boxes"].data), old(material.ints["boxCount"]),
      old(material.buffers["sources"].data), old(material.ints["sourceCount"])))
  {
    var inputs := KernelInputs(source.pixels,
      material.buffers["boxes"].data, material.ints["boxCount"],
      material.buffers["sources"].data, material.ints["sourceCount"]);
    destination.pixels := kernel(inputs);
  }
}
