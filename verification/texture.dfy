/**
 * Textures: the staging copy that pads each decoded row to a 256-byte pitch,
 * and the texture cache that gives every new file its own shader-resource
 * slot in the descriptor heap.
 */
module Textures {
  import opened Options
  import opened ShaderConstants

  /** `int` arithmetic must stay below 2^31. */
  const I32: int := 0x8000_0000
  /** `maxTextures` when not given: the size of the descriptor heap. */
  const DefaultMaxTextures: nat := 100

  /** A decoded image, four bytes per pixel, rows top to bottom. */
  datatype Image = Image(width: nat, height: nat, pixels: seq<bv8>)

  ghost predicate ImageOk(image: Image)
  {
    |image.pixels| == image.width * image.height * 4
  }

  /** `(width * 4 + 255) & ~255`: the row's bytes padded to a multiple of 256. */
  function RowPitch(width: nat): (r: nat)
    requires width * 4 + 255 < I32
    ensures width * 4 <= r < width * 4 + 256 && r % 256 == 0
  {
    CbSizeRoundsUp(width * 4, 0);
    CbSize(width * 4)
  }

  /** No multiple of 256 that holds a row is smaller than the pitch. */
  lemma RowPitchSmallest(width: nat, m: nat)
    requires width * 4 + 255 < I32 && m % 256 == 0 && m >= width * 4
    ensures RowPitch(width) <= m
  {
    CbSizeRoundsUp(width * 4, m);
  }

  /** Row `y` of `upload`, `y` pitches from its start, holds row `y` of `pixels`. */
  ghost predicate RowCopied(upload: seq<bv8>, pixels: seq<bv8>, pitch: nat, w4: nat, y: nat)
  {
    y * pitch + w4 <= |upload| && y * w4 + w4 <= |pixels| &&
    upload[y * pitch..y * pitch + w4] == pixels[y * w4..y * w4 + w4]
  }

  /** Row `y` of the upload holds row `y` of the image. */
  ghost predicate Staged(upload: seq<bv8>, image: Image, y: nat)
    requires image.width * 4 + 255 < I32
  {
    RowCopied(upload, image.pixels, RowPitch(image.width), image.width * 4, y)
  }

  /** Conditions for the staging copy: a whole image, and sizes that fit `int` and `unsigned int`. */
  ghost predicate Stageable(image: Image)
  {
    ImageOk(image) && image.width * 4 + 255 < I32 && RowPitch(image.width) * image.height < U32
  }

  /** Writing row `y` leaves the rows above it as they were. */
  lemma {:induction false} RowsKept(before: seq<bv8>, pixels: seq<bv8>, pitch: nat, w4: nat, y: nat, row: seq<bv8>)
    requires w4 <= pitch && |row| == w4 && y * pitch + w4 <= |before|
    requires forall r :: 0 <= r < y ==> RowCopied(before, pixels, pitch, w4, r)
    ensures forall r :: 0 <= r < y ==> RowCopied(Written(before, y * pitch, row), pixels, pitch, w4, r)
  {
    var after := Written(before, y * pitch, row);
    forall r | 0 <= r < y
      ensures RowCopied(after, pixels, pitch, w4, r)
    {
      assert RowCopied(before, pixels, pitch, w4, r);
      SlotsDisjoint(0, pitch, r, y);
      WrittenElsewhere(before, y * pitch, row, r * pitch, r * pitch + w4);
    }
  }

  /** One row's `memcpy`: `w4` bytes from row `y` of `pixels` to `y` pitches into the upload. */
  method CopyRow(upload: array<bv8>, pixels: seq<bv8>, pitch: nat, w4: nat, height: nat, y: nat)
    requires w4 <= pitch && y < height && upload.Length == pitch * height && |pixels| == height * w4
    requires forall r :: 0 <= r < y ==> RowCopied(upload[..], pixels, pitch, w4, r)
    modifies upload
    ensures forall r :: 0 <= r <= y ==> RowCopied(upload[..], pixels, pitch, w4, r)
  {
    SlotsDisjoint(0, pitch, y, height);
    SlotsDisjoint(0, w4, y, height);
    var at, from := y * pitch, y * w4;
    ghost var before := upload[..];
    ghost var row := pixels[from..from + w4];
    RowsKept(before, pixels, pitch, w4, y, row);
    WrittenSlice(before, at, row);
    forall i | at <= i < at + w4 {
      upload[i] := pixels[from + (i - at)];
    }
    assert upload[..] == Written(before, at, row);
  }

  /**
   * The row copy of `Texture::load`: an upload of `RowPitch * height` bytes
   * whose every row holds the matching image row.
   */
  method Stage(image: Image) returns (upload: array<bv8>)
    requires Stageable(image)
    ensures fresh(upload) && upload.Length == RowPitch(image.width) * image.height
    ensures forall y :: 0 <= y < image.height ==> Staged(upload[..], image, y)
  {
    var pitch, w4 := RowPitch(image.width), image.width * 4;
    assert |image.pixels| == image.height * w4;
    upload := new bv8[pitch * image.height];
    var y := 0;
    while y < image.height
      invariant 0 <= y <= image.height
      invariant forall r :: 0 <= r < y ==> RowCopied(upload[..], image.pixels, pitch, w4, r)
    {
      CopyRow(upload, image.pixels, pitch, w4, image.height, y);
      y := y + 1;
    }
  }

  class Texture {
    var width: nat
    var height: nat
    /** Whether the file decoded and a resource was made for it. */
    var loaded: bool
    /** What was uploaded to the resource. */
    var uploaded: seq<bv8>
    /** The slot of its shader-resource view in the descriptor heap, fixed when the cache makes it. */
    const srvIndex: nat

    constructor (index: nat)
      ensures !loaded && uploaded == [] && srvIndex == index
    {
      width, height, loaded, uploaded := 0, 0, false, [];
      srvIndex := index;
    }

    /**
     * `load`, given what `stbi_load` decoded: a file that does not decode leaves the texture without a
     * resource; otherwise its size is taken and its rows are uploaded at
     * the padded pitch.
     */
    method Load(decoded: Option<Image>)
      requires decoded.Some? ==> Stageable(decoded.value)
      modifies this
      ensures decoded.None? ==> !loaded && uploaded == old(uploaded) && width == old(width) && height == old(height)
      ensures decoded.Some? ==>
        loaded && width == decoded.value.width && height == decoded.value.height &&
        |uploaded| == RowPitch(width) * height &&
        forall y :: 0 <= y < height ==> Staged(uploaded, decoded.value, y)
    {
      if decoded.None? {
        loaded := false;
        return;
      }
      var image := decoded.value;
      width, height := image.width, image.height;
      var upload := Stage(image);
      uploaded := upload[..];
      loaded := true;
    }
  }

  class TextureManager {
    var textures: map<string, Texture>
    var nextTextureIndex: nat
    const maxTextures: nat
    /** How many slots were handed out to textures that `cleanup` has since dropped. */
    ghost var released: nat

    /**
     * Every slot handed out is counted: the counter is the number of cached
     * textures plus those released, each cached texture has a slot below the
     * counter, and no two share one.
     */
    ghost predicate Valid()
      reads this
    {
      nextTextureIndex == |textures.Keys| + released &&
      (forall n :: n in textures ==> textures[n].srvIndex < nextTextureIndex) &&
      forall n, m :: n in textures && m in textures && n != m ==>
        textures[n] != textures[m] && textures[n].srvIndex != textures[m].srvIndex
    }

    /** `init`: an empty cache and a heap of `maxTextureCount` slots, the first of them next. */
    constructor Init(maxTextureCount: nat)
      ensures Valid() && textures == map[] && nextTextureIndex == 0 && maxTextures == maxTextureCount
    {
      textures := map[];
      nextTextureIndex := 0;
      maxTextures := maxTextureCount;
      released := 0;
    }

    /** Whether a texture's view lies inside the heap. */
    predicate InHeap(texture: Texture)
      reads this
    {
      texture.srvIndex < maxTextures
    }

    /**
     * `load`: a cached file returns its texture and changes nothing; a new
     * one is decoded, takes the next slot (even when it did not decode) and
     * is cached.
     */
    method Load(filename: string, decoded: Option<Image>) returns (texture: Texture)
      requires Valid() && (decoded.Some? ==> Stageable(decoded.value))
      modifies this
      ensures Valid()
      ensures filename in old(textures) ==>
        texture == old(textures[filename]) && textures == old(textures) && nextTextureIndex == old(nextTextureIndex)
      ensures filename !in old(textures) ==>
        fresh(texture) && textures == old(textures)[filename := texture] &&
        nextTextureIndex == old(nextTextureIndex) + 1 && texture.srvIndex == old(nextTextureIndex) &&
        texture.loaded == decoded.Some?
      ensures filename !in old(textures) ==> (InHeap(texture) <==> old(nextTextureIndex) < maxTextures)
    {
      if filename in textures {
        texture := textures[filename];
        return;
      }
      texture := new Texture(nextTextureIndex);
      texture.Load(decoded);
      Insert(filename, texture);
    }

    /** A new texture holding the next slot enters the cache and the counter moves on. */
    method Insert(filename: string, texture: Texture)
      requires Valid() && filename !in textures && texture !in textures.Values
      requires texture.srvIndex == nextTextureIndex
      modifies this
      ensures Valid() && textures == old(textures)[filename := texture] && nextTextureIndex == old(nextTextureIndex) + 1
    {
      nextTextureIndex := nextTextureIndex + 1;
      textures := textures[filename := texture];
    }

    /** `get`: the cached texture, if any; nothing is added. */
    method Get(filename: string) returns (texture: Option<Texture>)
      ensures filename in textures ==> texture == Some(textures[filename])
      ensures filename !in textures ==> texture == None
    {
      if filename in textures {
        return Some(textures[filename]);
      }
      return None;
    }

    /** `cleanup`: the cache is emptied; the counter keeps counting from where it was. */
    method Cleanup()
      requires Valid()
      modifies this
      ensures Valid() && textures == map[] && nextTextureIndex == old(nextTextureIndex)
    {
      released := released + |textures.Keys|;
      textures := map[];
    }
  }
}
