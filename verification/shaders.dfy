/**
 * Constant buffers and shaders. Each `ConstantBuffer` holds `numInstances`
 * slots of `cbSizeInBytes` bytes in one upload allocation and writes the
 * current slot; `next` moves round the ring so that successive draws read
 * different slots. `Shaders` caches shaders by name and strips a UTF-8
 * byte-order mark from the files it reads (section 6 of RFC 3629).
 */
module ShaderConstants {
  /** `unsigned int` arithmetic wraps modulo 2^32. */
  const U32: int := 0x1_0000_0000
  /** `maxDrawCalls` when not given. */
  const DefaultDrawCalls: nat := 1024

  /** Where a variable lives inside one slot. */
  datatype Variable = Variable(offset: nat, size: nat)

  /** What `constantBufferData[name]` inserts for an unknown name. */
  const NoVariable: Variable := Variable(0, 0)

  // ---------------------------------------------------------------------------
  // Slot size and ring

  /** `(sizeInBytes + 255) & ~255` on `unsigned int`: the sum wraps, then the low eight bits are cleared. */
  function CbSize(sizeInBytes: nat): (r: nat)
    requires sizeInBytes < U32
    ensures r % 256 == 0 && r < U32
  {
    var sum := (sizeInBytes + 255) % U32;
    sum - sum % 256
  }

  /** Without wrap-around the slot is the smallest multiple of 256 that holds `sizeInBytes` bytes. */
  lemma CbSizeRoundsUp(sizeInBytes: nat, m: nat)
    requires sizeInBytes <= U32 - 256
    ensures sizeInBytes <= CbSize(sizeInBytes) < sizeInBytes + 256
    ensures m % 256 == 0 && m >= sizeInBytes ==> CbSize(sizeInBytes) <= m
  {
    assert (sizeInBytes + 255) % U32 == sizeInBytes + 255;
  }

  /** `next`: one slot on, back to slot 0 at the end of the ring. */
  function NextSlot(index: nat, count: nat): (r: nat)
    ensures count > 0 ==> r < count
    ensures r == 0 || r == index + 1
  {
    if index + 1 >= count then 0 else index + 1
  }

  /** Where the ring is after `k` calls of `next`. */
  function Advanced(index: nat, count: nat, k: nat): nat
  {
    if k == 0 then index else NextSlot(Advanced(index, count, k - 1), count)
  }

  /** `n` reduced into `[0, count)` by taking whole rounds off: `n mod count`. */
  function Wrap(n: nat, count: nat): (r: nat)
    requires count > 0
    ensures r < count
  {
    if n < count then n else Wrap(n - count, count)
  }

  /** One `next` from the reduced position is the reduced next position. */
  lemma {:induction false} NextSlotWraps(n: nat, count: nat)
    requires count > 0
    ensures NextSlot(Wrap(n, count), count) == Wrap(n + 1, count)
  {
    if n >= count {
      NextSlotWraps(n - count, count);
    }
  }

  /** Inside the ring, `k` calls of `next` land on `index + k` mod `count`: every slot is used before one is reused. */
  lemma {:induction false} RingCycles(index: nat, count: nat, k: nat)
    requires index < count
    ensures Advanced(index, count, k) == Wrap(index + k, count)
  {
    if k > 0 {
      RingCycles(index, count, k - 1);
      NextSlotWraps(index + k - 1, count);
    }
  }

  /** `data` copied over `s` from byte `at` on. */
  function Written(s: seq<bv8>, at: nat, data: seq<bv8>): (r: seq<bv8>)
    requires at + |data| <= |s|
    ensures |r| == |s|
  {
    s[..at] + data + s[at + |data|..]
  }

  /** A copy changes exactly the bytes it covers, to the bytes copied. */
  lemma WrittenExactly(s: seq<bv8>, at: nat, data: seq<bv8>)
    requires at + |data| <= |s|
    ensures forall i :: 0 <= i < |s| ==>
      Written(s, at, data)[i] == if at <= i < at + |data| then data[i - at] else s[i]
  {
  }

  /** The copied range reads back as the data. */
  lemma WrittenSlice(s: seq<bv8>, at: nat, data: seq<bv8>)
    requires at + |data| <= |s|
    ensures Written(s, at, data)[at..at + |data|] == data
  {
  }

  /** A range the copy does not reach reads as before. */
  lemma WrittenElsewhere(s: seq<bv8>, at: nat, data: seq<bv8>, lo: nat, hi: nat)
    requires at + |data| <= |s| && lo <= hi <= |s|
    requires hi <= at || at + |data| <= lo
    ensures Written(s, at, data)[lo..hi] == s[lo..hi]
  {
    WrittenExactly(s, at, data);
    assert forall i :: lo <= i < hi ==> Written(s, at, data)[i] == s[i];
  }

  /** The slots `i` and `j` of a ring do not overlap. */
  lemma {:induction false} SlotsDisjoint(base: nat, size: nat, i: nat, j: nat)
    requires i < j
    ensures base + i * size + size <= base + j * size
  {
    SlotStep(j - 1, size);
    if i < j - 1 {
      SlotsDisjoint(base, size, i, j - 1);
    }
  }

  lemma SlotStep(i: nat, size: nat)
    ensures (i + 1) * size == i * size + size
  {
  }

  // ---------------------------------------------------------------------------
  // A constant buffer

  class ConstantBuffer {
    var name: string
    var variables: map<string, Variable>
    /** The mapped upload memory. */
    const bytes: array<bv8>
    const cbSizeInBytes: nat
    const numInstances: nat
    var offsetIndex: nat
    /** `GetGPUVirtualAddress()` of the allocation. */
    const gpuBase: nat

    /** The slots fill the allocation, the index names one of them, and every known variable fits in a slot. */
    ghost predicate Valid()
      reads this
    {
      cbSizeInBytes % 256 == 0 && bytes.Length == cbSizeInBytes * numInstances &&
      (if numInstances == 0 then offsetIndex == 0 else offsetIndex < numInstances) &&
      forall v :: v in variables ==> variables[v].offset + variables[v].size <= cbSizeInBytes
    }

    /**
     * `init`: the slot size rounded up to 256, `maxDrawCalls` slots, the ring
     * at slot 0. The variables are those reflection reported for the buffer.
     */
    constructor Init(cbName: string, vars: map<string, Variable>, sizeInBytes: nat, maxDrawCalls: nat, base: nat)
      requires sizeInBytes < U32 && CbSize(sizeInBytes) * maxDrawCalls < U32
      requires forall v :: v in vars ==> vars[v].offset + vars[v].size <= CbSize(sizeInBytes)
      ensures Valid() && fresh(bytes)
      ensures name == cbName && variables == vars && offsetIndex == 0 && gpuBase == base
      ensures cbSizeInBytes == CbSize(sizeInBytes) && numInstances == maxDrawCalls
      ensures bytes.Length == cbSizeInBytes * numInstances
    {
      name := cbName;
      variables := vars;
      cbSizeInBytes := CbSize(sizeInBytes);
      numInstances := maxDrawCalls;
      offsetIndex := 0;
      gpuBase := base;
      bytes := new bv8[CbSize(sizeInBytes) * maxDrawCalls];
    }

    /** The variable `update` writes: the known one, or an empty one. */
    function Lookup(varName: string): (v: Variable)
      reads this
      requires Valid()
      ensures v.offset + v.size <= cbSizeInBytes
      ensures varName !in variables ==> v.size == 0
    {
      if varName in variables then variables[varName] else NoVariable
    }

    /** Where the current slot starts. */
    function SlotStart(): (r: nat)
      reads this
      requires Valid() && numInstances > 0
      ensures r + cbSizeInBytes <= bytes.Length
    {
      SlotsDisjoint(0, cbSizeInBytes, offsetIndex, numInstances);
      offsetIndex * cbSizeInBytes
    }

    /**
     * `update`: the variable's bytes of the current slot are overwritten
     * with the first `size` bytes of `data`; nothing else changes. An
     * unknown name is entered with offset and size 0, and nothing is written.
     */
    method Update(varName: string, data: seq<bv8>)
      requires Valid() && numInstances > 0 && |data| >= Lookup(varName).size
      modifies this, bytes
      ensures Valid() && offsetIndex == old(offsetIndex) && name == old(name)
      ensures variables == if varName in old(variables) then old(variables) else old(variables)[varName := NoVariable]
      ensures bytes[..] == Written(old(bytes[..]), old(SlotStart() + Lookup(varName).offset), data[..old(Lookup(varName).size)])
    {
      if varName !in variables {
        variables := variables[varName := NoVariable];
      }
      var v := variables[varName];
      var at := offsetIndex * cbSizeInBytes + v.offset;
      SlotsDisjoint(0, cbSizeInBytes, offsetIndex, numInstances);
      forall i | at <= i < at + v.size {
        bytes[i] := data[i - at];
      }
      assert bytes[..] == Written(old(bytes[..]), at, data[..v.size]);
    }

    /** `getGPUAddress`: the current slot, inside the allocation. */
    function GetGPUAddress(): (r: nat)
      reads this
      requires Valid() && numInstances > 0
      ensures gpuBase <= r && r + cbSizeInBytes <= gpuBase + bytes.Length
    {
      gpuBase + SlotStart()
    }

    /** `next`: the ring moves on one slot. */
    method Next()
      requires Valid()
      modifies `offsetIndex
      ensures Valid() && offsetIndex == NextSlot(old(offsetIndex), numInstances)
    {
      offsetIndex := offsetIndex + 1;
      if offsetIndex >= numInstances {
        offsetIndex := 0;
      }
    }
  }

  // ---------------------------------------------------------------------------
  // A shader's buffers

  /** The index of the first buffer called `cbName`, or `|buffers|` when there is none. */
  function FirstNamed(names: seq<string>, cbName: string): (k: nat)
    ensures k <= |names|
    ensures k < |names| ==> names[k] == cbName
    ensures forall i :: 0 <= i < k ==> names[i] != cbName
  {
    if names == [] then 0 else if names[0] == cbName then 0 else 1 + FirstNamed(names[1..], cbName)
  }

  /** The buffers' names, in order. */
  ghost function Names(buffers: seq<ConstantBuffer>): (r: seq<string>)
    reads buffers
    ensures |r| == |buffers|
  {
    seq(|buffers|, i reads buffers requires 0 <= i < |buffers| => buffers[i].name)
  }

  /** Different buffers, each with its own allocation, each valid. */
  ghost predicate BuffersOk(buffers: seq<ConstantBuffer>)
    reads buffers
  {
    (forall i, j :: 0 <= i < j < |buffers| ==> buffers[i] != buffers[j] && buffers[i].bytes != buffers[j].bytes) &&
    forall i :: 0 <= i < |buffers| ==> buffers[i].Valid()
  }

  /** The arrays behind a list of buffers. */
  ghost function Allocations(buffers: seq<ConstantBuffer>): set<array<bv8>>
  {
    set i | 0 <= i < |buffers| :: buffers[i].bytes
  }

  /**
   * `updateConstant`: the first buffer called `cbName` gets the update; with
   * none, nothing changes.
   */
  method UpdateConstant(buffers: seq<ConstantBuffer>, cbName: string, varName: string, data: seq<bv8>)
    requires BuffersOk(buffers)
    requires var k := FirstNamed(Names(buffers), cbName);
      k < |buffers| ==> buffers[k].numInstances > 0 && |data| >= buffers[k].Lookup(varName).size
    modifies buffers, Allocations(buffers)
    ensures BuffersOk(buffers)
    ensures var k := FirstNamed(old(Names(buffers)), cbName);
      forall i :: 0 <= i < |buffers| && i != k ==> unchanged(buffers[i], buffers[i].bytes)
    ensures var k := FirstNamed(old(Names(buffers)), cbName);
      k < |buffers| ==>
        buffers[k].offsetIndex == old(buffers[k].offsetIndex) && buffers[k].name == cbName &&
        buffers[k].bytes[..] == Written(old(buffers[k].bytes[..]),
                                        old(buffers[k].SlotStart() + buffers[k].Lookup(varName).offset),
                                        data[..old(buffers[k].Lookup(varName).size)])
  {
    ghost var names := Names(buffers);
    var i := 0;
    while i < |buffers|
      invariant 0 <= i <= |buffers| && forall j :: 0 <= j < i ==> names[j] != cbName
    {
      if buffers[i].name == cbName {
        assert FirstNamed(names, cbName) == i by { FirstIsFirst(names, cbName, i); }
        buffers[i].Update(varName, data);
        return;
      }
      i := i + 1;
    }
    assert FirstNamed(names, cbName) == |buffers| by { NoneNamed(names, cbName); }
  }

  /** A position holding the name with none before it is the first. */
  lemma {:induction false} FirstIsFirst(names: seq<string>, cbName: string, i: nat)
    requires i < |names| && names[i] == cbName && forall j :: 0 <= j < i ==> names[j] != cbName
    ensures FirstNamed(names, cbName) == i
  {
    if i > 0 {
      FirstIsFirst(names[1..], cbName, i - 1);
    }
  }

  /** Without the name anywhere the search runs off the end. */
  lemma {:induction false} NoneNamed(names: seq<string>, cbName: string)
    requires forall j :: 0 <= j < |names| ==> names[j] != cbName
    ensures FirstNamed(names, cbName) == |names|
  {
    if names != [] {
      NoneNamed(names[1..], cbName);
    }
  }

  /** A root constant-buffer binding made by `apply`: the root parameter and the address. */
  datatype Binding = Binding(parameter: nat, address: nat)

  class Shader {
    var vsBuffers: seq<ConstantBuffer>
    var psBuffers: seq<ConstantBuffer>
    var textureBindPoints: map<string, int>
    /** The vertex and pixel shader source as read, byte-order mark dropped. */
    var vsSource: seq<bv8>
    var psSource: seq<bv8>

    /** Both lists are sound, and no buffer or allocation is shared between them. */
    ghost predicate Valid()
      reads this, vsBuffers, psBuffers
    {
      BuffersOk(vsBuffers) && BuffersOk(psBuffers) &&
      forall i, j :: 0 <= i < |vsBuffers| && 0 <= j < |psBuffers| ==>
        vsBuffers[i] != psBuffers[j] && vsBuffers[i].bytes != psBuffers[j].bytes
    }

    /** A shader holding the sources it was compiled from, before reflection adds its buffers. */
    constructor (vs: seq<bv8>, ps: seq<bv8>)
      ensures Valid() && vsSource == vs && psSource == ps
      ensures vsBuffers == [] && psBuffers == [] && textureBindPoints == map[]
    {
      vsBuffers := [];
      psBuffers := [];
      textureBindPoints := map[];
      vsSource := vs;
      psSource := ps;
    }

    /** Each buffer of `buffers` is bound at its current slot, then moved on; the bindings in order. */
    method Advance(buffers: seq<ConstantBuffer>, parameter: nat) returns (bound: seq<Binding>)
      requires BuffersOk(buffers) && forall i :: 0 <= i < |buffers| ==> buffers[i].numInstances > 0
      modifies buffers
      ensures BuffersOk(buffers) && |bound| == |buffers|
      ensures forall i :: 0 <= i < |buffers| ==>
        bound[i] == Binding(parameter, old(buffers[i].GetGPUAddress())) &&
        buffers[i].offsetIndex == NextSlot(old(buffers[i].offsetIndex), buffers[i].numInstances) &&
        buffers[i].variables == old(buffers[i].variables) && buffers[i].name == old(buffers[i].name)
    {
      bound := [];
      var i := 0;
      while i < |buffers|
        invariant 0 <= i <= |buffers| && |bound| == i && BuffersOk(buffers)
        invariant forall j :: 0 <= j < i ==>
          bound[j] == Binding(parameter, old(buffers[j].GetGPUAddress())) &&
          buffers[j].offsetIndex == NextSlot(old(buffers[j].offsetIndex), buffers[j].numInstances)
        invariant forall j :: i <= j < |buffers| ==> buffers[j].offsetIndex == old(buffers[j].offsetIndex)
        invariant forall j :: 0 <= j < |buffers| ==>
          buffers[j].variables == old(buffers[j].variables) && buffers[j].name == old(buffers[j].name)
      {
        bound := bound + [Binding(parameter, buffers[i].GetGPUAddress())];
        buffers[i].Next();
        i := i + 1;
      }
    }

    /**
     * `apply`: every vertex-shader buffer is bound to root parameter 0 and
     * every pixel-shader buffer to 1, each at its current slot, and each ring
     * moves on exactly once.
     */
    method Apply() returns (bound: seq<Binding>)
      requires Valid()
      requires forall i :: 0 <= i < |vsBuffers| ==> vsBuffers[i].numInstances > 0
      requires forall i :: 0 <= i < |psBuffers| ==> psBuffers[i].numInstances > 0
      modifies vsBuffers, psBuffers
      ensures Valid() && |bound| == |vsBuffers| + |psBuffers|
      ensures forall i :: 0 <= i < |vsBuffers| ==>
        bound[i] == Binding(0, old(vsBuffers[i].GetGPUAddress())) &&
        vsBuffers[i].offsetIndex == NextSlot(old(vsBuffers[i].offsetIndex), vsBuffers[i].numInstances)
      ensures forall i :: 0 <= i < |psBuffers| ==>
        bound[|vsBuffers| + i] == Binding(1, old(psBuffers[i].GetGPUAddress())) &&
        psBuffers[i].offsetIndex == NextSlot(old(psBuffers[i].offsetIndex), psBuffers[i].numInstances)
    {
      var vsBound := Advance(vsBuffers, 0);
      var psBound := Advance(psBuffers, 1);
      bound := vsBound + psBound;
    }
  }

  // ---------------------------------------------------------------------------
  // Reading and caching shaders

  /** The UTF-8 encoding of U+FEFF. */
  const Bom: seq<bv8> := [0xEF, 0xBB, 0xBF]

  /** `readFile` after the read: a leading byte-order mark is dropped. */
  function StripBom(content: seq<bv8>): (r: seq<bv8>)
    ensures |content| >= 3 && content[..3] == Bom ==> r == content[3..]
    ensures !(|content| >= 3 && content[..3] == Bom) ==> r == content
  {
    if |content| >= 3 && content[0] == 0xEF && content[1] == 0xBB && content[2] == 0xBF then content[3..] else content
  }

  /** A file saved with a mark reads back as the text without it. */
  lemma StripBomRoundTrip(text: seq<bv8>)
    ensures StripBom(Bom + text) == text
  {
    assert (Bom + text)[..3] == Bom;
    assert (Bom + text)[3..] == text;
  }

  /** At most the three bytes of one mark are dropped: a second mark stays. */
  lemma StripBomOnce(text: seq<bv8>)
    ensures StripBom(Bom + Bom + text) == Bom + text
  {
    StripBomRoundTrip(Bom + text);
    assert Bom + Bom + text == Bom + (Bom + text);
  }

  class Shaders {
    var shaders: map<string, Shader>

    constructor ()
      ensures shaders == map[]
    {
      shaders := map[];
    }

    /**
     * `load`: a name already cached is left as it is; otherwise both files'
     * contents, mark dropped, make a new shader under that name.
     */
    method Load(shaderName: string, vsFile: seq<bv8>, psFile: seq<bv8>)
      modifies this
      ensures shaderName in old(shaders) ==> shaders == old(shaders)
      ensures shaderName !in old(shaders) ==>
        shaders.Keys == old(shaders.Keys) + {shaderName} &&
        (forall n :: n in old(shaders) ==> shaders[n] == old(shaders[n])) &&
        fresh(shaders[shaderName]) &&
        shaders[shaderName].vsSource == StripBom(vsFile) && shaders[shaderName].psSource == StripBom(psFile)
    {
      if shaderName in shaders {
        return;
      }
      var shader := new Shader(StripBom(vsFile), StripBom(psFile));
      shaders := shaders[shaderName := shader];
    }

    /** `find`: `shaders[name]`, which enters an empty shader under an unknown name. */
    method Find(shaderName: string) returns (shader: Shader)
      modifies this
      ensures shaderName in shaders && shader == shaders[shaderName]
      ensures shaderName in old(shaders) ==> shaders == old(shaders)
      ensures shaderName !in old(shaders) ==>
        fresh(shader) && shader.vsBuffers == [] && shader.psBuffers == [] &&
        shaders == old(shaders)[shaderName := shader]
    {
      if shaderName !in shaders {
        var empty := new Shader([], []);
        shaders := shaders[shaderName := empty];
      }
      shader := shaders[shaderName];
    }
  }
}
