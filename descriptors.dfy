/**
 * Loading the descriptor configuration of the renderer (graphics.cc
 * `gfx_create_vulkan_state`): each descriptor's shader-stage mask, type
 * and resource, and each descriptor set's instance count and bindings.
 * The data file is taken as already parsed, and the vtk helpers that
 * translate names to Vulkan values are taken as already applied.
 */
module DescriptorConfig {
  import opened Common

  // VkDescriptorType values.
  const VK_DESCRIPTOR_TYPE_COMBINED_IMAGE_SAMPLER: int := 1
  const VK_DESCRIPTOR_TYPE_UNIFORM_BUFFER: int := 6
  const VK_DESCRIPTOR_TYPE_UNIFORM_BUFFER_DYNAMIC: int := 8

  /** Capacity of the descriptor and descriptor-set maps. */
  const MAP_CAPACITY: nat := 8

  /** The union of the stage bits, as the accumulating loop computes it. */
  function OrAll(bits: seq<bv32>): bv32 {
    if bits == [] then 0 else OrAll(bits[..|bits| - 1]) | bits[|bits| - 1]
  }

  /** Every listed stage is in the mask. */
  lemma {:induction false} OrAllCovers(bits: seq<bv32>)
    ensures forall i :: 0 <= i < |bits| ==> Within(bits[i], OrAll(bits))
  {
    if bits != [] {
      var init := bits[..|bits| - 1];
      OrAllCovers(init);
      forall i | 0 <= i < |bits|
        ensures Within(bits[i], OrAll(bits))
      {
        if i < |init| {
          assert bits[i] == init[i];
        }
      }
    }
  }

  /** Nothing else is: the mask lies within any mask that holds every listed stage. */
  lemma {:induction false} OrAllLeast(bits: seq<bv32>, m: bv32)
    requires forall i :: 0 <= i < |bits| ==> Within(bits[i], m)
    ensures Within(OrAll(bits), m)
  {
    if bits != [] {
      var init, last := bits[..|bits| - 1], bits[|bits| - 1];
      assert forall i :: 0 <= i < |init| ==> init[i] == bits[i];
      OrAllLeast(init, m);
      OrWithin(OrAll(init), last, m);
    }
  }

  /** Every bit of `b` is a bit of `m`. */
  predicate Within(b: bv32, m: bv32) {
    b & m == b
  }

  lemma OrWithin(a: bv32, b: bv32, m: bv32)
    requires Within(a, m) && Within(b, m)
    ensures Within(a | b, m)
  {
  }

  /** Starts from no stage and adds each listed stage. */
  method ShaderStageMask(bits: seq<bv32>) returns (mask: bv32)
    ensures mask == OrAll(bits)
    ensures bits == [] ==> mask == 0
    ensures forall i :: 0 <= i < |bits| ==> Within(bits[i], mask)
  {
    mask := 0;
    var i := 0;
    while i < |bits|
      invariant 0 <= i <= |bits|
      invariant mask == OrAll(bits[..i])
    {
      assert bits[..i + 1][..i] == bits[..i];
      mask := mask | bits[i];
      i := i + 1;
    }
    assert bits[..i] == bits;
    OrAllCovers(bits);
  }

  /** One entry of the descriptor map: its key, translated type and stage bits, count, and resource names. */
  datatype DescriptorData = DescriptorData(
    key: string, descriptorType: int, shaderStageBits: seq<bv32>, count: u32,
    uniformBuffer: string, texture: string)

  /** The resource a descriptor refers to, by the name it is looked up with. */
  datatype Resource = UniformBufferNamed(name: string) | TextureNamed(name: string)

  datatype DescriptorInfo = DescriptorInfo(descriptorType: int, shaderStageFlags: bv32, count: u32, resource: Resource)

  predicate IsUniformBufferType(t: int) {
    t == VK_DESCRIPTOR_TYPE_UNIFORM_BUFFER || t == VK_DESCRIPTOR_TYPE_UNIFORM_BUFFER_DYNAMIC
  }

  predicate IsHandledType(t: int) {
    IsUniformBufferType(t) || t == VK_DESCRIPTOR_TYPE_COMBINED_IMAGE_SAMPLER
  }

  /**
   * What a descriptor entry becomes: uniform-buffer types refer to a
   * uniform buffer, combined image samplers to a texture, and any other
   * type is fatal.
   */
  function DescriptorInfoFor(d: DescriptorData): (r: Result<DescriptorInfo>)
    ensures r.Failure? <==> !IsHandledType(d.descriptorType)
    ensures r.Failure? ==> r.error == UnhandledDescriptorType
    ensures r.Success? ==>
              && r.value.descriptorType == d.descriptorType
              && r.value.shaderStageFlags == OrAll(d.shaderStageBits)
              && r.value.count == d.count
    ensures r.Success? ==>
              (r.value.resource == UniformBufferNamed(d.uniformBuffer) <==> IsUniformBufferType(d.descriptorType))
    ensures r.Success? ==>
              (r.value.resource == TextureNamed(d.texture) <==> d.descriptorType == VK_DESCRIPTOR_TYPE_COMBINED_IMAGE_SAMPLER)
  {
    if IsUniformBufferType(d.descriptorType) then
      Success(DescriptorInfo(d.descriptorType, OrAll(d.shaderStageBits), d.count, UniformBufferNamed(d.uniformBuffer)))
    else if d.descriptorType == VK_DESCRIPTOR_TYPE_COMBINED_IMAGE_SAMPLER then
      Success(DescriptorInfo(d.descriptorType, OrAll(d.shaderStageBits), d.count, TextureNamed(d.texture)))
    else
      Failure(UnhandledDescriptorType)
  }

  /**
   * Builds the descriptor map in order. Any descriptor of an unhandled
   * type stops the program.
   */
  method LoadDescriptorInfos(descriptors: seq<DescriptorData>) returns (r: Result<BoundedArray<(string, DescriptorInfo)>>)
    requires |descriptors| <= MAP_CAPACITY
    ensures r.Failure? <==> exists i :: 0 <= i < |descriptors| && !IsHandledType(descriptors[i].descriptorType)
    ensures r.Failure? ==> r.error == UnhandledDescriptorType
    ensures r.Success? ==> r.value.capacity == MAP_CAPACITY && |r.value.items| == |descriptors|
    ensures r.Success? ==> forall i :: 0 <= i < |descriptors| ==>
              DescriptorInfoFor(descriptors[i]).Success? &&
              r.value.items[i] == (descriptors[i].key, DescriptorInfoFor(descriptors[i]).value)
  {
    var infos: BoundedArray<(string, DescriptorInfo)> := EmptyArray(MAP_CAPACITY);
    var i := 0;
    while i < |descriptors|
      invariant 0 <= i <= |descriptors|
      invariant infos.capacity == MAP_CAPACITY && |infos.items| == i
      invariant forall j :: 0 <= j < i ==> IsHandledType(descriptors[j].descriptorType)
      invariant forall j :: 0 <= j < i ==>
                  DescriptorInfoFor(descriptors[j]).Success? &&
                  infos.items[j] == (descriptors[j].key, DescriptorInfoFor(descriptors[j]).value)
    {
      var d := descriptors[i];
      var mask := ShaderStageMask(d.shaderStageBits);
      var resource;
      if d.descriptorType == VK_DESCRIPTOR_TYPE_UNIFORM_BUFFER || d.descriptorType == VK_DESCRIPTOR_TYPE_UNIFORM_BUFFER_DYNAMIC {
        resource := UniformBufferNamed(d.uniformBuffer);
      } else if d.descriptorType == VK_DESCRIPTOR_TYPE_COMBINED_IMAGE_SAMPLER {
        resource := TextureNamed(d.texture);
      } else {
        return Failure(UnhandledDescriptorType);
      }
      infos := Push(infos, (d.key, DescriptorInfo(d.descriptorType, mask, d.count, resource)));
      i := i + 1;
    }
    return Success(infos);
  }

  datatype BindingData = BindingData(binding: u32, descriptor: string)

  datatype DescriptorSetData = DescriptorSetData(key: string, setType: string, bindings: seq<BindingData>)

  /** A binding slot and the key of the descriptor bound there. */
  datatype DescriptorBinding = DescriptorBinding(binding: u32, descriptorKey: string)

  datatype DescriptorSetInfo = DescriptorSetInfo(instanceCount: nat, bindings: seq<DescriptorBinding>)

  /**
   * Builds the descriptor-set map in order, each set keeping its bindings
   * in order. Sets of type "dynamic" get one instance per frame in flight,
   * all others one.
   */
  method LoadDescriptorSetInfos(sets: seq<DescriptorSetData>, frameCount: nat)
    returns (infos: BoundedArray<(string, DescriptorSetInfo)>)
    requires |sets| <= MAP_CAPACITY
    ensures infos.capacity == MAP_CAPACITY && |infos.items| == |sets|
    ensures forall i :: 0 <= i < |sets| ==>
              && infos.items[i].0 == sets[i].key
              && infos.items[i].1.instanceCount == (if sets[i].setType == "dynamic" then frameCount else 1)
              && |infos.items[i].1.bindings| == |sets[i].bindings|
              && forall b :: 0 <= b < |sets[i].bindings| ==>
                   infos.items[i].1.bindings[b]
                   == DescriptorBinding(sets[i].bindings[b].binding, sets[i].bindings[b].descriptor)
  {
    infos := EmptyArray(MAP_CAPACITY);
    var i := 0;
    while i < |sets|
      invariant 0 <= i <= |sets|
      invariant infos.capacity == MAP_CAPACITY && |infos.items| == i
      invariant forall k :: 0 <= k < i ==>
                  && infos.items[k].0 == sets[k].key
                  && infos.items[k].1.instanceCount == (if sets[k].setType == "dynamic" then frameCount else 1)
                  && |infos.items[k].1.bindings| == |sets[k].bindings|
                  && forall b :: 0 <= b < |sets[k].bindings| ==>
                       infos.items[k].1.bindings[b]
                       == DescriptorBinding(sets[k].bindings[b].binding, sets[k].bindings[b].descriptor)
    {
      var s := sets[i];
      var isDynamic := s.setType == "dynamic";
      var instanceCount := if isDynamic then frameCount else 1;
      var bindings: seq<DescriptorBinding> := [];
      var b := 0;
      while b < |s.bindings|
        invariant 0 <= b <= |s.bindings|
        invariant |bindings| == b
        invariant forall c :: 0 <= c < b ==> bindings[c] == DescriptorBinding(s.bindings[c].binding, s.bindings[c].descriptor)
      {
        bindings := bindings + [DescriptorBinding(s.bindings[b].binding, s.bindings[b].descriptor)];
        b := b + 1;
      }
      infos := Push(infos, (s.key, DescriptorSetInfo(instanceCount, bindings)));
      i := i + 1;
    }
  }
}
