/**
 * The declarations of vulkan_main.h that carry logic: the frames-in-flight
 * constant, the vertex layout handed to the pipeline, and BufferView, the
 * non-owning (data address, size) pair handed out by an arena.
 */
module VulkanMainH {
  import opened VkTypes

  /** Number of frame slots (command buffer, semaphores, fence, uniform buffer). */
  const MAX_FRAMES_IN_FLIGHT: nat := 2

  // ---------------------------------------------------------------- Vertex

  /** VK_VERTEX_INPUT_RATE_VERTEX. */
  const VERTEX_INPUT_RATE_VERTEX: nat := 0

  const SIZEOF_F32: nat := 4

  /** A member of struct Vertex: a glm vector of `components` 32-bit floats. */
  datatype VertexMember = VertexMember(components: nat, format: Format)

  /** struct Vertex { glm::vec2 pos; glm::vec3 color; }, in declaration order. */
  const VERTEX_MEMBERS: seq<VertexMember> :=
    [VertexMember(2, FORMAT_R32G32_SFLOAT), VertexMember(3, FORMAT_R32G32B32_SFLOAT)]

  function MemberSize(m: VertexMember): nat {
    m.components * SIZEOF_F32
  }

  /**
   * offsetof of member k: every member is made of floats and so 4-byte aligned,
   * hence C lays the members out back to back without padding.
   */
  function OffsetOf(members: seq<VertexMember>, k: nat): nat
    requires k <= |members|
  {
    if k == 0 then 0 else OffsetOf(members, k - 1) + MemberSize(members[k - 1])
  }

  /** sizeof(Vertex). */
  function SizeOfVertex(): nat {
    OffsetOf(VERTEX_MEMBERS, |VERTEX_MEMBERS|)
  }

  /** sizeof(Vertex) is 20 bytes: a vec2 and a vec3 of 4-byte floats. */
  lemma SizeOfVertexIs20()
    ensures SizeOfVertex() == 20
  {
    assert OffsetOf(VERTEX_MEMBERS, 1) == 8;
  }

  /** Bytes one vertex attribute of the given format reads. */
  function FormatSize(f: Format): nat {
    if f == FORMAT_R32G32_SFLOAT then 8
    else if f == FORMAT_R32G32B32_SFLOAT then 12
    else 0
  }

  datatype VertexInputBindingDescription =
    VertexInputBindingDescription(binding: u32, stride: nat, inputRate: nat)

  datatype VertexInputAttributeDescription =
    VertexInputAttributeDescription(location: u32, binding: u32, format: Format, offset: nat)

  /** Vertex::get_binding_description: the single binding the pipeline reads vertices from. */
  function GetBindingDescription(): (d: VertexInputBindingDescription)
    ensures d.binding == 0
    ensures d.stride == SizeOfVertex()
    ensures d.inputRate == VERTEX_INPUT_RATE_VERTEX
  {
    VertexInputBindingDescription(0, SizeOfVertex(), VERTEX_INPUT_RATE_VERTEX)
  }

  /** Vertex::get_attribute_descriptions: one attribute per member of Vertex. */
  function GetAttributeDescriptions(): (ds: seq<VertexInputAttributeDescription>)
    ensures |ds| == 2
    ensures ds[0] == VertexInputAttributeDescription(0, 0, FORMAT_R32G32_SFLOAT, 0)
    ensures ds[1] == VertexInputAttributeDescription(1, 0, FORMAT_R32G32B32_SFLOAT, 8)
  {
    [ VertexInputAttributeDescription(0, 0, FORMAT_R32G32_SFLOAT, OffsetOf(VERTEX_MEMBERS, 0)),
      VertexInputAttributeDescription(1, 0, FORMAT_R32G32B32_SFLOAT, OffsetOf(VERTEX_MEMBERS, 1)) ]
  }

  /**
   * The attribute descriptions agree with the binding and with struct Vertex:
   * attribute i is bound to the one binding, sits at location i, reads exactly
   * the bytes of member i, and the members' byte ranges tile the whole stride.
   */
  lemma AttributesMatchVertexLayout()
    ensures var d := GetBindingDescription();
            var ds := GetAttributeDescriptions();
            |ds| == |VERTEX_MEMBERS| &&
            (forall i :: 0 <= i < |ds| ==>
               && ds[i].binding == d.binding
               && ds[i].location == i
               && ds[i].format == VERTEX_MEMBERS[i].format
               && ds[i].offset == OffsetOf(VERTEX_MEMBERS, i)
               && FormatSize(ds[i].format) == MemberSize(VERTEX_MEMBERS[i])
               && ds[i].offset + FormatSize(ds[i].format) <= d.stride) &&
            (forall i :: 0 <= i < |ds| - 1 ==>
               ds[i].offset + FormatSize(ds[i].format) == ds[i + 1].offset) &&
            ds[|ds| - 1].offset + FormatSize(ds[|ds| - 1].format) == d.stride
  {
  }

  // ------------------------------------------------------ Arena, BufferView

  /**
   * The arena service is outside this model; what matters here is when views
   * handed out by an arena stop being valid. An arena is modelled by the
   * number of times it has been cleared.
   */
  datatype Arena = Arena(generation: nat)

  /**
   * BufferView<T>: an address in an arena plus a `size` field. The address is
   * modelled by the arena generation it was allocated in.
   */
  datatype BufferView = BufferView(generation: nat, size: nat)

  /** The view's memory still belongs to the arena's current contents. */
  predicate ValidIn(v: BufferView, arena: Arena) {
    v.generation == arena.generation
  }

  /** BufferView<T>::init_from_arena(arena, num_elements). */
  function InitFromArena(arena: Arena, numElements: u32): (v: BufferView)
    ensures v.size == numElements
    ensures ValidIn(v, arena)
  {
    BufferView(arena.generation, numElements)
  }

  /** A view whose `size` is set by hand to a byte count, as create_command_buffers and create_sync_objects do. */
  function ByteSizedView(arena: Arena, numElements: nat, elemSize: nat): (v: BufferView)
    ensures v.size == numElements * elemSize
    ensures ValidIn(v, arena)
  {
    BufferView(arena.generation, numElements * elemSize)
  }

  /** arena_clear: every view handed out before the clear becomes invalid. */
  function ArenaClear(arena: Arena): (a: Arena)
    ensures forall v :: ValidIn(v, arena) ==> !ValidIn(v, a)
  {
    Arena(arena.generation + 1)
  }

  /** BufferView<T>::get_num_elements: `size / sizeof(T)`, truncated to u32. */
  function GetNumElements(v: BufferView, elemSize: nat): (r: u32)
    requires elemSize > 0
    ensures v.size / elemSize <= UINT32_MAX ==> r * elemSize <= v.size < (r + 1) * elemSize
  {
    DivBounds(v.size, elemSize);
    (v.size / elemSize) % 0x1_0000_0000
  }

  /**
   * The two conventions for `size` disagree: a view built with a byte count
   * reports its element count, but a view built by init_from_arena (which
   * stores an element count) under-reports it whenever sizeof(T) > 1.
   */
  lemma ElementCountConventions(arena: Arena, n: u32, elemSize: nat)
    requires elemSize > 0
    ensures GetNumElements(ByteSizedView(arena, n, elemSize), elemSize) == n
    ensures elemSize > 1 && n > 0 ==> GetNumElements(InitFromArena(arena, n), elemSize) < n
  {
    var bytes := ByteSizedView(arena, n, elemSize);
    DivMulCancel(n, elemSize);
    assert bytes.size / elemSize == n;
    if elemSize > 1 && n > 0 {
      DivLess(n, elemSize);
      assert InitFromArena(arena, n).size / elemSize < n;
    }
  }

  // Arithmetic helpers for ElementCountConventions: cancellation, a strict
  // quotient bound, and monotonicity of multiplication.

  lemma DivBounds(n: nat, k: nat)
    requires k > 0
    ensures (n / k) * k <= n < (n / k + 1) * k
  {
    var q, r := n / k, n % k;
    assert q * k + r == n;
    MulSucc(q, k);
  }

  lemma DivMulCancel(n: nat, k: nat)
    requires k > 0
    ensures n * k / k == n
  {
    var q, r := n * k / k, n * k % k;
    assert q * k + r == n * k;
    if q < n {
      MulSucc(q, k);
      MulMono(q + 1, n, k);
    } else if q > n {
      MulMono(n + 1, q, k);
      MulSucc(n, k);
    }
  }

  lemma DivLess(n: nat, k: nat)
    requires k > 1 && n > 0
    ensures n / k < n
  {
    var q, r := n / k, n % k;
    assert q * k + r == n;
    if q >= n {
      assert q * k >= n * k by {
        if q > n { MulStrict(n, q, k); }
      }
      MulStrict(1, k, n);
    }
  }

  lemma MulStrict(a: int, b: int, k: int)
    requires a < b && k > 0
    ensures a * k < b * k
  {
    assert b * k - a * k == (b - a) * k;
  }

  lemma MulMono(a: int, b: int, k: int)
    requires a <= b && k >= 0
    ensures a * k <= b * k
  {
    assert b * k - a * k == (b - a) * k;
  }

  lemma MulSucc(a: int, k: int)
    ensures (a + 1) * k == a * k + k
  {
  }
}
