/**
 * Path segments, primitives and the primitive controller's lifecycle
 * (include/engines/entity.h, src/engines/entity.cpp): segments form an
 * intrusive doubly-linked chain that the controller tears down when it is
 * destroyed, after releasing its GPU buffers.
 */
module Entity {
  import opened Wrappers
  import opened CppInt

  /** `GLuint`, an unsigned 32-bit GPU object name. */
  type GLuint = x: int | 0 <= x < 0x1_0000_0000

  /** `glm::vec3`, with reals for floats. */
  datatype Vec3 = Vec3(x: real, y: real, z: real)

  const Origin := Vec3(0.0, 0.0, 0.0)

  /** `glm::mat4`, as its four columns of four entries. */
  type Mat4 = m: seq<seq<real>> | |m| == 4 && forall j :: 0 <= j < |m| ==> |m[j]| == 4
    witness [[0.0, 0.0, 0.0, 0.0], [0.0, 0.0, 0.0, 0.0], [0.0, 0.0, 0.0, 0.0], [0.0, 0.0, 0.0, 0.0]]

  /** `glm::mat4(1.0f)`. */
  const Identity: Mat4 :=
    [[1.0, 0.0, 0.0, 0.0], [0.0, 1.0, 0.0, 0.0], [0.0, 0.0, 1.0, 0.0], [0.0, 0.0, 0.0, 1.0]]

  datatype SegmentType = Arc | CubicBezier

  /** `Vertex`: a position and the triangle type a shader reads. */
  datatype Vertex = Vertex(pos: Vec3, triangleType: real)

  /** `struct Segment`: one piece of a path, linked to its neighbours. */
  class Segment {
    var startPoint: Vec3
    var endPoint: Vec3
    var controlPoint1: Option<Vec3>
    var controlPoint2: Option<Vec3>
    var segmentType: SegmentType
    var length: real
    var listLocation: int32
    var next: Segment?
    var prev: Segment?

    /** The default member initialisers: a detached, zero-length cubic Bezier at the origin, not yet in any list. */
    constructor()
      ensures startPoint == Origin && endPoint == Origin
      ensures controlPoint1 == None && controlPoint2 == None
      ensures segmentType == CubicBezier && length == 0.0 && listLocation == -1
      ensures next == null && prev == null
    {
      startPoint, endPoint := Origin, Origin;
      controlPoint1, controlPoint2 := None, None;
      segmentType := CubicBezier;
      length := 0.0;
      listLocation := -1;
      next, prev := null, null;
    }
  }

  /** `struct Primitive`, held by value inside its controller. */
  datatype Primitive = Primitive(
    numSegments: nat,
    headSegment: Segment?,
    tailSegment: Segment?,
    segmentList: seq<Segment>,
    totalLength: real,
    boundingBoxBottomLeft: Vec3,
    boundingBoxTopRight: Vec3,
    bezierToWorld: Mat4,
    equidistantPoints: seq<Vec3>,
    numEquidistantPoints: nat,
    isFilled: bool)

  /**
   * The value-initialised `primitive()`: the default member initialisers, and
   * `numSegments`, which has none, zero-initialised.
   */
  function NewPrimitive(): (p: Primitive)
    ensures p.headSegment == null && p.tailSegment == null && p.segmentList == []
    ensures p.numSegments == 0 && p.totalLength == 0.0 && !p.isFilled
    ensures p.bezierToWorld == Identity
    ensures p.equidistantPoints == [] && p.numEquidistantPoints == 0
    ensures p.boundingBoxBottomLeft == Origin && p.boundingBoxTopRight == Origin
  {
    Primitive(0, null, null, [], 0.0, Origin, Origin, Identity, [], 0, false)
  }

  /** `Primitive::isClosed()`: whether the head and tail pointers are the same pointer. */
  predicate IsClosed(p: Primitive)
  {
    p.headSegment == p.tailSegment
  }

  /**
   * Because the test is pointer identity and nothing else, an empty primitive and a
   * one-segment primitive report closed, and two distinct end segments report
   * open even when they are linked into a ring.
   */
  lemma IsClosedByIdentity(p: Primitive, s: Segment, t: Segment)
    ensures p.headSegment == null && p.tailSegment == null ==> IsClosed(p)
    ensures p.headSegment == s && p.tailSegment == s ==> IsClosed(p)
    ensures p.headSegment == s && p.tailSegment == t && s != t ==> !IsClosed(p)
  {
  }

  /** The fresh primitive has no segments and reports closed. */
  lemma NewPrimitiveIsEmptyAndClosed()
    ensures NewPrimitive().headSegment == null && IsClosed(NewPrimitive())
  {
  }

  // ---- Tearing down a segment chain ----

  predicate Distinct(s: seq<Segment>)
  {
    forall i, j :: 0 <= i < j < |s| ==> s[i] != s[j]
  }

  /** `chain` is the path that `next` links trace from `head`, each segment once: chain[i].next is chain[i + 1]. */
  ghost predicate LinkedFrom(head: Segment?, chain: seq<Segment>)
    reads set i | 0 <= i < |chain| :: chain[i]
  {
    (head == null <==> chain == []) &&
    (head != null ==> chain[0] == head) &&
    Distinct(chain) &&
    forall i :: 0 <= i < |chain| - 1 ==> chain[i].next == chain[i + 1]
  }

  /**
   * The chains whose walk ends: the last segment's `next` is null, or the head's
   * `prev` lies on the chain, so cutting that segment's `next` ends the walk
   * there (a ring that closes back onto the head, with `head.prev` its tail, is
   * of this kind). The walk ends only if the ring is cut, and the cut needs a
   * `head.prev`: a ring closed through `next` alone, back onto the head with a
   * null `head.prev`, is not cut (see `NextOnlyRingIsNotCut`), nor is a ring that
   * closes back onto an interior segment with a `head.prev` off the chain. Their
   * walks never end.
   */
  ghost predicate WalkEnds(head: Segment, chain: seq<Segment>)
    requires chain != []
    reads head, chain[|chain| - 1]
  {
    chain[|chain| - 1].next == null || head.prev in chain
  }

  /**
   * A ring closed through `next` alone, with the tail's `next` back at the head
   * and the head's `prev` null: the cut clears nothing, every segment's `next`
   * is again a segment of the ring, so the walk never reaches null, and the
   * chain fails `WalkEnds`.
   */
  lemma NextOnlyRingIsNotCut(head: Segment, chain: seq<Segment>)
    requires LinkedFrom(head, chain)
    requires chain[|chain| - 1].next == head && head.prev == null
    ensures CutPredecessor(head) == {} && CutHead(head) == {}
    ensures forall i :: 0 <= i < |chain| ==> chain[i].next != null && chain[i].next in chain
    ensures !WalkEnds(head, chain)
  {
    forall i | 0 <= i < |chain|
      ensures chain[i].next != null && chain[i].next in chain
    {
      if i < |chain| - 1 {
        assert chain[i].next == chain[i + 1];
      } else {
        assert chain[i].next == chain[0];
      }
    }
  }

  /** The segments a walk from the head visits: up to the cut segment if it is on the chain, else the whole chain. */
  ghost predicate WalkPrefix(visited: seq<Segment>, chain: seq<Segment>, cut: Segment?)
  {
    |visited| <= |chain| && visited == chain[..|visited|] &&
    (chain != [] ==> visited != []) &&
    (cut in chain ==> visited[|visited| - 1] == cut) &&
    (cut !in chain ==> visited == chain)
  }

  /** The segment whose `next` the cut clears: the head's predecessor, if any. */
  function CutPredecessor(head: Segment?): set<Segment>
    reads head
  {
    if head == null || head.prev == null then {} else {head.prev}
  }

  /** The segment whose `prev` the cut clears: the head, if it has a predecessor. */
  function CutHead(head: Segment?): set<Segment>
    reads head
  {
    if head == null || head.prev == null then {} else {head}
  }

  /** s, last element first. */
  function Reversed(s: seq<Segment>): seq<Segment>
  {
    if s == [] then [] else Reversed(s[1..]) + [s[0]]
  }

  lemma {:induction false} ReversedAt(s: seq<Segment>, k: nat)
    requires k < |s|
    ensures |Reversed(s)| == |s| && Reversed(s)[k] == s[|s| - 1 - k]
  {
    if k < |s| - 1 {
      ReversedAt(s[1..], k);
    } else {
      ReversedLength(s[1..]);
    }
  }

  lemma {:induction false} ReversedLength(s: seq<Segment>)
    ensures |Reversed(s)| == |s|
  {
    if s != [] {
      ReversedLength(s[1..]);
    }
  }

  /** Releasing in reverse releases every segment exactly as often as it was visited. */
  lemma {:induction false} ReversedSameMultiset(s: seq<Segment>)
    ensures multiset(Reversed(s)) == multiset(s)
  {
    if s != [] {
      ReversedSameMultiset(s[1..]);
      assert s == [s[0]] + s[1..];
    }
  }

  /**
   * `cleanUpSegmentList(head)`: if the head has a predecessor, cuts the link
   * between them; walks the `next` links from the head, pushing each segment
   * onto a stack; then pops and deletes each one. `visited` is the walk, `freed`
   * the order of deletion.
   */
  method CleanUpSegmentList(head: Segment?, ghost chain: seq<Segment>)
      returns (ghost visited: seq<Segment>, ghost freed: seq<Segment>)
    requires LinkedFrom(head, chain)
    requires head != null ==> WalkEnds(head, chain)
    modifies CutPredecessor(head)`next, CutHead(head)`prev
    ensures head == null ==> visited == [] && freed == []
    ensures head != null ==> WalkPrefix(visited, chain, old(head.prev))
    ensures head != null && old(head.prev) != null ==> old(head.prev).next == null && head.prev == null
    ensures |freed| == |visited|
    ensures forall i :: 0 <= i < |freed| ==> freed[i] == visited[|visited| - 1 - i]
    ensures multiset(freed) == multiset(visited)
  {
    if head == null {
      return [], [];
    }
    var beforeHead := head.prev;
    ghost var n := |chain|;
    if beforeHead in chain {
      ghost var k :| 0 <= k < |chain| && chain[k] == beforeHead;
      n := k + 1;
    }
    if beforeHead != null {
      beforeHead.next := null;
      head.prev := null;
    }
    assert forall i :: 0 <= i < n - 1 ==> chain[i].next == chain[i + 1];
    assert chain[n - 1].next == null;

    var stack := WalkNext(head, chain, n);
    freed := DeleteStack(stack);
    visited := stack;
  }

  /** The walk loop: pushes each segment reached through `next` until `next` is null. */
  method WalkNext(head: Segment, ghost chain: seq<Segment>, ghost n: nat) returns (stack: seq<Segment>)
    requires 0 < n <= |chain| && chain[0] == head
    requires forall i :: 0 <= i < n - 1 ==> chain[i].next == chain[i + 1]
    requires chain[n - 1].next == null
    ensures stack == chain[..n]
  {
    var current: Segment? := head;
    stack := [];
    while current != null
      invariant |stack| <= n
      invariant stack == chain[..|stack|]
      invariant current == if |stack| < n then chain[|stack|] else null
      decreases n - |stack|
    {
      stack := stack + [current];
      current := current.next;
    }
  }

  /** The pop loop: deletes the top of the stack until it is empty; `freed` is the order of deletion. */
  method DeleteStack(visited: seq<Segment>) returns (ghost freed: seq<Segment>)
    ensures |freed| == |visited|
    ensures forall i :: 0 <= i < |freed| ==> freed[i] == visited[|visited| - 1 - i]
    ensures multiset(freed) == multiset(visited)
  {
    var stack := visited;
    freed := [];
    while stack != []
      invariant |stack| <= |visited|
      invariant stack == visited[..|stack|]
      invariant freed == Reversed(visited[|stack|..])
      decreases |stack|
    {
      var toDelete := stack[|stack| - 1];
      stack := stack[..|stack| - 1];
      assert visited[|stack|..][1..] == visited[|stack| + 1..];
      freed := freed + [toDelete];
    }
    assert visited[0..] == visited;
    ReversedLength(visited);
    ReversedSameMultiset(visited);
    forall i | 0 <= i < |freed|
      ensures freed[i] == visited[|visited| - 1 - i]
    {
      ReversedAt(visited, i);
    }
  }

  // ---- The controller ----

  /** One GPU release call of the destructor. */
  datatype GpuRelease = DeleteVertexArray(vao: GLuint) | DeleteBuffer(buffer: GLuint)

  /**
   * The releases `~PrimitiveController` makes: none before the buffers have
   * addresses; afterwards the VAO and the VBO, and the EBO only if it is nonzero.
   */
  function DestructorReleases(haveAddresses: bool, vao: GLuint, vbo: GLuint, ebo: GLuint): (r: seq<GpuRelease>)
    ensures !haveAddresses ==> r == []
    ensures haveAddresses ==> |r| == (if ebo != 0 then 3 else 2)
    ensures haveAddresses ==> r[0] == DeleteVertexArray(vao) && r[1] == DeleteBuffer(vbo)
    ensures |r| == 3 ==> r[2] == DeleteBuffer(ebo)
    ensures DeleteBuffer(0) in r ==> vbo == 0
  {
    if !haveAddresses then []
    else [DeleteVertexArray(vao), DeleteBuffer(vbo)] + (if ebo != 0 then [DeleteBuffer(ebo)] else [])
  }

  /** `class PrimitiveController`: a primitive, its vertex cache, and the GPU buffer handles it owns. */
  class PrimitiveController {
    var primitive: Primitive
    var vertexBufferCache: seq<Vertex>
    var locked: bool
    var dirty: bool
    var vaoHandle: GLuint
    var vboHandle: GLuint
    var eboHandle: GLuint
    var haveAddresses: bool
    /** The GPU release calls made so far. */
    ghost var releases: seq<GpuRelease>

    /** `PrimitiveController()`: a fresh primitive, unlocked and dirty, all handles 0, no GPU addresses yet. */
    constructor()
      ensures primitive == NewPrimitive() && vertexBufferCache == []
      ensures !locked && dirty
      ensures vaoHandle == 0 && vboHandle == 0 && eboHandle == 0 && !haveAddresses
      ensures releases == []
    {
      primitive := NewPrimitive();
      vertexBufferCache := [];
      locked, dirty := false, true;
      vaoHandle, vboHandle, eboHandle := 0, 0, 0;
      haveAddresses := false;
      releases := [];
    }

    /**
     * `changePose(newPose)`, from its declaration's comment: replaces the
     * Bezier-to-world matrix and marks the vertex buffer dirty. The comment's
     * "0 on success" is the bool false, and no error case is described.
     */
    method ChangePose(newPose: Mat4) returns (failed: bool)
      modifies this`primitive, this`dirty
      ensures primitive == old(primitive).(bezierToWorld := newPose)
      ensures dirty && !failed
    {
      primitive := primitive.(bezierToWorld := newPose);
      dirty := true;
      failed := false;
    }

    /**
     * `bindGPUBufferHandles(vao, vbo, ebo)`, from its declaration's comment: the
     * first call stores the three handles and records that the buffers have
     * addresses; any later call does nothing.
     */
    method BindGpuBufferHandles(vao: GLuint, vbo: GLuint, ebo: GLuint)
      modifies this`vaoHandle, this`vboHandle, this`eboHandle, this`haveAddresses
      ensures haveAddresses
      ensures !old(haveAddresses) ==> vaoHandle == vao && vboHandle == vbo && eboHandle == ebo
      ensures old(haveAddresses) ==> unchanged(this)
    {
      if !haveAddresses {
        vaoHandle, vboHandle, eboHandle := vao, vbo, ebo;
        haveAddresses := true;
      }
    }

    // The const getters: each returns a field and changes nothing.

    method GetVaoHandle() returns (h: GLuint)
      ensures h == vaoHandle
    {
      h := vaoHandle;
    }

    method GetVboHandle() returns (h: GLuint)
      ensures h == vboHandle
    {
      h := vboHandle;
    }

    method GetEboHandle() returns (h: GLuint)
      ensures h == eboHandle
    {
      h := eboHandle;
    }

    method GetVertexBufferCache() returns (cache: seq<Vertex>)
      ensures cache == vertexBufferCache
    {
      cache := vertexBufferCache;
    }

    method GetBufferDirtyState() returns (d: bool)
      ensures d == dirty
    {
      d := dirty;
    }

    /**
     * `~PrimitiveController()`: releases the GPU buffers the handles name, then
     * tears down the segment chain from the primitive's head. `chain` is that
     * chain, as `CleanUpSegmentList` requires it.
     */
    method Destroy(ghost chain: seq<Segment>) returns (ghost visited: seq<Segment>, ghost freed: seq<Segment>)
      requires LinkedFrom(primitive.headSegment, chain)
      requires primitive.headSegment != null ==> WalkEnds(primitive.headSegment, chain)
      modifies this`releases, CutPredecessor(primitive.headSegment)`next, CutHead(primitive.headSegment)`prev
      ensures releases == old(releases) + DestructorReleases(haveAddresses, vaoHandle, vboHandle, eboHandle)
      ensures primitive.headSegment != null ==> WalkPrefix(visited, chain, old(primitive.headSegment.prev))
      ensures primitive.headSegment != null && old(primitive.headSegment.prev) != null ==>
        old(primitive.headSegment.prev).next == null && primitive.headSegment.prev == null
      ensures primitive.headSegment == null ==> visited == [] && freed == []
      ensures |freed| == |visited| && multiset(freed) == multiset(visited)
      ensures forall i :: 0 <= i < |freed| ==> freed[i] == visited[|visited| - 1 - i]
    {
      if haveAddresses {
        releases := releases + [DeleteVertexArray(vaoHandle)];
        releases := releases + [DeleteBuffer(vboHandle)];
        if eboHandle != 0 {
          releases := releases + [DeleteBuffer(eboHandle)];
        }
      }
      visited, freed := CleanUpSegmentList(primitive.headSegment, chain);
    }
  }
}
