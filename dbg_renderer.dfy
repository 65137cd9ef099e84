/** The debug renderer: a process-wide single instance that draws debug text through the font
    renderer, boxes as line lists from a fixed edge table, and lines into a growing debug mesh,
    all by calls on the render backend service. */
module DbgRendering {
  import opened Common
  import opened RenderData
  import opened ServiceCalls
  import opened PipelineModel
  import opened FontRendering

  /** The batch every debug drawing goes to. */
  const DbgFontBatch: string := "dbgFontBatch"

  /** Index count of a box: twelve edges, two indices each. */
  const NumIndices: nat := 24

  /** The `indices` edge table of a box: the four edges of the bottom face, the four of the
      top face, and the four verticals. */
  const Indices: seq<u16> := [
    0, 1, 1, 2, 2, 3, 3, 0,
    4, 5, 5, 6, 6, 7, 7, 4,
    0, 4, 1, 5, 2, 6, 3, 7]

  datatype Vec3 = Vec3(x: real, y: real, z: real)

  /** `TAABB<f32>`: its minimal and maximal corner. */
  datatype AABB = AABB(min: Vec3, max: Vec3)

  /** The eight vertex positions `renderAABB` fills, in the order of its assignments. */
  function BoxCorners(aabb: AABB): (corners: seq<Vec3>)
    ensures |corners| == 8
  {
    var x0, y0, z0 := aabb.min.x, aabb.min.y, aabb.min.z;
    var x1, y1, z1 := aabb.max.x, aabb.max.y, aabb.max.z;
    [Vec3(x0, y0, z0), Vec3(x1, y0, z0), Vec3(x1, y1, z0), Vec3(x0, y1, z0),
     Vec3(x0, y0, z1), Vec3(x1, y0, z1), Vec3(x1, y1, z1), Vec3(x0, y1, z1)]
  }

  /** Which bound each coordinate of corner i comes from. */
  predicate XFromMax(i: nat) { i == 1 || i == 2 || i == 5 || i == 6 }
  predicate YFromMax(i: nat) { i == 2 || i == 3 || i == 6 || i == 7 }
  predicate ZFromMax(i: nat) { i >= 4 }

  /** Corner selection: corner i takes x from the maximum iff i is 1, 2, 5 or 6, y iff i is
      2, 3, 6 or 7, and z iff i is at least 4. */
  lemma CornerSelection(aabb: AABB, i: nat)
    requires i < 8
    ensures BoxCorners(aabb)[i].x == if XFromMax(i) then aabb.max.x else aabb.min.x
    ensures BoxCorners(aabb)[i].y == if YFromMax(i) then aabb.max.y else aabb.min.y
    ensures BoxCorners(aabb)[i].z == if ZFromMax(i) then aabb.max.z else aabb.min.z
  {
  }

  /** The eight corners are the eight different choices of bounds. */
  lemma CornersAreDistinctChoices(i: nat, j: nat)
    requires i < 8 && j < 8 && i != j
    ensures XFromMax(i) != XFromMax(j) || YFromMax(i) != YFromMax(j) || ZFromMax(i) != ZFromMax(j)
  {
  }

  /** Number of axes along which corners a and b choose different bounds. */
  function AxesApart(a: nat, b: nat): nat {
    (if XFromMax(a) != XFromMax(b) then 1 else 0)
    + (if YFromMax(a) != YFromMax(b) then 1 else 0)
    + (if ZFromMax(a) != ZFromMax(b) then 1 else 0)
  }

  /** The endpoints of edge e of the table. */
  function EdgeFrom(e: nat): u16 requires e < 12 { Indices[2 * e] }
  function EdgeTo(e: nat): u16 requires e < 12 { Indices[2 * e + 1] }

  /** The edge table holds 24 indices, all of them corners of the box. */
  lemma EdgeTableBounds()
    ensures |Indices| == NumIndices
    ensures forall k :: 0 <= k < |Indices| ==> Indices[k] < 8
  {
  }

  /** Edges 0 to 3 of the table: the square of the corners 0, 1, 2, 3 (z from the minimum). */
  lemma BottomEdges()
    ensures EdgeFrom(0) == 0 && EdgeTo(0) == 1 && EdgeFrom(1) == 1 && EdgeTo(1) == 2
    ensures EdgeFrom(2) == 2 && EdgeTo(2) == 3 && EdgeFrom(3) == 3 && EdgeTo(3) == 0
  {
  }

  /** Edges 4 to 7 of the table: the square of the corners 4, 5, 6, 7 (z from the maximum). */
  lemma TopEdges()
    ensures EdgeFrom(4) == 4 && EdgeTo(4) == 5 && EdgeFrom(5) == 5 && EdgeTo(5) == 6
    ensures EdgeFrom(6) == 6 && EdgeTo(6) == 7 && EdgeFrom(7) == 7 && EdgeTo(7) == 4
  {
  }

  /** Edges 8 to 11 of the table: each bottom corner i joined to the top corner i + 4. */
  lemma SideEdges()
    ensures EdgeFrom(8) == 0 && EdgeTo(8) == 4 && EdgeFrom(9) == 1 && EdgeTo(9) == 5
    ensures EdgeFrom(10) == 2 && EdgeTo(10) == 6 && EdgeFrom(11) == 3 && EdgeTo(11) == 7
  {
  }

  /** Number of the first n edges of the table that touch corner v. */
  function Degree(v: nat, n: nat): nat
    requires n <= 12
  {
    if n == 0 then 0
    else Degree(v, n - 1) + (if EdgeFrom(n - 1) == v || EdgeTo(n - 1) == v then 1 else 0)
  }

  /** Each corner is on exactly three edges. */
  lemma EdgeTableDegree(v: nat)
    requires v < 8
    ensures Degree(v, 12) == 3
  {
    BottomEdges();
    TopEdges();
    SideEdges();
  }

  /** Every edge joins two corners that differ along exactly one axis. */
  lemma EdgeTableAxes()
    ensures forall e :: 0 <= e < 12 ==> AxesApart(EdgeFrom(e), EdgeTo(e)) == 1
  {
  }

  /** No edge appears twice, in either direction. */
  lemma EdgeTableNoRepeat()
    ensures forall e, f :: 0 <= e < f < 12 ==>
      (EdgeFrom(e), EdgeTo(e)) != (EdgeFrom(f), EdgeTo(f)) && (EdgeFrom(e), EdgeTo(e)) != (EdgeTo(f), EdgeFrom(f))
  {
  }

  /** The font request of `renderDbgText(x, y, id, text)` as written: the arguments are passed
      in the order (x, y, id) to `AddRenderText(id, x, y, …)`, so the cache key is `x` and the
      text box is placed at (y, id). */
  function DbgTextStepAsWritten(boxes: map<u32, FontTextEntry>, x: u32, y: u32, id: u32, text: string,
                                builder: TextMeshBuilder): TextStep
  {
    RenderTextStep(boxes, x, y, id, text, true, builder)
  }

  /** The font request `renderDbgText` is evidently meant to make: cached under `id`, with the
      text box at (x, y). */
  function DbgTextStep(boxes: map<u32, FontTextEntry>, x: u32, y: u32, id: u32, text: string,
                       builder: TextMeshBuilder): TextStep
  {
    RenderTextStep(boxes, id, x, y, text, true, builder)
  }

  /** As written, a first text drawn at x = 10, y = 20 with id 1 is cached under 10, not under
      its id, and its box is built at (20, 1). */
  lemma DbgTextKeyedByX(text: string, builder: TextMeshBuilder)
    requires text != ""
    ensures var r := DbgTextStepAsWritten(map[], 10, 20, 1, text, builder);
      && 10 in r.boxes && 1 !in r.boxes
      && r.calls == [CallAddMesh(builder.allocTextBox(20, 1, text), 0)]
  {
  }

  /** As written, for every input: a text drawn at an `x` not yet cached is cached under `x`
      with its box built at (y, id), and the same text drawn again at that `x` makes no call,
      whatever its y and id. */
  lemma DbgTextAsWrittenKeyedByX(boxes: map<u32, FontTextEntry>, x: u32, y: u32, id: u32, text: string,
                                 y': u32, id': u32, builder: TextMeshBuilder)
    requires text != "" && x !in boxes
    ensures var r := DbgTextStepAsWritten(boxes, x, y, id, text, builder);
      && r.calls == [CallAddMesh(builder.allocTextBox(y, id, text), 0)]
      && r.boxes.Keys == boxes.Keys + {x}
      && r.boxes[x].text == text
      && DbgTextStepAsWritten(r.boxes, x, y', id', text, builder) == TextStep([], r.boxes)
  {
  }

  /** The intended request: a new text is cached under its own id with its box built at
      (x, y), and drawing the same text again with that id makes no call, wherever it is drawn. */
  lemma DbgTextKeyedById(boxes: map<u32, FontTextEntry>, x: u32, y: u32, id: u32, text: string,
                         x': u32, y': u32, builder: TextMeshBuilder)
    requires text != "" && id !in boxes
    ensures var r := DbgTextStep(boxes, x, y, id, text, builder);
      && r.calls == [CallAddMesh(builder.allocTextBox(x, y, text), 0)]
      && r.boxes.Keys == boxes.Keys + {id}
      && r.boxes[id].text == text
      && DbgTextStep(r.boxes, x', y', id, text, builder) == TextStep([], r.boxes)
  {
  }

  /** The debug mesh `addLine` grows: its vertices, its 16-bit indices, and the index count of
      its one line-list primitive group. */
  datatype DebugMesh = DebugMesh(vertices: seq<Vec3>, indices: seq<u16>, primIndexCount: nat)

  /** The mesh after one `addLine` with `k` as the last index: the lazily created mesh, the
      two vertices appended, indices k and k + 1 (as 16-bit values) appended, and the primitive
      group set to the box index count. */
  function AddLineTo(mesh: Option<DebugMesh>, k: nat, v0: Vec3, v1: Vec3): DebugMesh {
    var m := if mesh.None? then DebugMesh([], [], 0) else mesh.value;
    DebugMesh(m.vertices + [v0, v1], m.indices + [ToU16(k), ToU16(k + 1)], NumIndices)
  }

  /** A run of `addLine` calls from index k. */
  function AddLines(mesh: Option<DebugMesh>, k: nat, lines: seq<(Vec3, Vec3)>): Option<DebugMesh>
    decreases |lines|
  {
    if lines == [] then mesh
    else AddLines(Some(AddLineTo(mesh, k, lines[0].0, lines[0].1)), k + 2, lines[1..])
  }

  /** Starting from no mesh and index 0, n lines yield 2n vertices and the indices 0, 1, 2, ...
      in order (modulo 2^16, the width of an index). */
  lemma {:induction false} LineIndicesCount(mesh: Option<DebugMesh>, k: nat, lines: seq<(Vec3, Vec3)>)
    requires mesh.Some? ==> |mesh.value.indices| == k
    requires mesh.Some? ==> forall i :: 0 <= i < k ==> mesh.value.indices[i] == ToU16(i)
    requires mesh.None? ==> k == 0
    ensures lines != [] || mesh.Some? ==> AddLines(mesh, k, lines).Some?
    ensures AddLines(mesh, k, lines).Some? ==>
      var m := AddLines(mesh, k, lines).value;
      && |m.indices| == k + 2 * |lines|
      && forall i :: 0 <= i < |m.indices| ==> m.indices[i] == ToU16(i)
    decreases |lines|
  {
    if lines != [] {
      var m := AddLineTo(mesh, k, lines[0].0, lines[0].1);
      assert |m.indices| == k + 2;
      assert forall i :: 0 <= i < k + 2 ==> m.indices[i] == ToU16(i);
      LineIndicesCount(Some(m), k + 2, lines[1..]);
    }
  }

  /** The box mesh `renderAABB` builds, apart from its vertex bytes: the corner positions, the
      edge table as index buffer, and one line-list group of `NumIndices` indices. */
  datatype BoxMesh = BoxMesh(positions: seq<Vec3>, indices: seq<u16>, primIndexCount: nat)

  /** The calls `renderAABB` makes for a box mesh: the debug pass and batch, the model
      matrix, then the mesh with no instances. */
  function AabbCalls(transform: Mat4, mesh: Mesh): seq<ServiceCall> {
    [CallBeginPass("DbgPass"), CallBeginRenderBatch(DbgFontBatch),
     CallSetMatrix(Model, transform), CallAddMesh(mesh, 0),
     CallEndRenderBatch, CallEndPass]
  }

  /** `renderAABB`'s call sequence is the debug bracket around the model matrix and the mesh,
      and the pass it opens is the built-in debug pass. */
  lemma AabbCallsShape(transform: Mat4, mesh: Mesh)
    ensures AabbCalls(transform, mesh) ==
      Bracketed(GetPassNameById(DbgPassId).value, DbgFontBatch, [CallSetMatrix(Model, transform), CallAddMesh(mesh, 0)])
    ensures |AabbCalls(transform, mesh)| == 6
  {
  }

  class DbgRenderer {
    /** The calls made on the service (`m_rbSrv`), in order. */
    var calls: seq<ServiceCall>
    /** `mFontRenderer`, created on first use. */
    var fontRenderer: FontRenderer?
    /** `m_debugMesh`, created on first use. */
    var debugMesh: Option<DebugMesh>
    /** `m_lastIndex`. */
    var lastIndex: nat

    constructor ()
      ensures calls == [] && fontRenderer == null && debugMesh.None? && lastIndex == 0
    {
      calls := [];
      fontRenderer := null;
      debugMesh := None;
      lastIndex := 0;
    }

    /** `renderDbgText(x, y, id, text)`: nothing for an empty text; otherwise the debug
        bracket around one font request. The engine hands (x, y, id) to parameters named
        (id, x, y), so the text is cached under `x` and placed at (y, id)
        (`DbgTextStepAsWritten`); `DbgTextStep` is the request it evidently means. */
    method RenderDbgText(x: u32, y: u32, id: u32, text: string, builder: TextMeshBuilder)
      modifies this, fontRenderer
      ensures text == "" ==> calls == old(calls) && fontRenderer == old(fontRenderer)
      ensures text == "" && fontRenderer != null ==> fontRenderer.textBoxes == old(fontRenderer.textBoxes)
      ensures text != "" ==>
        && fontRenderer != null
        && (old(fontRenderer) != null ==> fontRenderer == old(fontRenderer))
        && var before := if old(fontRenderer) == null then map[] else old(fontRenderer.textBoxes);
           var step := DbgTextStepAsWritten(before, x, y, id, text, builder);
           && calls == old(calls) + Bracketed("DbgPass", DbgFontBatch, step.calls)
           && fontRenderer.textBoxes == step.boxes
      ensures debugMesh == old(debugMesh) && lastIndex == old(lastIndex)
    {
      if text == "" {
        return;
      }
      if fontRenderer == null {
        fontRenderer := new FontRenderer();
      }
      var passName := GetPassNameById(DbgPassId);
      calls := calls + [CallBeginPass(passName.value)];
      calls := calls + [CallBeginRenderBatch(DbgFontBatch)];
      var fontCalls := fontRenderer.AddRenderText(x, y, id, text, true, builder);
      calls := calls + fontCalls;
      calls := calls + [CallEndRenderBatch];
      calls := calls + [CallEndPass];
    }

    /** `renderAABB`: builds the box mesh (its vertex bytes are `encode` of the corner
        positions, its id is `meshId`) and sends it in the debug bracket with the model
        matrix. */
    method RenderAABB(transform: Mat4, aabb: AABB, meshId: nat, encode: seq<Vec3> -> seq<byte>)
      returns (box: BoxMesh)
      modifies this`calls
      ensures box == BoxMesh(BoxCorners(aabb), Indices, NumIndices)
      ensures calls == old(calls) + AabbCalls(transform, Mesh(meshId, encode(box.positions)))
    {
      var positions := BoxCorners(aabb);
      box := BoxMesh(positions, Indices, NumIndices);
      var mesh := Mesh(meshId, encode(positions));
      var passName := GetPassNameById(DbgPassId);
      calls := calls + [CallBeginPass(passName.value), CallBeginRenderBatch(DbgFontBatch)];
      calls := calls + [CallSetMatrix(Model, transform), CallAddMesh(mesh, 0)];
      calls := calls + [CallEndRenderBatch, CallEndPass];
    }

    /** `clear` does nothing: the calls, the font renderer, the debug mesh and the counter
        are as before. */
    method Clear()
      ensures calls == old(calls) && fontRenderer == old(fontRenderer)
      ensures debugMesh == old(debugMesh) && lastIndex == old(lastIndex)
    {
    }

    /** `addLine`: the line's two vertices and indices k, k + 1 are appended to the debug mesh
        (created if needed), and the last index advances by two. */
    method AddLine(v0: Vec3, v1: Vec3)
      modifies this`debugMesh, this`lastIndex
      ensures debugMesh == Some(AddLineTo(old(debugMesh), old(lastIndex), v0, v1))
      ensures lastIndex == old(lastIndex) + 2
    {
      if debugMesh.None? {
        debugMesh := Some(DebugMesh([], [], 0));
      }
      var m := debugMesh.value;
      var i0 := ToU16(lastIndex);
      lastIndex := lastIndex + 1;
      var i1 := ToU16(lastIndex);
      lastIndex := lastIndex + 1;
      m := m.(vertices := m.vertices + [v0, v1], indices := m.indices + [i0, i1]);
      m := m.(primIndexCount := NumIndices);
      debugMesh := Some(m);
    }
  }

  /** `s_instance` and the static `create`, `destroy` and `getInstance`. */
  class DbgRendererRegistry {
    var instance: DbgRenderer?

    constructor ()
      ensures instance == null
    {
      instance := null;
    }

    /** `create`: only when there is no instance yet; a second call keeps the first one. */
    method Create() returns (ok: bool)
      modifies this
      ensures ok <==> old(instance) == null
      ensures ok ==> instance != null && fresh(instance) && instance.calls == [] && instance.lastIndex == 0
      ensures !ok ==> instance == old(instance)
    {
      if instance != null {
        return false;
      }
      instance := new DbgRenderer();
      return true;
    }

    /** `destroy`: only when there is an instance; afterwards there is none. */
    method Destroy() returns (ok: bool)
      modifies this
      ensures ok <==> old(instance) != null
      ensures instance == null
    {
      if instance == null {
        return false;
      }
      instance := null;
      return true;
    }

    function GetInstance(): (r: DbgRenderer?)
      reads this
      ensures r == instance
    {
      instance
    }
  }

  /** The singleton life cycle: create, a refused second create that keeps the instance,
      destroy, a refused second destroy, and no instance at the end. */
  method SingletonLifeCycle() returns (first: bool, second: bool, kept: bool, destroyed: bool, again: bool, gone: bool)
    ensures first && !second && kept && destroyed && !again && gone
  {
    var registry := new DbgRendererRegistry();
    first := registry.Create();
    var instance := registry.GetInstance();
    second := registry.Create();
    kept := registry.GetInstance() == instance && instance != null;
    destroyed := registry.Destroy();
    again := registry.Destroy();
    gone := registry.GetInstance() == null;
  }
}
