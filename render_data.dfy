/** The pass/batch data of the render backend service and the command stream that one frame
    submission produces from it.

    Passes and batches are heap objects in the engine, and the service keeps pointers to them.
    Here they live in two arenas (sequences of records) and a pointer is an index ("handle")
    into its arena, so that a batch reached both as the active batch and through a registered
    pass is one and the same record. */
module RenderData {
  import opened Common

  /** `sizeof(glm::mat4)`: sixteen 4-byte floats. */
  const MatrixSize: nat := 64

  /** The bytes of one 4x4 matrix; their float meaning plays no part here. */
  type Mat4 = s: seq<byte> | |s| == MatrixSize witness seq(64, i => 0)

  datatype MatrixType = Model | View | Projection

  /** A batch's model/view/projection matrix buffer. */
  datatype MatrixBuffer = MatrixBuffer(model: Mat4, view: Mat4, proj: Mat4)

  function GetMatrix(mb: MatrixBuffer, t: MatrixType): Mat4 {
    match t
    case Model => mb.model
    case View => mb.view
    case Projection => mb.proj
  }

  /** The switch of `setMatrix(type, m)`: one field is assigned. */
  function SetMatrixField(mb: MatrixBuffer, t: MatrixType, m: Mat4): MatrixBuffer {
    match t
    case Model => mb.(model := m)
    case View => mb.(view := m)
    case Projection => mb.(proj := m)
  }

  /** Writing one matrix slot changes that slot and no other. */
  lemma SetMatrixFieldOnly(mb: MatrixBuffer, t: MatrixType, m: Mat4, t': MatrixType)
    ensures GetMatrix(SetMatrixField(mb, t, m), t) == m
    ensures t' != t ==> GetMatrix(SetMatrixField(mb, t, m), t') == GetMatrix(mb, t')
  {
  }

  /** The raw bytes of the matrix buffer, in field order, as `memcpy` copies them. */
  function SerializeMatrices(mb: MatrixBuffer): (r: seq<byte>)
    ensures |r| == 3 * MatrixSize
  {
    mb.model + mb.view + mb.proj
  }

  /** How the consumer reads a matrix-buffer payload back. */
  function DeserializeMatrices(bytes: seq<byte>): Option<MatrixBuffer> {
    if |bytes| == 3 * MatrixSize then
      Some(MatrixBuffer(bytes[..64], bytes[64..128], bytes[128..]))
    else
      None
  }

  /** The matrix payload loses nothing: it decodes to the buffer it was made from. */
  lemma MatrixPayloadRoundTrip(mb: MatrixBuffer)
    ensures DeserializeMatrices(SerializeMatrices(mb)) == Some(mb)
  {
    var bytes := SerializeMatrices(mb);
    assert bytes[..64] == mb.model;
    assert bytes[64..128] == mb.view;
    assert bytes[128..] == mb.proj;
  }

  datatype ParameterType = Mat4Param | Mat4ArrayParam | OtherParam(code: nat)

  /** A named uniform variable with its raw value bytes. */
  datatype UniformVar = UniformVar(name: string, paramType: ParameterType, numItems: nat, data: seq<byte>)

  /** `UniformVar::create`: a variable whose value buffer holds `numItems` matrices. */
  function CreateUniform(name: string, t: ParameterType, numItems: nat): (v: UniformVar)
    ensures v.name == name && |v.data| == MatrixSize * numItems
  {
    UniformVar(name, t, numItems, seq(MatrixSize * numItems, i => 0))
  }

  /** `memcpy(dst, src, |src|)` on a byte buffer: the first |src| bytes are replaced. When the
      buffer is too small the model lets it grow (the engine would write past its end). */
  function Overwrite(dst: seq<byte>, src: seq<byte>): (r: seq<byte>)
    ensures |r| == if |src| <= |dst| then |dst| else |src|
    ensures r[..|src|] == src
    ensures forall i :: |src| <= i < |dst| ==> r[i] == dst[i]
  {
    if |src| <= |dst| then src + dst[|src|..] else src
  }

  /** `getVarByName`: index of the first non-null uniform slot carrying `name`. */
  function FindVar(uniforms: seq<Option<UniformVar>>, name: string): (r: Option<nat>)
    ensures r.Some? ==> r.value < |uniforms| && uniforms[r.value].Some? && uniforms[r.value].value.name == name
    ensures r.Some? ==> forall k :: 0 <= k < r.value ==>
      !(uniforms[k].Some? && uniforms[k].value.name == name)
    ensures r.None? ==> forall k :: 0 <= k < |uniforms| ==>
      !(uniforms[k].Some? && uniforms[k].value.name == name)
  {
    if uniforms == [] then None
    else if uniforms[0].Some? && uniforms[0].value.name == name then Some(0)
    else
      match FindVar(uniforms[1..], name)
      case None => None
      case Some(k) => Some(k + 1)
  }

  /** The update of the uniform slots done by `setMatrix(name, m)` and `setMatrixArray`: the
      variable found by name gets its leading bytes overwritten, otherwise a new variable of
      the given type is appended and written. */
  function UpsertMatrixVar(uniforms: seq<Option<UniformVar>>, name: string, t: ParameterType,
                           numItems: nat, bytes: seq<byte>): seq<Option<UniformVar>>
  {
    match FindVar(uniforms, name)
    case Some(k) =>
      uniforms[k := Some(uniforms[k].value.(data := Overwrite(uniforms[k].value.data, bytes)))]
    case None =>
      var v := CreateUniform(name, t, numItems);
      uniforms + [Some(v.(data := Overwrite(v.data, bytes)))]
  }

  /** Upsert by name: the slot count grows by at most one, and by one exactly when no slot had
      the name; afterwards the name is found and its value starts with the written bytes; every
      other slot keeps its variable. */
  lemma UpsertMatrixVarSpec(uniforms: seq<Option<UniformVar>>, name: string, t: ParameterType,
                            numItems: nat, bytes: seq<byte>)
    ensures var u := UpsertMatrixVar(uniforms, name, t, numItems, bytes);
      && |uniforms| <= |u| <= |uniforms| + 1
      && (|u| == |uniforms| + 1 <==> FindVar(uniforms, name).None?)
      && FindVar(u, name).Some?
      && |bytes| <= |u[FindVar(u, name).value].value.data|
      && u[FindVar(u, name).value].value.data[..|bytes|] == bytes
      && (forall k :: 0 <= k < |uniforms| && FindVar(uniforms, name) != Some(k) ==> u[k] == uniforms[k])
  {
    var u := UpsertMatrixVar(uniforms, name, t, numItems, bytes);
    match FindVar(uniforms, name)
    case Some(k) =>
      FindVarFirst(u, name, k);
    case None =>
      FindVarFirst(u, name, |uniforms|);
  }

  /** If slot k carries the name and no earlier slot does, the lookup finds k. */
  lemma {:induction false} FindVarFirst(uniforms: seq<Option<UniformVar>>, name: string, k: nat)
    requires k < |uniforms| && uniforms[k].Some? && uniforms[k].value.name == name
    requires forall j :: 0 <= j < k ==> !(uniforms[j].Some? && uniforms[j].value.name == name)
    ensures FindVar(uniforms, name) == Some(k)
  {
    if k > 0 {
      FindVarFirst(uniforms[1..], name, k - 1);
    }
  }

  /** A mesh as the service sees it: its id and the bytes of its vertex buffer. */
  datatype Mesh = Mesh(id: nat, vb: seq<byte>)

  /** One `addMesh` call's worth of meshes. */
  datatype MeshEntry = MeshEntry(meshes: seq<Mesh>, numInstances: nat, isDirty: bool)

  datatype DirtyBit = MatrixBufferDirty | UniformBufferDirty | MeshDirty | MeshUpdateDirty

  /** `RenderBatchData`. */
  datatype BatchData = BatchData(
    id: string,
    matrices: MatrixBuffer,
    uniforms: seq<Option<UniformVar>>,
    meshes: seq<MeshEntry>,
    updates: seq<Mesh>,
    dirty: set<DirtyBit>)

  /** `new RenderBatchData(id)`: empty, clean, with the engine's initial matrix buffer. */
  function NewBatch(id: string, mb: MatrixBuffer): BatchData {
    BatchData(id, mb, [], [], [], {})
  }

  /** `PassData`: a name and handles of the batches registered in it. */
  datatype PassData = PassData(id: string, batches: seq<nat>)

  /** `strncmp(entry, query, strlen(query)) == 0` on NUL-free strings: the query is a prefix of
      the entry. */
  predicate IdMatches(entry: string, query: string) {
    |query| <= |entry| && entry[..|query|] == query
  }

  /** Index of the first id that the query matches: the scan of `hasPass` and `hasBatch`. */
  function FirstMatch(ids: seq<string>, query: string): (r: Option<nat>)
    ensures r.Some? ==> r.value < |ids| && IdMatches(ids[r.value], query)
    ensures r.Some? ==> forall k :: 0 <= k < r.value ==> !IdMatches(ids[k], query)
    ensures r.None? ==> forall k :: 0 <= k < |ids| ==> !IdMatches(ids[k], query)
  {
    if ids == [] then None
    else if IdMatches(ids[0], query) then Some(0)
    else
      match FirstMatch(ids[1..], query)
      case None => None
      case Some(k) => Some(k + 1)
  }

  /** The source's -1 / index encoding of a lookup result. */
  function ToIndex(r: Option<nat>): int {
    match r
    case None => -1
    case Some(k) => k
  }

  /** Prefix matching, not equality: an entry is found by any prefix of its id, the empty
      query finds the first entry, and a longer query does not find a shorter id. */
  lemma PrefixLookup(ids: seq<string>, query: string, extra: string)
    requires |ids| > 0
    ensures FirstMatch(ids, "") == Some(0)
    ensures ids[0] == query + extra ==> FirstMatch(ids, query) == Some(0)
    ensures |ids| == 1 && |ids[0]| < |query| ==> FirstMatch(ids, query).None?
  {
    assert IdMatches(ids[0], "");
  }

  // ---------------------------------------------------------------------------------------
  // The command stream.

  datatype UpdateKind = UpdateMatrixes | UpdateUniforms | UpdateBuffer | AddMeshes

  /** `FrameSubmitCmd`: target pass and batch, optional mesh id, kind and owned payload. */
  datatype Cmd = Cmd(passId: string, batchId: string, meshId: Option<nat>, kind: UpdateKind, payload: seq<byte>)

  /** The length prefix of a uniform payload: the name length, saturated at 255. */
  function NameLengthByte(n: nat): byte {
    if n > 255 then 255 else n
  }

  /** A uniform payload: length byte, name bytes, raw value bytes. */
  function UniformPayload(v: UniformVar): seq<byte> {
    [NameLengthByte(|v.name|)] + Bytes(v.name) + v.data
  }

  /** How a consumer splits a uniform payload into name bytes and value bytes. */
  function DecodeUniformPayload(p: seq<byte>): Option<(seq<byte>, seq<byte>)> {
    if |p| >= 1 && 1 + p[0] <= |p| then Some((p[1..1 + p[0]], p[1 + p[0]..])) else None
  }

  /** For names of at most 255 bytes the payload decodes to the name and the value. */
  lemma UniformPayloadRoundTrip(v: UniformVar)
    requires |v.name| <= 255
    ensures DecodeUniformPayload(UniformPayload(v)) == Some((Bytes(v.name), v.data))
  {
    var p := UniformPayload(v);
    assert p[0] == |v.name|;
    assert p[1..1 + |v.name|] == Bytes(v.name);
    assert p[1 + |v.name|..] == v.data;
  }

  /** A name longer than 255 bytes does not survive: its prefix byte says 255. */
  lemma LongUniformNameSaturates(v: UniformVar)
    requires |v.name| > 255
    ensures UniformPayload(v)[0] == 255
    ensures DecodeUniformPayload(UniformPayload(v)).Some?
    ensures DecodeUniformPayload(UniformPayload(v)).value.0 != Bytes(v.name)
  {
  }

  function MatrixCmd(passId: string, b: BatchData): Cmd {
    Cmd(passId, b.id, None, UpdateMatrixes, SerializeMatrices(b.matrices))
  }

  /** The command for one uniform slot; a null slot still gets a command, with no payload. */
  function UniformCmd(passId: string, batchId: string, slot: Option<UniformVar>): Cmd {
    match slot
    case None => Cmd(passId, batchId, None, UpdateUniforms, [])
    case Some(v) => Cmd(passId, batchId, None, UpdateUniforms, UniformPayload(v))
  }

  function UpdateCmd(passId: string, batchId: string, m: Mesh): Cmd {
    Cmd(passId, batchId, Some(m.id), UpdateBuffer, m.vb)
  }

  function AddCmd(passId: string, batchId: string, m: Mesh): Cmd {
    Cmd(passId, batchId, Some(m.id), AddMeshes, m.vb)
  }

  function UniformCmds(passId: string, b: BatchData): seq<Cmd> {
    seq(|b.uniforms|, k requires 0 <= k < |b.uniforms| => UniformCmd(passId, b.id, b.uniforms[k]))
  }

  function UpdateCmds(passId: string, b: BatchData): seq<Cmd> {
    seq(|b.updates|, k requires 0 <= k < |b.updates| => UpdateCmd(passId, b.id, b.updates[k]))
  }

  /** The commands of one mesh entry: one per mesh if the entry is dirty, none otherwise. */
  function EntryCmds(passId: string, batchId: string, e: MeshEntry): seq<Cmd> {
    if e.isDirty then
      seq(|e.meshes|, l requires 0 <= l < |e.meshes| => AddCmd(passId, batchId, e.meshes[l]))
    else
      []
  }

  /** The commands of the mesh entries, entry by entry. */
  function MeshCmds(passId: string, batchId: string, entries: seq<MeshEntry>): seq<Cmd>
    decreases |entries|
  {
    if entries == [] then []
    else MeshCmds(passId, batchId, entries[..|entries| - 1]) + EntryCmds(passId, batchId, entries[|entries| - 1])
  }

  /** Number of meshes summed over the dirty entries. */
  function DirtyMeshCount(entries: seq<MeshEntry>): nat {
    if entries == [] then 0
    else (if entries[0].isDirty then |entries[0].meshes| else 0) + DirtyMeshCount(entries[1..])
  }

  lemma {:induction false} DirtyMeshCountAppend(entries: seq<MeshEntry>, e: MeshEntry)
    ensures DirtyMeshCount(entries + [e]) == DirtyMeshCount(entries) + (if e.isDirty then |e.meshes| else 0)
  {
    if entries != [] {
      assert (entries + [e])[1..] == entries[1..] + [e];
      DirtyMeshCountAppend(entries[1..], e);
    }
  }

  /** The body of the pass/batch walk for one batch: the if/else-if chain over the dirty flag. */
  function BatchCommands(passId: string, b: BatchData): seq<Cmd> {
    if MatrixBufferDirty in b.dirty then [MatrixCmd(passId, b)]
    else if UniformBufferDirty in b.dirty then UniformCmds(passId, b)
    else if MeshUpdateDirty in b.dirty then UpdateCmds(passId, b)
    else if MeshDirty in b.dirty then MeshCmds(passId, b.id, b.meshes)
    else []
  }

  /** The order in which dirty categories are served, with the command kind of each. */
  const CategoryOrder: seq<(DirtyBit, UpdateKind)> := [
    (MatrixBufferDirty, UpdateMatrixes),
    (UniformBufferDirty, UpdateUniforms),
    (MeshUpdateDirty, UpdateBuffer),
    (MeshDirty, AddMeshes)]

  /** The kind of the first category in `order` whose bit is set. */
  function FirstSet(order: seq<(DirtyBit, UpdateKind)>, dirty: set<DirtyBit>): Option<UpdateKind> {
    if order == [] then None
    else if order[0].0 in dirty then Some(order[0].1)
    else FirstSet(order[1..], dirty)
  }

  /** The one category a submission serves for a batch. */
  function ServedCategory(dirty: set<DirtyBit>): Option<UpdateKind> {
    FirstSet(CategoryOrder, dirty)
  }

  /** The served category read off the order: matrix, then uniform, then mesh update, then
      mesh; none exactly when no bit is set. */
  lemma ServedCategoryOrder(dirty: set<DirtyBit>)
    ensures ServedCategory(dirty) ==
      if MatrixBufferDirty in dirty then Some(UpdateMatrixes)
      else if UniformBufferDirty in dirty then Some(UpdateUniforms)
      else if MeshUpdateDirty in dirty then Some(UpdateBuffer)
      else if MeshDirty in dirty then Some(AddMeshes)
      else None
    ensures ServedCategory(dirty).None? <==> dirty == {}
  {
    var o := CategoryOrder;
    assert FirstSet(o, dirty) == if MatrixBufferDirty in dirty then Some(UpdateMatrixes) else FirstSet(o[1..], dirty);
    assert FirstSet(o[1..], dirty) == if UniformBufferDirty in dirty then Some(UpdateUniforms) else FirstSet(o[2..], dirty);
    assert o[1..][1..] == o[2..];
    assert FirstSet(o[2..], dirty) == if MeshUpdateDirty in dirty then Some(UpdateBuffer) else FirstSet(o[3..], dirty);
    assert o[2..][1..] == o[3..];
    assert FirstSet(o[3..], dirty) == if MeshDirty in dirty then Some(AddMeshes) else FirstSet(o[4..], dirty);
    assert o[3..][1..] == o[4..];
    assert o[4..] == [];
    if dirty != {} {
      var d :| d in dirty;
      assert d.MatrixBufferDirty? || d.UniformBufferDirty? || d.MeshDirty? || d.MeshUpdateDirty?;
    }
  }

  /** Every command of a batch targets its pass and batch and carries the kind of the first
      set category; a clean batch produces nothing. */
  lemma BatchCommandsServeOneCategory(passId: string, b: BatchData)
    ensures forall c :: c in BatchCommands(passId, b) ==>
      c.passId == passId && c.batchId == b.id && Some(c.kind) == ServedCategory(b.dirty)
    ensures b.dirty == {} ==> BatchCommands(passId, b) == []
    ensures ServedCategory(b.dirty).None? <==> b.dirty == {}
  {
    ServedCategoryOrder(b.dirty);
    MeshCmdsTarget(passId, b.id, b.meshes);
  }

  lemma {:induction false} MeshCmdsTarget(passId: string, batchId: string, entries: seq<MeshEntry>)
    ensures forall c :: c in MeshCmds(passId, batchId, entries) ==>
      c.passId == passId && c.batchId == batchId && c.kind == AddMeshes && c.meshId.Some?
    ensures |MeshCmds(passId, batchId, entries)| == DirtyMeshCount(entries)
  {
    if entries != [] {
      var init := entries[..|entries| - 1];
      var e := entries[|entries| - 1];
      MeshCmdsTarget(passId, batchId, init);
      assert entries == init + [e];
      DirtyMeshCountAppend(init, e);
    }
  }

  /** The number of commands a batch yields depends on the served category alone: one for the
      matrix buffer, one per uniform slot (null slots included), one per updated mesh, one per
      mesh of every dirty mesh entry. */
  lemma BatchCommandCount(passId: string, b: BatchData)
    ensures |BatchCommands(passId, b)| ==
      match ServedCategory(b.dirty)
      case Some(UpdateMatrixes) => 1
      case Some(UpdateUniforms) => |b.uniforms|
      case Some(UpdateBuffer) => |b.updates|
      case Some(AddMeshes) => DirtyMeshCount(b.meshes)
      case None => 0
  {
    ServedCategoryOrder(b.dirty);
    MeshCmdsTarget(passId, b.id, b.meshes);
  }

  /** A matrix submission carries the whole matrix buffer: decoding its payload gives back
      every slot, the model matrix included. */
  lemma MatrixCommandCarriesBuffer(passId: string, b: BatchData)
    requires MatrixBufferDirty in b.dirty
    ensures BatchCommands(passId, b) == [MatrixCmd(passId, b)]
    ensures DeserializeMatrices(BatchCommands(passId, b)[0].payload) == Some(b.matrices)
  {
    MatrixPayloadRoundTrip(b.matrices);
  }

  // ---------------------------------------------------------------------------------------
  // The walk over passes and batches.

  /** One (pass, batch) step of the walk. */
  datatype Visit = Visit(passId: string, batch: nat)

  function PassVisits(p: PassData): (r: seq<Visit>)
    ensures |r| == |p.batches|
    ensures forall j :: 0 <= j < |p.batches| ==> r[j] == Visit(p.id, p.batches[j])
  {
    seq(|p.batches|, j requires 0 <= j < |p.batches| => Visit(p.id, p.batches[j]))
  }

  /** All steps, passes in order and batches in order inside each pass. */
  function Visits(passHeap: seq<PassData>, passes: seq<nat>): seq<Visit>
    decreases |passes|
  {
    if passes == [] then []
    else
      var last := passes[|passes| - 1];
      Visits(passHeap, passes[..|passes| - 1]) + (if last < |passHeap| then PassVisits(passHeap[last]) else [])
  }

  datatype CommitResult = CommitResult(cmds: seq<Cmd>, heap: seq<BatchData>)

  /** The submission: each step appends its batch's commands and then clears that batch's
      dirty flag, in the batch arena as it stands at that step. */
  function Commit(visits: seq<Visit>, heap: seq<BatchData>): (r: CommitResult)
    ensures |r.heap| == |heap|
    decreases |visits|
  {
    if visits == [] then CommitResult([], heap)
    else
      var prev := Commit(visits[..|visits| - 1], heap);
      var v := visits[|visits| - 1];
      if v.batch < |prev.heap| then
        var b := prev.heap[v.batch];
        CommitResult(prev.cmds + BatchCommands(v.passId, b), prev.heap[v.batch := b.(dirty := {})])
      else
        prev
  }

  ghost predicate Visited(visits: seq<Visit>, h: nat) {
    exists k :: 0 <= k < |visits| && visits[k].batch == h
  }

  /** After a submission every visited batch is clean and otherwise unchanged, and every batch
      the walk did not reach is exactly as before. */
  lemma {:induction false} CommitClearsVisited(visits: seq<Visit>, heap: seq<BatchData>)
    ensures var r := Commit(visits, heap);
      forall h :: 0 <= h < |heap| ==>
        r.heap[h] == if Visited(visits, h) then heap[h].(dirty := {}) else heap[h]
  {
    if visits != [] {
      var init := visits[..|visits| - 1];
      var v := visits[|visits| - 1];
      CommitClearsVisited(init, heap);
      assert visits == init + [v];
      forall h | 0 <= h < |heap|
        ensures Commit(visits, heap).heap[h] == if Visited(visits, h) then heap[h].(dirty := {}) else heap[h]
      {
        VisitedSnoc(init, v, h);
      }
    }
  }

  lemma VisitedSnoc(init: seq<Visit>, v: Visit, h: nat)
    ensures Visited(init + [v], h) <==> Visited(init, h) || v.batch == h
  {
    var s := init + [v];
    if Visited(init, h) {
      var k :| 0 <= k < |init| && init[k].batch == h;
      assert s[k] == init[k];
    }
    if v.batch == h {
      assert s[|init|] == v;
    }
    if Visited(s, h) {
      var k :| 0 <= k < |s| && s[k].batch == h;
      if k < |init| {
        assert init[k] == s[k];
      }
    }
  }

  /** Dirty bits are cleared once per submission: a second submission over the same walk
      produces no command and leaves the arena as the first one left it. */
  lemma {:induction false} CommitTwiceIsSilent(visits: seq<Visit>, heap: seq<BatchData>)
    ensures var r := Commit(visits, heap);
      Commit(visits, r.heap) == CommitResult([], r.heap)
  {
    var r := Commit(visits, heap);
    CommitClearsVisited(visits, heap);
    CommitOverClean(visits, r.heap);
  }

  /** A walk over batches that are all clean emits nothing and changes nothing. */
  lemma {:induction false} CommitOverClean(visits: seq<Visit>, heap: seq<BatchData>)
    requires forall k :: 0 <= k < |visits| && visits[k].batch < |heap| ==> heap[visits[k].batch].dirty == {}
    ensures Commit(visits, heap) == CommitResult([], heap)
  {
    if visits != [] {
      var init := visits[..|visits| - 1];
      var v := visits[|visits| - 1];
      assert forall k :: 0 <= k < |init| ==> init[k] == visits[k];
      CommitOverClean(init, heap);
      if v.batch < |heap| {
        var b := heap[v.batch];
        assert b.(dirty := {}) == b;
        BatchCommandsServeOneCategory(v.passId, b);
      }
    }
  }

  /** The walk is compositional: submitting `a + b` is submitting `a`, then `b` on what `a`
      left, with the commands concatenated in that order. */
  lemma {:induction false} CommitAppend(a: seq<Visit>, b: seq<Visit>, heap: seq<BatchData>)
    ensures var ra := Commit(a, heap); var rb := Commit(b, ra.heap);
      Commit(a + b, heap) == CommitResult(ra.cmds + rb.cmds, rb.heap)
    decreases |b|
  {
    if b == [] {
      assert a + b == a;
    } else {
      var binit := b[..|b| - 1];
      assert (a + b)[..|a + b| - 1] == a + binit;
      assert (a + b)[|a + b| - 1] == b[|b| - 1];
      CommitAppend(a, binit, heap);
    }
  }

  /** A single visit of a batch yields exactly that batch's commands. */
  lemma CommitOne(v: Visit, heap: seq<BatchData>)
    requires v.batch < |heap|
    ensures Commit([v], heap) == CommitResult(BatchCommands(v.passId, heap[v.batch]),
                                              heap[v.batch := heap[v.batch].(dirty := {})])
  {
    assert [v][..0] == [];
  }
}
