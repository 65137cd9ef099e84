/** Short recording sessions on a fresh render backend service, with what they leave behind. */
module Scenarios {
  import opened Common
  import opened RenderData
  import opened RenderBackend
  import opened DbgRendering

  /** Two `addMesh` calls in one batch give the batch two mesh entries, in call order. The
      pass and batch names and the two different instance counts only make the order visible;
      any other values behave the same. */
  method TwoMeshesInOneBatch(m1: Mesh, m2: Mesh, mb: MatrixBuffer) returns (entries: seq<MeshEntry>)
    ensures entries == [MeshEntry([m1], 1, true), MeshEntry([m2], 2, true)]
  {
    var s := new RenderBackendService(mb, false);
    var p := s.BeginPass("scene");
    var b := s.BeginRenderBatch("mesh");
    s.AddMesh(Some(m1), 1);
    s.AddMesh(Some(m2), 2);
    entries := s.batchHeap[b.value].meshes;
  }

  /** The recording half of the session below: one pass "scene" holding one batch "mesh"
      that was given two meshes. */
  method RecordTwoMeshes(m1: Mesh, m2: Mesh, mb: MatrixBuffer) returns (s: RenderBackendService)
    ensures fresh(s) && s.Valid() && s.taskValid
    ensures s.passHeap == [PassData("scene", [0])] && s.passes == [0]
    ensures s.batchHeap == [NewBatch("mesh", mb).(meshes := [MeshEntry([m1], 1, true), MeshEntry([m2], 2, true)], dirty := {MeshDirty})]
    ensures s.frames == [[], []] && s.submit == 1
  {
    s := OpenSceneBatch(mb);
    var e1 := MeshEntry([m1], 1, true);
    var e2 := MeshEntry([m2], 2, true);
    s.AddMesh(Some(m1), 1);
    assert |s.batchHeap| == 1 && s.batchHeap[0].meshes == [] + [e1];
    assert s.batchHeap[0] == NewBatch("mesh", mb).(meshes := [e1], dirty := {MeshDirty});
    s.AddMesh(Some(m2), 2);
    assert |s.batchHeap| == 1 && s.batchHeap[0].meshes == [e1] + [e2];
    assert s.batchHeap[0] == NewBatch("mesh", mb).(meshes := [e1, e2], dirty := {MeshDirty});
    CloseSceneBatch(s);
  }

  /** Committing a batch that was given two meshes sends one add-meshes command per mesh, in
      call order, each carrying its mesh's id and vertex data. */
  method TwoMeshesCommitted(m1: Mesh, m2: Mesh, mb: MatrixBuffer) returns (cmds: seq<Cmd>)
    ensures cmds == [AddCmd("scene", "mesh", m1), AddCmd("scene", "mesh", m2)]
    ensures cmds[0].meshId == Some(m1.id) && cmds[1].meshId == Some(m2.id)
  {
    var s := RecordTwoMeshes(m1, m2, mb);
    var recorded := s.batchHeap[0];
    var e1 := MeshEntry([m1], 1, true);
    var e2 := MeshEntry([m2], 2, true);
    assert recorded.meshes[..1] == [e1] && [e1][..0] == [];
    assert MeshCmds("scene", "mesh", [e1]) == [AddCmd("scene", "mesh", m1)];
    assert BatchCommands("scene", recorded) == [AddCmd("scene", "mesh", m1), AddCmd("scene", "mesh", m2)];
    CommitSceneBatch(s);
    cmds := s.frames[1];
  }

  /** Outside a batch, setting a named matrix, adding a mesh or queuing an update changes no
      batch. */
  method RecordingOutsideBatch(name: string, m: Mat4, mesh: Mesh, mb: MatrixBuffer) returns (heap: seq<BatchData>)
    ensures heap == []
  {
    var s := new RenderBackendService(mb, false);
    var p := s.BeginPass("scene");
    s.SetMatrixByName(name, m);
    s.AddMesh(Some(mesh), 1);
    s.UpdateMesh(mesh);
    heap := s.batchHeap;
  }

  /** Once "defaultPass" is registered, `beginPass("default")` reopens it instead of creating
      a pass, because ids match by prefix. */
  method PrefixReopensPass(mb: MatrixBuffer) returns (first: Option<nat>, second: Option<nat>, count: nat)
    ensures first == Some(0) && second == Some(0) && count == 1
  {
    var s := new RenderBackendService(mb, false);
    first := s.BeginPass("defaultPass");
    var ended := s.EndPass();
    RegisterSpec(PassNames(s.passHeap), [], 0);
    assert s.PassIds() == ["defaultPass"];
    assert IdMatches("defaultPass", "default");
    second := s.BeginPass("default");
    count := |s.passHeap|;
  }

  /** A batch that ends without a pass is put into a new pass "defaultPass". */
  method BatchWithoutPass(mb: MatrixBuffer) returns (ok: bool, passIds: seq<string>)
    ensures ok && passIds == ["defaultPass"]
  {
    var s := new RenderBackendService(mb, false);
    var p := s.BeginPass("scene");
    var b := s.BeginRenderBatch("dbg");
    var endedPass := s.EndPass();
    ok := s.EndRenderBatch();
    passIds := [s.passHeap[s.currentPass.value].id];
  }

  /** A fresh service opened on a started render task, with nothing recorded. */
  method OpenedService(mb: MatrixBuffer) returns (s: RenderBackendService)
    ensures fresh(s) && s.Valid() && s.taskValid
    ensures s.passHeap == [] && s.batchHeap == [] && s.passes == [] && s.currentPass.None? && s.currentBatch.None?
    ensures s.initialMatrices == mb && s.frames == [[], []] && s.submit == 1
  {
    s := new RenderBackendService(mb, false);
    var registry := new DbgRendererRegistry();
    var isOpen := s.Open(true, registry);
  }

  /** An opened service with the pass "scene" begun and the batch "mesh" begun in it. */
  method OpenSceneBatch(mb: MatrixBuffer) returns (s: RenderBackendService)
    ensures fresh(s) && s.Valid() && s.taskValid
    ensures s.passHeap == [PassData("scene", [])] && s.passes == [] && s.currentPass == Some(0)
    ensures s.batchHeap == [NewBatch("mesh", mb)] && s.currentBatch == Some(0)
    ensures s.frames == [[], []] && s.submit == 1
  {
    s := OpenedService(mb);
    var p := s.BeginPass("scene");
    assert s.passHeap == [PassData("scene", [])] && s.currentPass == Some(0);
    var b := s.BeginRenderBatch("mesh");
  }

  /** Ending the batch and the pass opened by `OpenSceneBatch` registers each of them; the
      batch contents stay as recorded. */
  method CloseSceneBatch(s: RenderBackendService)
    requires s.Valid() && s.passHeap == [PassData("scene", [])] && s.passes == []
    requires s.currentPass == Some(0) && |s.batchHeap| == 1 && s.currentBatch == Some(0)
    modifies s`currentPass, s`passHeap, s`currentBatch, s`passes
    ensures s.Valid() && s.passHeap == [PassData("scene", [0])] && s.passes == [0]
    ensures s.currentPass.None? && s.currentBatch.None?
  {
    var endedBatch := s.EndRenderBatch();
    RegisterSpec(BatchNames(s.batchHeap), [], 0);
    assert s.passHeap == [PassData("scene", [0])];
    var endedPass := s.EndPass();
    RegisterSpec(PassNames(s.passHeap), [], 0);
  }

  /** A commit of the session's one pass "scene" with its one batch: that batch's commands are
      appended to the submit frame, its flags are cleared and the frames swap. */
  method CommitSceneBatch(s: RenderBackendService)
    requires s.Valid() && s.taskValid && s.passHeap == [PassData("scene", [0])] && s.passes == [0]
    requires |s.batchHeap| == 1
    modifies s`frames, s`submit, s`batchHeap, s`events
    ensures s.Valid() && s.submit == 1 - old(s.submit)
    ensures s.batchHeap == [old(s.batchHeap[0]).(dirty := {})]
    ensures s.frames == old(s.frames)[old(s.submit) := old(s.frames)[old(s.submit)] + BatchCommands("scene", old(s.batchHeap[0]))]
  {
    var v := Visit("scene", 0);
    assert Visits(s.passHeap, s.passes) == [v] by {
      assert s.passes[..0] == [];
    }
    CommitOne(v, s.batchHeap);
    s.CommitNextFrame();
  }

  /** The recording half of the session below: one pass "scene" holding one batch "mesh"
      that was given a model matrix and a mesh. */
  method RecordMatrixAndMesh(m: Mat4, mesh: Mesh, mb: MatrixBuffer) returns (s: RenderBackendService)
    ensures fresh(s) && s.Valid() && s.taskValid
    ensures s.passHeap == [PassData("scene", [0])] && s.passes == [0] && |s.batchHeap| == 1
    ensures s.batchHeap[0].dirty == {MatrixBufferDirty, MeshDirty}
    ensures s.frames == [[], []] && s.submit == 1
  {
    s := OpenSceneBatch(mb);
    s.SetMatrix(Model, m);
    assert s.batchHeap[0].dirty == NewBatch("mesh", mb).dirty + {MatrixBufferDirty};
    s.AddMesh(Some(mesh), 1);
    assert |s.batchHeap| == 1 && s.batchHeap[0].dirty == NewBatch("mesh", mb).dirty + {MatrixBufferDirty, MeshDirty};
    CloseSceneBatch(s);
  }

  /** A batch given a matrix and a mesh in the same frame sends only the matrix buffer on
      commit, and the next commit sends nothing for it: the mesh never reaches the frame. */
  method MatrixAndMeshInOneBatch(m: Mat4, mesh: Mesh, mb: MatrixBuffer)
    returns (first: seq<Cmd>, second: seq<Cmd>)
    ensures |first| == 1 && first[0].kind == UpdateMatrixes
    ensures second == []
  {
    var s := RecordMatrixAndMesh(m, mesh, mb);
    var recorded := s.batchHeap[0];
    MatrixCommandCarriesBuffer("scene", recorded);
    CommitSceneBatch(s);
    assert s.frames[1] == [MatrixCmd("scene", recorded)];
    first := s.frames[1];
    assert s.submit == 0 && s.batchHeap[0].dirty == {};
    assert BatchCommands("scene", s.batchHeap[0]) == [];
    CommitSceneBatch(s);
    second := s.frames[0];
  }
}
