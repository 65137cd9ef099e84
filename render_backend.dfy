/** The render backend service: the recording protocol through which the engine describes a
    frame (passes containing batches, and per batch matrices, uniforms and meshes, each change
    marked by a dirty bit), and the submission that turns the dirty state into commands in the
    submit frame and hands that frame to the render thread.

    Passes and batches are objects shared by pointer; here they live in two arenas
    (`passHeap`, `batchHeap`) and every pointer is an index into one of them. */
module RenderBackend {
  import opened Common
  import opened RenderData
  import opened SettingsModel
  import opened ServiceCalls
  import opened DbgRendering

  const OglApi: string := "opengl"
  const VulkanApi: string := "vulkan"

  /** The pass `endRenderBatch` creates when a batch is closed outside any pass. */
  const DefaultPassId: string := "defaultPass"

  /** The render event handlers a backend can be driven by. */
  datatype BackendHandler = OGLRenderEventHandler | VlkRenderEventHandler

  /** The handler `onOpen` attaches for a requested render API, or none for an unknown one. */
  function SelectBackend(api: string): Option<BackendHandler> {
    if api == OglApi then Some(OGLRenderEventHandler)
    else if api == VulkanApi then Some(VlkRenderEventHandler)
    else None
  }

  /** The API name each handler answers to. */
  function ApiName(h: BackendHandler): string {
    match h
    case OGLRenderEventHandler => OglApi
    case VlkRenderEventHandler => VulkanApi
  }

  /** Exactly the two API names select a handler, each its own. */
  lemma SelectBackendInverse(api: string, h: BackendHandler)
    ensures SelectBackend(api) == Some(h) <==> api == ApiName(h)
    ensures SelectBackend(api).None? <==> api != OglApi && api != VulkanApi
  {
  }

  /** With the default settings the OpenGL handler is selected. */
  lemma DefaultBackendIsOpenGL()
    ensures SelectBackend(VariantString(Lookup(WithDefaults(map[]), RenderAPI))) == Some(OGLRenderEventHandler)
  {
    DefaultWindowValues(map[]);
  }

  /** The events sent to the render thread: `frame` is the index of the frame the event
      carries among the two frames. */
  datatype Event =
    | InitPassesEvent(frame: nat, passIds: seq<string>)
    | CommitFrameEvent(frame: nat)
    | RenderFrameEvent
    | ResizeEvent(x: u32, y: u32, w: u32, h: u32)

  // ---------------------------------------------------------------------------------------
  // Lookup by id.

  /** `hasPass` / `hasBatch`: the index of the first id that the query is a prefix of, or -1. */
  method IndexOfMatch(ids: seq<string>, id: string) returns (r: int)
    ensures r == ToIndex(FirstMatch(ids, id))
    ensures -1 <= r < |ids|
    ensures r >= 0 ==> IdMatches(ids[r], id) && forall k :: 0 <= k < r ==> !IdMatches(ids[k], id)
    ensures r == -1 <==> forall k :: 0 <= k < |ids| ==> !IdMatches(ids[k], id)
  {
    var i := 0;
    while i < |ids|
      invariant 0 <= i <= |ids|
      invariant forall k :: 0 <= k < i ==> !IdMatches(ids[k], id)
    {
      if |id| <= |ids[i]| && ids[i][..|id|] == id {
        return i;
      }
      i := i + 1;
    }
    return -1;
  }

  /** Every handle in `hs` points into an arena of size n. */
  predicate HandlesIn(hs: seq<nat>, n: nat) {
    forall k :: 0 <= k < |hs| ==> hs[k] < n
  }

  function PassNames(heap: seq<PassData>): (names: seq<string>)
    ensures |names| == |heap| && forall p :: 0 <= p < |heap| ==> names[p] == heap[p].id
  {
    seq(|heap|, p requires 0 <= p < |heap| => heap[p].id)
  }

  function BatchNames(heap: seq<BatchData>): (names: seq<string>)
    ensures |names| == |heap| && forall b :: 0 <= b < |heap| ==> names[b] == heap[b].id
  {
    seq(|heap|, b requires 0 <= b < |heap| => heap[b].id)
  }

  /** The ids of the objects a handle list points to, in list order. */
  function IdsAt(names: seq<string>, hs: seq<nat>): (ids: seq<string>)
    requires HandlesIn(hs, |names|)
    ensures |ids| == |hs| && forall k :: 0 <= k < |hs| ==> ids[k] == names[hs[k]]
  {
    seq(|hs|, k requires 0 <= k < |hs| => names[hs[k]])
  }

  /** The registration of `endRenderBatch` and `endPass`: the object is appended unless an
      object whose id its id is a prefix of is already in the list. */
  function Register(names: seq<string>, hs: seq<nat>, h: nat): (r: seq<nat>)
    requires HandlesIn(hs, |names|) && h < |names|
    ensures HandlesIn(r, |names|)
  {
    if FirstMatch(IdsAt(names, hs), names[h]).None? then hs + [h] else hs
  }

  /** Registration keeps the list as a prefix, adds at most one handle (the registered one,
      exactly when nothing matched), and leaves the id findable; registering twice is
      registering once. */
  lemma RegisterSpec(names: seq<string>, hs: seq<nat>, h: nat)
    requires HandlesIn(hs, |names|) && h < |names|
    ensures var r := Register(names, hs, h);
      && r[..|hs|] == hs
      && (|r| == |hs| + 1 <==> FirstMatch(IdsAt(names, hs), names[h]).None?)
      && (|r| == |hs| + 1 ==> r[|hs|] == h)
      && |r| <= |hs| + 1
      && FirstMatch(IdsAt(names, r), names[h]).Some?
      && Register(names, r, h) == r
  {
    var r := Register(names, hs, h);
    if |r| == |hs| + 1 {
      var ids := IdsAt(names, r);
      assert IdMatches(ids[|hs|], names[h]);
    }
  }

  // ---------------------------------------------------------------------------------------
  // The commands of one batch, as `commitNextFrame` builds them.

  /** The serving of one batch: the if / else-if chain over its dirty bits, with a loop over
      the uniform slots, the updated meshes or the dirty mesh entries of the served category. */
  method BatchCommandsOf(passId: string, b: BatchData) returns (cmds: seq<Cmd>)
    ensures cmds == BatchCommands(passId, b)
  {
    if MatrixBufferDirty in b.dirty {
      cmds := [Cmd(passId, b.id, None, UpdateMatrixes, SerializeMatrices(b.matrices))];
    } else if UniformBufferDirty in b.dirty {
      cmds := UniformCmdsOf(passId, b);
    } else if MeshUpdateDirty in b.dirty {
      cmds := UpdateCmdsOf(passId, b);
    } else if MeshDirty in b.dirty {
      cmds := MeshCmdsOf(passId, b);
    } else {
      cmds := [];
    }
  }

  /** The uniform loop: one command per uniform slot, an empty one for an unset slot. */
  method UniformCmdsOf(passId: string, b: BatchData) returns (cmds: seq<Cmd>)
    ensures cmds == UniformCmds(passId, b)
  {
    cmds := [];
    var k := 0;
    while k < |b.uniforms|
      invariant 0 <= k <= |b.uniforms|
      invariant cmds == UniformCmds(passId, b)[..k]
    {
      var slot := b.uniforms[k];
      if slot.None? {
        cmds := cmds + [Cmd(passId, b.id, None, UpdateUniforms, [])];
      } else {
        cmds := cmds + [Cmd(passId, b.id, None, UpdateUniforms, UniformPayload(slot.value))];
      }
      k := k + 1;
    }
  }

  /** The mesh update loop: one buffer update per updated mesh. */
  method UpdateCmdsOf(passId: string, b: BatchData) returns (cmds: seq<Cmd>)
    ensures cmds == UpdateCmds(passId, b)
  {
    cmds := [];
    var k := 0;
    while k < |b.updates|
      invariant 0 <= k <= |b.updates|
      invariant cmds == UpdateCmds(passId, b)[..k]
    {
      var mesh := b.updates[k];
      cmds := cmds + [Cmd(passId, b.id, Some(mesh.id), UpdateBuffer, mesh.vb)];
      k := k + 1;
    }
  }

  /** The mesh entry loop: the meshes of each dirty entry, entry by entry. */
  method MeshCmdsOf(passId: string, b: BatchData) returns (cmds: seq<Cmd>)
    ensures cmds == MeshCmds(passId, b.id, b.meshes)
  {
    cmds := [];
    var k := 0;
    while k < |b.meshes|
      invariant 0 <= k <= |b.meshes|
      invariant cmds == MeshCmds(passId, b.id, b.meshes[..k])
    {
      var entryCmds := EntryCmdsOf(passId, b.id, b.meshes[k]);
      cmds := cmds + entryCmds;
      assert b.meshes[..k + 1][..k] == b.meshes[..k];
      k := k + 1;
    }
    assert b.meshes[..|b.meshes|] == b.meshes;
  }

  /** The commands of one mesh entry: an add-meshes command per mesh if the entry is dirty. */
  method EntryCmdsOf(passId: string, batchId: string, entry: MeshEntry) returns (cmds: seq<Cmd>)
    ensures cmds == EntryCmds(passId, batchId, entry)
  {
    cmds := [];
    if entry.isDirty {
      var l := 0;
      while l < |entry.meshes|
        invariant 0 <= l <= |entry.meshes|
        invariant cmds == EntryCmds(passId, batchId, entry)[..l]
      {
        var mesh := entry.meshes[l];
        cmds := cmds + [Cmd(passId, batchId, Some(mesh.id), AddMeshes, mesh.vb)];
        l := l + 1;
      }
    }
  }

  /** The bytes of `numMat` matrices laid out one after the other. */
  function MatrixArrayBytes(mats: seq<Mat4>): (r: seq<byte>)
    ensures |r| == MatrixSize * |mats|
    decreases |mats|
  {
    if mats == [] then [] else mats[0] + MatrixArrayBytes(mats[1..])
  }

  /** One more registered pass adds its batches' steps at the end of the walk. */
  lemma VisitsStep(passHeap: seq<PassData>, passes: seq<nat>, i: nat)
    requires i < |passes| && passes[i] < |passHeap|
    ensures Visits(passHeap, passes[..i + 1]) == Visits(passHeap, passes[..i]) + PassVisits(passHeap[passes[i]])
  {
    assert passes[..i + 1][..i] == passes[..i];
  }

  class RenderBackendService {
    /** Whether the render task pointer is valid (it becomes so in `onOpen`). */
    var taskValid: bool
    /** The event handler attached to the render task, if any. */
    var handler: Option<BackendHandler>
    var settings: Settings?
    var ownsSettings: bool
    var frameCreated: bool
    /** `m_frames`: the command queues of the two frames. */
    var frames: seq<seq<Cmd>>
    /** Which of the two frames `m_submitFrame` points to; `m_renderFrame` is the other. */
    var submit: nat
    var dirty: bool
    var passHeap: seq<PassData>
    var batchHeap: seq<BatchData>
    /** `m_passes`. */
    var passes: seq<nat>
    var currentPass: Option<nat>
    var currentBatch: Option<nat>
    /** Every event sent to the render task, in order. */
    var events: seq<Event>
    /** The matrix buffer a new batch starts with. */
    const initialMatrices: MatrixBuffer
    /** `mBehaviour.ResizeViewport`. */
    const resizeViewport: bool

    /** The handles stay inside their arenas and the two frames exist. */
    predicate Valid()
      reads this
    {
      && |frames| == 2 && submit < 2
      && HandlesIn(passes, |passHeap|)
      && (forall p :: 0 <= p < |passHeap| ==> HandlesIn(passHeap[p].batches, |batchHeap|))
      && (currentPass.Some? ==> currentPass.value < |passHeap|)
      && (currentBatch.Some? ==> currentBatch.value < |batchHeap|)
    }

    function RenderFrame(): int
      reads this
    {
      1 - submit
    }

    /** The ids of the registered passes, in order. */
    function PassIds(): seq<string>
      reads this`passHeap, this`passes
      requires HandlesIn(passes, |passHeap|)
    {
      IdsAt(PassNames(passHeap), passes)
    }

    /** The ids of the batches registered in pass p, in order. */
    function BatchIds(p: nat): seq<string>
      reads this
      requires Valid() && p < |passHeap|
    {
      IdsAt(BatchNames(batchHeap), passHeap[p].batches)
    }

    constructor (initialMatrices: MatrixBuffer, resizeViewport: bool)
      ensures Valid()
      ensures !taskValid && handler.None? && settings == null && !ownsSettings && !frameCreated
      ensures frames == [[], []] && submit == 1 && RenderFrame() == 0 && !dirty
      ensures passHeap == [] && batchHeap == [] && passes == [] && currentPass.None? && currentBatch.None?
      ensures events == []
      ensures this.initialMatrices == initialMatrices && this.resizeViewport == resizeViewport
    {
      this.initialMatrices := initialMatrices;
      this.resizeViewport := resizeViewport;
      taskValid := false;
      handler := None;
      settings := null;
      ownsSettings := false;
      frameCreated := false;
      frames := [[], []];
      submit := 1;
      dirty := false;
      passHeap := [];
      batchHeap := [];
      passes := [];
      currentPass := None;
      currentBatch := None;
      events := [];
    }

    // -------------------------------------------------------------------------------------
    // Opening, settings and events.

    /** `onOpen`: settings are created if none were given; the render task is created if
        needed and started (`started` is whether it did). Only then is the handler for the
        configured API attached and the debug renderer created; the result is false when the
        task did not start, the API is unknown or a debug renderer already existed. */
    method Open(started: bool, registry: DbgRendererRegistry) returns (ok: bool)
      modifies this`settings, this`ownsSettings, this`taskValid, this`handler, registry
      ensures settings != null && taskValid
      ensures old(settings) != null ==> settings == old(settings) && ownsSettings == old(ownsSettings)
      ensures old(settings) == null ==> fresh(settings) && ownsSettings && settings.propertyMap == WithDefaults(map[])
      ensures !started ==> !ok && handler == old(handler) && registry.instance == old(registry.instance)
      ensures started ==>
        var choice := SelectBackend(VariantString(settings.Get(RenderAPI)));
        && handler == (if choice.Some? then choice else old(handler))
        && (ok <==> choice.Some? && old(registry.instance) == null)
        && (old(registry.instance) == null ==> registry.instance != null && fresh(registry.instance))
        && (old(registry.instance) != null ==> registry.instance == old(registry.instance))
    {
      if settings == null {
        settings := new Settings();
        ownsSettings := true;
      }
      if !taskValid {
        taskValid := true;
      }
      ok := started;
      if !ok {
        return;
      }
      var api := VariantString(settings.Get(RenderAPI));
      if api == OglApi {
        handler := Some(OGLRenderEventHandler);
      } else if api == VulkanApi {
        handler := Some(VlkRenderEventHandler);
      } else {
        ok := false;
      }
      var created := registry.Create();
      if !created {
        ok := false;
      }
    }

    /** `setSettings`: the service now uses `config`, owning it as told. */
    method SetSettings(config: Settings?, moveOwnership: bool)
      modifies this`settings, this`ownsSettings
      ensures settings == config && ownsSettings == moveOwnership
    {
      if ownsSettings && settings != null {
        settings := null;
        ownsSettings := false;
      }
      settings := config;
      ownsSettings := moveOwnership;
    }

    /** `sendEvent`: forwarded only when the render task exists. */
    method SendEvent(ev: Event)
      modifies this`events
      ensures events == if taskValid then old(events) + [ev] else old(events)
    {
      if taskValid {
        events := events + [ev];
      }
    }

    /** `initPasses`: with a render task, the submit frame is initialised from the registered
        passes and announced. */
    method InitPasses()
      requires Valid()
      modifies this`events
      ensures events == if taskValid then old(events) + [InitPassesEvent(submit, PassIds())] else old(events)
    {
      if !taskValid {
        return;
      }
      events := events + [InitPassesEvent(submit, IdsAt(PassNames(passHeap), passes))];
    }

    /** `resize`: a resize event is sent when the behaviour asks for it. The event is sent
        without checking the render task, so that case needs one. */
    method Resize(x: u32, y: u32, w: u32, h: u32)
      requires resizeViewport ==> taskValid
      modifies this`events
      ensures events == if resizeViewport then old(events) + [ResizeEvent(x, y, w, h)] else old(events)
    {
      if resizeViewport {
        events := events + [ResizeEvent(x, y, w, h)];
      }
    }

    // -------------------------------------------------------------------------------------
    // Recording.

    /** `getPassById`: null for a null id; the current pass when the id is a prefix of its
        id; otherwise the first registered pass whose id the id is a prefix of, or null. */
    method GetPassById(id: Option<string>) returns (p: Option<nat>)
      requires Valid()
      ensures id.None? ==> p.None?
      ensures id.Some? && currentPass.Some? && IdMatches(passHeap[currentPass.value].id, id.value) ==> p == currentPass
      ensures id.Some? && !(currentPass.Some? && IdMatches(passHeap[currentPass.value].id, id.value)) ==>
        match FirstMatch(PassIds(), id.value)
        case None => p.None?
        case Some(i) => p == Some(passes[i])
      ensures p.Some? ==> p.value < |passHeap| && IdMatches(passHeap[p.value].id, id.value)
    {
      if id.None? {
        return None;
      }
      if currentPass.Some? && IdMatches(passHeap[currentPass.value].id, id.value) {
        return currentPass;
      }
      var i := IndexOfMatch(IdsAt(PassNames(passHeap), passes), id.value);
      if i >= 0 {
        return Some(passes[i]);
      }
      return None;
    }

    /** `beginPass`: refused while a pass is being recorded. Otherwise the first registered
        pass matching the id is reopened, or a new empty pass is made, and the service is
        marked dirty. */
    method BeginPass(id: string) returns (p: Option<nat>)
      requires Valid()
      modifies this`currentPass, this`passHeap, this`dirty
      ensures Valid()
      ensures old(currentPass).Some? ==>
        p.None? && currentPass == old(currentPass) && passHeap == old(passHeap) && dirty == old(dirty)
      ensures old(currentPass).None? ==>
        && p.Some? && currentPass == p && dirty
        && match FirstMatch(old(PassIds()), id)
           case Some(i) => p == Some(passes[i]) && passHeap == old(passHeap)
           case None => p == Some(|old(passHeap)|) && passHeap == old(passHeap) + [PassData(id, [])]
    {
      if currentPass.Some? {
        return None;
      }
      currentPass := GetPassById(Some(id));
      if currentPass.None? {
        passHeap := passHeap + [PassData(id, [])];
        currentPass := Some(|passHeap| - 1);
      }
      dirty := true;
      return currentPass;
    }

    /** `beginRenderBatch`: refused outside a pass. Otherwise the first batch of the current
        pass matching the id is reopened, or a new batch is made; it becomes the current
        batch. */
    method BeginRenderBatch(id: string) returns (b: Option<nat>)
      requires Valid()
      modifies this`currentBatch, this`batchHeap
      ensures Valid()
      ensures currentPass.None? ==> b.None? && currentBatch == old(currentBatch) && batchHeap == old(batchHeap)
      ensures currentPass.Some? ==>
        && b.Some? && currentBatch == b
        && match FirstMatch(old(BatchIds(currentPass.value)), id)
           case Some(j) => b == Some(passHeap[currentPass.value].batches[j]) && batchHeap == old(batchHeap)
           case None => b == Some(|old(batchHeap)|) && batchHeap == old(batchHeap) + [NewBatch(id, initialMatrices)]
    {
      if currentPass.None? {
        return None;
      }
      var pass := passHeap[currentPass.value];
      var j := IndexOfMatch(IdsAt(BatchNames(batchHeap), pass.batches), id);
      if j >= 0 {
        currentBatch := Some(pass.batches[j]);
      } else {
        batchHeap := batchHeap + [NewBatch(id, initialMatrices)];
        currentBatch := Some(|batchHeap| - 1);
      }
      return currentBatch;
    }

    /** `setMatrix(type, m)`: without a current batch nothing changes; otherwise the selected
        matrix is replaced and the matrix bit set. */
    method SetMatrix(t: MatrixType, m: Mat4)
      requires Valid()
      modifies this`batchHeap
      ensures Valid()
      ensures currentBatch.None? ==> batchHeap == old(batchHeap)
      ensures currentBatch.Some? ==>
        var h := currentBatch.value; var b := old(batchHeap)[h];
        batchHeap == old(batchHeap)[h := b.(matrices := SetMatrixField(b.matrices, t, m), dirty := b.dirty + {MatrixBufferDirty})]
    {
      if currentBatch.None? {
        return;
      }
      var h := currentBatch.value;
      var b := batchHeap[h];
      match t {
        case Model =>
          b := b.(matrices := b.matrices.(model := m));
          b := b.(dirty := b.dirty + {MatrixBufferDirty});
        case View =>
          b := b.(matrices := b.matrices.(view := m));
          b := b.(dirty := b.dirty + {MatrixBufferDirty});
        case Projection =>
          b := b.(matrices := b.matrices.(proj := m));
          b := b.(dirty := b.dirty + {MatrixBufferDirty});
      }
      batchHeap := batchHeap[h := b];
    }

    /** `setMatrix(name, m)`: without a current batch nothing changes; otherwise the uniform
        of that name (created as a one-matrix variable if missing) starts with the matrix and
        the uniform bit is set. */
    method SetMatrixByName(name: string, m: Mat4)
      requires Valid()
      modifies this`batchHeap
      ensures Valid()
      ensures currentBatch.None? ==> batchHeap == old(batchHeap)
      ensures currentBatch.Some? ==>
        var h := currentBatch.value; var b := old(batchHeap)[h];
        batchHeap == old(batchHeap)[h := b.(uniforms := UpsertMatrixVar(b.uniforms, name, Mat4Param, 1, m),
                                           dirty := b.dirty + {UniformBufferDirty})]
    {
      if currentBatch.None? {
        return;
      }
      var h := currentBatch.value;
      var b := batchHeap[h];
      var u := b.uniforms;
      var k := FindVar(u, name);
      if k.None? {
        var v := CreateUniform(name, Mat4Param, 1);
        u := u + [Some(v.(data := Overwrite(v.data, m)))];
      } else {
        var v := u[k.value].value;
        u := u[k.value := Some(v.(data := Overwrite(v.data, m)))];
      }
      b := b.(dirty := b.dirty + {UniformBufferDirty});
      b := b.(uniforms := u);
      batchHeap := batchHeap[h := b];
    }

    /** `setUniform`: a null variable changes nothing; so does the lack of a current batch.
        Otherwise the variable is appended, even if its name is already there. */
    method SetUniform(v: Option<UniformVar>)
      requires Valid()
      modifies this`batchHeap
      ensures Valid()
      ensures v.None? || currentBatch.None? ==> batchHeap == old(batchHeap)
      ensures v.Some? && currentBatch.Some? ==>
        var h := currentBatch.value; var b := old(batchHeap)[h];
        batchHeap == old(batchHeap)[h := b.(uniforms := b.uniforms + [v], dirty := b.dirty + {UniformBufferDirty})]
    {
      if v.None? {
        return;
      }
      if currentBatch.Some? {
        var h := currentBatch.value;
        var b := batchHeap[h];
        b := b.(uniforms := b.uniforms + [v]);
        b := b.(dirty := b.dirty + {UniformBufferDirty});
        batchHeap := batchHeap[h := b];
      }
    }

    /** `setMatrixArray(name, numMat, matrices)`: like `setMatrix(name, m)` with a variable of
        `numMat` matrices. */
    method SetMatrixArray(name: string, mats: seq<Mat4>)
      requires Valid()
      modifies this`batchHeap
      ensures Valid()
      ensures currentBatch.None? ==> batchHeap == old(batchHeap)
      ensures currentBatch.Some? ==>
        var h := currentBatch.value; var b := old(batchHeap)[h];
        batchHeap == old(batchHeap)[h := b.(uniforms := UpsertMatrixVar(b.uniforms, name, Mat4ArrayParam, |mats|, MatrixArrayBytes(mats)),
                                           dirty := b.dirty + {UniformBufferDirty})]
    {
      if currentBatch.None? {
        return;
      }
      var h := currentBatch.value;
      var b := batchHeap[h];
      var u := b.uniforms;
      var bytes := MatrixArrayBytes(mats);
      var k := FindVar(u, name);
      if k.None? {
        var v := CreateUniform(name, Mat4ArrayParam, |mats|);
        u := u + [Some(v.(data := Overwrite(v.data, bytes)))];
      } else {
        var v := u[k.value].value;
        u := u[k.value := Some(v.(data := Overwrite(v.data, bytes)))];
      }
      b := b.(uniforms := u);
      b := b.(dirty := b.dirty + {UniformBufferDirty});
      batchHeap := batchHeap[h := b];
    }

    /** `addMesh(mesh, numInstances)`: a null mesh or no current batch changes nothing;
        otherwise one new mesh entry holding the mesh is appended and the mesh bit set. */
    method AddMesh(mesh: Option<Mesh>, numInstances: u32)
      requires Valid()
      modifies this`batchHeap
      ensures Valid()
      ensures mesh.None? || currentBatch.None? ==> batchHeap == old(batchHeap)
      ensures mesh.Some? && currentBatch.Some? ==>
        var h := currentBatch.value; var b := old(batchHeap)[h];
        batchHeap == old(batchHeap)[h := b.(meshes := b.meshes + [MeshEntry([mesh.value], numInstances, true)],
                                           dirty := b.dirty + {MeshDirty})]
    {
      if mesh.None? {
        return;
      }
      if currentBatch.None? {
        return;
      }
      var h := currentBatch.value;
      var b := batchHeap[h];
      var entry := MeshEntry([mesh.value], numInstances, true);
      b := b.(meshes := b.meshes + [entry]);
      b := b.(dirty := b.dirty + {MeshDirty});
      batchHeap := batchHeap[h := b];
    }

    /** `addMesh(geoArray, numInstances)`: one new mesh entry holding all the meshes. The
        array's first element is taken by address, so a current batch needs a non-empty
        array. */
    method AddMeshes(meshes: seq<Mesh>, numInstances: u32)
      requires Valid()
      requires currentBatch.Some? ==> |meshes| > 0
      modifies this`batchHeap
      ensures Valid()
      ensures currentBatch.None? ==> batchHeap == old(batchHeap)
      ensures currentBatch.Some? ==>
        var h := currentBatch.value; var b := old(batchHeap)[h];
        batchHeap == old(batchHeap)[h := b.(meshes := b.meshes + [MeshEntry(meshes, numInstances, true)],
                                           dirty := b.dirty + {MeshDirty})]
    {
      if currentBatch.None? {
        return;
      }
      var h := currentBatch.value;
      var b := batchHeap[h];
      var entry := MeshEntry(meshes, numInstances, true);
      b := b.(meshes := b.meshes + [entry]);
      b := b.(dirty := b.dirty + {MeshDirty});
      batchHeap := batchHeap[h := b];
    }

    /** `updateMesh`: without a current batch nothing changes; otherwise the mesh is queued
        for a buffer update and the mesh-update bit set. */
    method UpdateMesh(mesh: Mesh)
      requires Valid()
      modifies this`batchHeap
      ensures Valid()
      ensures currentBatch.None? ==> batchHeap == old(batchHeap)
      ensures currentBatch.Some? ==>
        var h := currentBatch.value; var b := old(batchHeap)[h];
        batchHeap == old(batchHeap)[h := b.(updates := b.updates + [mesh], dirty := b.dirty + {MeshUpdateDirty})]
    {
      if currentBatch.None? {
        return;
      }
      var h := currentBatch.value;
      var b := batchHeap[h];
      b := b.(updates := b.updates + [mesh]);
      b := b.(dirty := b.dirty + {MeshUpdateDirty});
      batchHeap := batchHeap[h := b];
    }

    /** `endRenderBatch`: false without a current batch. Otherwise a pass "defaultPass" is
        made if none is being recorded, the batch is registered in the current pass unless a
        batch matching its id already is, and no batch is current any more. */
    method EndRenderBatch() returns (ok: bool)
      requires Valid()
      modifies this`currentPass, this`passHeap, this`currentBatch
      ensures Valid()
      ensures ok <==> old(currentBatch).Some?
      ensures !ok ==> currentPass == old(currentPass) && passHeap == old(passHeap) && currentBatch == old(currentBatch)
      ensures ok ==>
        var heap1 := if old(currentPass).None? then old(passHeap) + [PassData(DefaultPassId, [])] else old(passHeap);
        var cp := if old(currentPass).None? then |old(passHeap)| else old(currentPass).value;
        var cb := old(currentBatch).value;
        && currentBatch.None? && currentPass == Some(cp)
        && passHeap == heap1[cp := heap1[cp].(batches := Register(BatchNames(batchHeap), heap1[cp].batches, cb))]
    {
      if currentBatch.None? {
        return false;
      }
      if currentPass.None? {
        passHeap := passHeap + [PassData(DefaultPassId, [])];
        currentPass := Some(|passHeap| - 1);
      }
      var cp := currentPass.value;
      var cb := currentBatch.value;
      var pass := passHeap[cp];
      var found := IndexOfMatch(IdsAt(BatchNames(batchHeap), pass.batches), batchHeap[cb].id);
      if found == -1 {
        passHeap := passHeap[cp := pass.(batches := pass.batches + [cb])];
      } else {
        passHeap := passHeap[cp := pass];
      }
      currentBatch := None;
      return true;
    }

    /** `endPass`: false without a current pass. Otherwise the pass is registered unless a
        pass matching its id already is, and no pass is current any more. */
    method EndPass() returns (ok: bool)
      requires Valid()
      modifies this`currentPass, this`passes
      ensures Valid()
      ensures ok <==> old(currentPass).Some?
      ensures !ok ==> currentPass == old(currentPass) && passes == old(passes)
      ensures ok ==> currentPass.None? && passes == Register(PassNames(passHeap), old(passes), old(currentPass).value)
    {
      if currentPass.None? {
        return false;
      }
      var found := IndexOfMatch(IdsAt(PassNames(passHeap), passes), passHeap[currentPass.value].id);
      if found == -1 {
        passes := passes + [currentPass.value];
      }
      currentPass := None;
      return true;
    }

    /** `clearPasses`: no pass is current, none is registered, and the next update
        initialises the passes again. */
    method ClearPasses()
      requires Valid()
      modifies this`currentPass, this`passes, this`frameCreated
      ensures Valid()
      ensures currentPass.None? && passes == [] && !frameCreated
    {
      currentPass := None;
      passes := [];
      frameCreated := false;
    }

    // -------------------------------------------------------------------------------------
    // Submission.

    /** The inner loop of `commitNextFrame` over one pass's batches. */
    method SubmitPass(pass: PassData) returns (cmds: seq<Cmd>)
      requires Valid() && HandlesIn(pass.batches, |batchHeap|)
      modifies this`batchHeap
      ensures Valid() && |batchHeap| == |old(batchHeap)|
      ensures Commit(PassVisits(pass), old(batchHeap)) == CommitResult(cmds, batchHeap)
    {
      cmds := [];
      var j := 0;
      assert PassVisits(pass)[..0] == [];
      while j < |pass.batches|
        invariant 0 <= j <= |pass.batches|
        invariant Valid() && |batchHeap| == |old(batchHeap)|
        invariant Commit(PassVisits(pass)[..j], old(batchHeap)) == CommitResult(cmds, batchHeap)
      {
        var h := pass.batches[j];
        var batch := batchHeap[h];
        var batchCmds := BatchCommandsOf(pass.id, batch);
        cmds := cmds + batchCmds;
        batchHeap := batchHeap[h := batch.(dirty := {})];
        assert PassVisits(pass)[..j + 1][..j] == PassVisits(pass)[..j];
        j := j + 1;
      }
      assert PassVisits(pass)[..|pass.batches|] == PassVisits(pass);
    }

    /** The outer loop of `commitNextFrame`: the registered passes, in order. */
    method SubmitPasses() returns (cmds: seq<Cmd>)
      requires Valid()
      modifies this`batchHeap
      ensures Valid() && |batchHeap| == |old(batchHeap)|
      ensures Commit(Visits(passHeap, passes), old(batchHeap)) == CommitResult(cmds, batchHeap)
    {
      cmds := [];
      var i := 0;
      assert passes[..0] == [];
      while i < |passes|
        invariant 0 <= i <= |passes|
        invariant Valid() && |batchHeap| == |old(batchHeap)|
        invariant Commit(Visits(passHeap, passes[..i]), old(batchHeap)) == CommitResult(cmds, batchHeap)
      {
        var pass := passHeap[passes[i]];
        var passCmds := SubmitPass(pass);
        VisitsStep(passHeap, passes, i);
        CommitAppend(Visits(passHeap, passes[..i]), PassVisits(pass), old(batchHeap));
        cmds := cmds + passCmds;
        i := i + 1;
      }
      assert passes[..|passes|] == passes;
    }

    /** `commitNextFrame`: with a render task, every registered pass's batches are served in
        order into the submit frame, each batch's dirty bits are cleared, the frames swap
        roles and the filled frame is announced. */
    method CommitNextFrame()
      requires Valid()
      modifies this`frames, this`submit, this`batchHeap, this`events
      ensures Valid()
      ensures !taskValid ==>
        frames == old(frames) && submit == old(submit) && batchHeap == old(batchHeap) && events == old(events)
      ensures taskValid ==>
        var r := Commit(Visits(passHeap, passes), old(batchHeap));
        && batchHeap == r.heap
        && frames == old(frames)[old(submit) := old(frames)[old(submit)] + r.cmds]
        && submit == 1 - old(submit) && RenderFrame() == old(submit)
        && events == old(events) + [CommitFrameEvent(old(submit))]
    {
      if !taskValid {
        return;
      }
      var cmds := SubmitPasses();
      frames := frames[submit := frames[submit] + cmds];
      var filled := submit;
      submit := 1 - submit;
      events := events + [CommitFrameEvent(filled)];
    }

    /** `onUpdate`: false without a render task. Otherwise the passes are initialised first
        if the frame was not created yet, the next frame is committed, and a render event is
        sent; `renderAck` is what the task answers to it. */
    method OnUpdate(renderAck: bool) returns (ok: bool)
      requires Valid()
      modifies this`frameCreated, this`frames, this`submit, this`batchHeap, this`events
      ensures Valid()
      ensures !taskValid ==>
        && !ok && frameCreated == old(frameCreated) && frames == old(frames) && submit == old(submit)
        && batchHeap == old(batchHeap) && events == old(events)
      ensures taskValid ==>
        var r := Commit(Visits(passHeap, passes), old(batchHeap));
        && ok == renderAck && frameCreated
        && batchHeap == r.heap
        && frames == old(frames)[old(submit) := old(frames)[old(submit)] + r.cmds]
        && submit == 1 - old(submit)
        && events == old(events) + (if old(frameCreated) then [] else [InitPassesEvent(old(submit), PassIds())])
                                  + [CommitFrameEvent(old(submit)), RenderFrameEvent]
    {
      if !taskValid {
        return false;
      }
      ghost var ids := PassIds();
      ghost var r := Commit(Visits(passHeap, passes), batchHeap);
      if !frameCreated {
        InitPasses();
        frameCreated := true;
      }
      ghost var initEvents := events;
      assert initEvents == old(events) + (if old(frameCreated) then [] else [InitPassesEvent(old(submit), ids)]);
      assert batchHeap == old(batchHeap) && frames == old(frames) && submit == old(submit);
      CommitNextFrame();
      assert events == initEvents + [CommitFrameEvent(old(submit))];
      assert batchHeap == r.heap && frames == old(frames)[old(submit) := old(frames)[old(submit)] + r.cmds];
      events := events + [RenderFrameEvent];
      ok := renderAck;
    }
  }
}
