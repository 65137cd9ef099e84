/** The render pipeline: an ordered list of passes bracketed by frames, a name table for the
    engine's built-in passes, and the structural equality of passes. */
module PipelineModel {
  import opened Common

  /** Number of built-in passes, and the id of the debug pass among them. */
  const MaxDbgPasses: nat := 3
  const RenderPassId: nat := 0
  const UiPassId: nat := 1
  const DbgPassId: nat := 2

  /** `Details::RenderPassNames`. */
  const RenderPassNames: seq<string> := ["RenderPass", "UiPass", "DbgPass"]

  /** `PipelinePass::getPassNameById`: a built-in pass name, or null past the table. */
  function GetPassNameById(id: nat): (name: Option<string>)
    ensures name.Some? <==> id < MaxDbgPasses
  {
    if id >= MaxDbgPasses then None else Some(RenderPassNames[id])
  }

  /** The name table as a reader sees it: three different names, in this order. */
  lemma PassNames()
    ensures GetPassNameById(RenderPassId) == Some("RenderPass")
    ensures GetPassNameById(UiPassId) == Some("UiPass")
    ensures GetPassNameById(DbgPassId) == Some("DbgPass")
    ensures forall i, j :: 0 <= i < j < MaxDbgPasses ==> GetPassNameById(i) != GetPassNameById(j)
  {
    assert forall i :: 0 <= i < MaxDbgPasses ==> GetPassNameById(i) == Some(RenderPassNames[i]);
  }

  /** The six render states of a pass; their contents are compared only for equality. */
  datatype RenderStates = RenderStates(
    polygonState: int, cullState: int, blendState: int,
    samplerState: int, clearState: int, stencilState: int)

  /** `PipelinePass`: id, render target, states and shader (a handle, or null). */
  datatype PipelinePass = PipelinePass(id: u32, renderTarget: int, states: RenderStates, shader: Option<nat>)

  /** `PipelinePass::operator==`: the id and each of the six states agree. */
  predicate PassEquals(a: PipelinePass, b: PipelinePass) {
    && a.id == b.id
    && a.states.polygonState == b.states.polygonState
    && a.states.cullState == b.states.cullState
    && a.states.blendState == b.states.blendState
    && a.states.samplerState == b.states.samplerState
    && a.states.clearState == b.states.clearState
    && a.states.stencilState == b.states.stencilState
  }

  /** `PipelinePass::operator!=`. */
  predicate PassNotEquals(a: PipelinePass, b: PipelinePass) {
    !PassEquals(a, b)
  }

  /** Equality is the equality of (id, states): the render target and the shader play no
      part, and `!=` is its exact negation. */
  lemma PassEqualsMeaning(a: PipelinePass, b: PipelinePass)
    ensures PassEquals(a, b) <==> (a.id, a.states) == (b.id, b.states)
    ensures PassNotEquals(a, b) <==> !PassEquals(a, b)
    ensures PassEquals(a, b) ==>
      PassEquals(a.(renderTarget := b.renderTarget, shader := b.shader), b) && a.(renderTarget := b.renderTarget, shader := b.shader) == b
  {
  }

  /** `==` is an equivalence relation. */
  lemma PassEqualsEquivalence(a: PipelinePass, b: PipelinePass, c: PipelinePass)
    ensures PassEquals(a, a)
    ensures PassEquals(a, b) ==> PassEquals(b, a)
    ensures PassEquals(a, b) && PassEquals(b, c) ==> PassEquals(a, c)
  {
  }

  class Pipeline {
    /** `m_passes`: only non-null passes are ever added. */
    var passes: seq<PipelinePass>
    /** `m_currentPassId`, -1 when no pass is being recorded. */
    var currentPassId: int
    var inFrame: bool

    constructor ()
      ensures passes == [] && currentPassId == -1 && !inFrame
    {
      passes := [];
      currentPassId := -1;
      inFrame := false;
    }

    /** `addPass`: a null pass is ignored, any other is appended. */
    method AddPass(pass: Option<PipelinePass>)
      modifies this`passes
      ensures pass.None? ==> passes == old(passes)
      ensures pass.Some? ==> passes == old(passes) + [pass.value]
    {
      if pass.None? {
        return;
      }
      passes := passes + [pass.value];
    }

    function GetNumPasses(): (n: nat)
      reads this
      ensures n == |passes|
    {
      |passes|
    }

    /** `beginFrame`: refused (0) inside a frame or with no passes; otherwise enters the
        frame and returns the pass count. */
    method BeginFrame() returns (n: nat)
      modifies this`inFrame
      ensures old(inFrame) || old(passes) == [] ==> n == 0 && inFrame == old(inFrame)
      ensures !old(inFrame) && old(passes) != [] ==> n == |passes| && inFrame
      ensures n == 0 <==> old(inFrame) || passes == []
    {
      if inFrame {
        return 0;
      }
      if passes == [] {
        return 0;
      }
      inFrame := true;
      return |passes|;
    }

    /** `beginPass`: outside a frame nothing happens; inside one the id is recorded and the
        pass returned. The pass list is indexed without a check, so callers must pass a
        valid index while in a frame. */
    method BeginPass(passId: u32) returns (pass: Option<PipelinePass>)
      requires inFrame ==> passId < |passes|
      modifies this`currentPassId
      ensures !inFrame ==> pass.None? && currentPassId == old(currentPassId)
      ensures inFrame ==> currentPassId == passId && pass == Some(passes[passId])
    {
      if !inFrame {
        return None;
      }
      currentPassId := passId;
      pass := Some(passes[passId]);
    }

    /** `endPass`: succeeds only for the pass being recorded inside a frame, and then resets
        the current id; on failure nothing changes. */
    method EndPass(passId: u32) returns (ok: bool)
      modifies this`currentPassId
      ensures ok <==> passId == old(currentPassId) && inFrame
      ensures ok ==> currentPassId == -1
      ensures !ok ==> currentPassId == old(currentPassId)
    {
      if passId != currentPassId || !inFrame {
        return false;
      }
      currentPassId := -1;
      return true;
    }

    /** `endFrame`: leaves the frame; the current pass id is kept. */
    method EndFrame()
      modifies this`inFrame
      ensures !inFrame
    {
      inFrame := false;
    }

    /** `clear`: no passes, outside any frame, no current pass. */
    method Clear()
      modifies this
      ensures passes == [] && !inFrame && currentPassId == -1
    {
      currentPassId := -1;
      inFrame := false;
      passes := [];
    }
  }

  /** One frame over a one-pass pipeline: the frame opens with one pass, the pass brackets
      close in order, and the pipeline ends outside any frame with no current pass. */
  method OneFrame(p: PipelinePass) returns (n: nat, begun: Option<PipelinePass>, ended: bool, again: nat)
    ensures n == 1 && begun == Some(p) && ended && again == 1
  {
    var pipeline := new Pipeline();
    pipeline.AddPass(Some(p));
    pipeline.AddPass(None);
    n := pipeline.BeginFrame();
    begun := pipeline.BeginPass(0);
    ended := pipeline.EndPass(0);
    var twice := pipeline.EndPass(0);
    assert !twice;
    pipeline.EndFrame();
    again := pipeline.BeginFrame();
  }
}
