/** The calls the scene-side renderers (the debug renderer and the font renderer) make on the
    render backend service, as values, recorded in the order they are made. */
module ServiceCalls {
  import opened RenderData

  datatype ServiceCall =
    | CallBeginPass(passId: string)
    | CallBeginRenderBatch(batchId: string)
    | CallSetMatrix(matrixType: MatrixType, m: Mat4)
    | CallAddMesh(mesh: Mesh, numInstances: nat)
    | CallUpdateMesh(mesh: Mesh)
    | CallEndRenderBatch
    | CallEndPass

  /** The bracket every renderer puts around its batch work. */
  function Bracketed(passId: string, batchId: string, body: seq<ServiceCall>): (calls: seq<ServiceCall>)
    ensures |calls| == |body| + 4
    ensures calls[0] == CallBeginPass(passId) && calls[1] == CallBeginRenderBatch(batchId)
    ensures calls[2..|calls| - 2] == body
    ensures calls[|calls| - 2] == CallEndRenderBatch && calls[|calls| - 1] == CallEndPass
  {
    [CallBeginPass(passId), CallBeginRenderBatch(batchId)] + body + [CallEndRenderBatch, CallEndPass]
  }
}
