/** The font renderer: a cache from a text-box id to the text it was first created with and
    the mesh that shows it. Each request to render a text either creates the box (one
    `addMesh` on the service), refreshes it (one `updateMesh`) or does nothing. */
module FontRendering {
  import opened Common
  import opened RenderData
  import opened ServiceCalls

  /** `FontRenderer::FontTextEntry`. */
  datatype FontTextEntry = FontTextEntry(text: string, mesh: Mesh)

  /** The mesh builder the renderer relies on: `allocTextBox` builds a fresh mesh for a text at
      a screen position (the mapping of the position to world space is folded into it), and
      `updateTextBox` rewrites an existing mesh for a new text. */
  datatype TextMeshBuilder = TextMeshBuilder(allocTextBox: (u32, u32, string) -> Mesh, updateTextBox: (Mesh, string) -> Mesh)

  /** What one `AddRenderText` request does to the cache, and the service calls it makes. */
  datatype TextStep = TextStep(calls: seq<ServiceCall>, boxes: map<u32, FontTextEntry>)

  /** The decision of `AddRenderText`, on the cache it starts from. */
  function RenderTextStep(boxes: map<u32, FontTextEntry>, id: u32, x: u32, y: u32, text: string,
                          hasService: bool, builder: TextMeshBuilder): TextStep
  {
    if text == "" || !hasService then TextStep([], boxes)
    else if id !in boxes then
      var mesh := builder.allocTextBox(x, y, text);
      TextStep([CallAddMesh(mesh, 0)], boxes[id := FontTextEntry(text, mesh)])
    else
      var entry := boxes[id];
      if entry.text == text then TextStep([], boxes)
      else
        var mesh := if |text| > |entry.text| then builder.allocTextBox(x, y, text)
                    else builder.updateTextBox(entry.mesh, text);
        TextStep([CallUpdateMesh(mesh)], boxes[id := entry.(mesh := mesh)])
  }

  /** The requests that make no call: empty text or no service leave the cache as it is, and
      so does a known id whose stored text is the same. */
  lemma SilentRequests(boxes: map<u32, FontTextEntry>, id: u32, x: u32, y: u32, text: string,
                       hasService: bool, builder: TextMeshBuilder)
    ensures var r := RenderTextStep(boxes, id, x, y, text, hasService, builder);
      (text == "" || !hasService || (id in boxes && boxes[id].text == text)) <==> r.calls == []
    ensures var r := RenderTextStep(boxes, id, x, y, text, hasService, builder);
      r.calls == [] ==> r.boxes == boxes
  {
  }

  /** An unseen id: exactly one `addMesh`, of the mesh built for the text, and the id is then
      cached with that text and mesh. */
  lemma NewTextAddsOneMesh(boxes: map<u32, FontTextEntry>, id: u32, x: u32, y: u32, text: string,
                           builder: TextMeshBuilder)
    requires text != "" && id !in boxes
    ensures var r := RenderTextStep(boxes, id, x, y, text, true, builder);
      && r.calls == [CallAddMesh(builder.allocTextBox(x, y, text), 0)]
      && id in r.boxes && r.boxes[id].text == text
      && r.boxes[id].mesh == builder.allocTextBox(x, y, text)
      && r.boxes.Keys == boxes.Keys + {id}
  {
  }

  /** A known id with a different text: exactly one `updateMesh`, of a new mesh when the text
      grew and of the rewritten stored mesh otherwise; the entry keeps its mesh in the call. */
  lemma ChangedTextUpdatesOnce(boxes: map<u32, FontTextEntry>, id: u32, x: u32, y: u32, text: string,
                               builder: TextMeshBuilder)
    requires text != "" && id in boxes && boxes[id].text != text
    ensures var r := RenderTextStep(boxes, id, x, y, text, true, builder);
      && |r.calls| == 1 && r.calls[0].CallUpdateMesh?
      && r.calls[0].mesh == r.boxes[id].mesh
      && (|text| > |boxes[id].text| ==> r.boxes[id].mesh == builder.allocTextBox(x, y, text))
      && (|text| <= |boxes[id].text| ==> r.boxes[id].mesh == builder.updateTextBox(boxes[id].mesh, text))
  {
  }

  /** The cache's invariant: every request makes at most one call, adds at most the requested
      id, and never changes the text of an entry already there. */
  lemma CachedTextIsNeverChanged(boxes: map<u32, FontTextEntry>, id: u32, x: u32, y: u32, text: string,
                                 hasService: bool, builder: TextMeshBuilder)
    ensures var r := RenderTextStep(boxes, id, x, y, text, hasService, builder);
      && |r.calls| <= 1
      && boxes.Keys <= r.boxes.Keys <= boxes.Keys + {id}
      && (forall k :: k in boxes ==> r.boxes[k].text == boxes[k].text)
      && (forall k :: k in boxes && k != id ==> r.boxes[k] == boxes[k])
  {
  }

  /** Repeating a request right after itself makes no call the second time. */
  lemma RepeatedTextIsSilent(boxes: map<u32, FontTextEntry>, id: u32, x: u32, y: u32, text: string,
                             builder: TextMeshBuilder)
    requires id !in boxes
    ensures var r := RenderTextStep(boxes, id, x, y, text, true, builder);
      RenderTextStep(r.boxes, id, x, y, text, true, builder) == TextStep([], r.boxes)
  {
  }

  /** Because the stored text is never replaced, a changed text is sent again on every
      repetition: each repeat is one more `updateMesh`. */
  lemma ChangedTextRepeatsUpdate(boxes: map<u32, FontTextEntry>, id: u32, x: u32, y: u32, text: string,
                                 builder: TextMeshBuilder)
    requires text != "" && id in boxes && boxes[id].text != text
    ensures var r := RenderTextStep(boxes, id, x, y, text, true, builder);
      var r2 := RenderTextStep(r.boxes, id, x, y, text, true, builder);
      |r2.calls| == 1 && r2.calls[0].CallUpdateMesh? && r2.boxes[id].text == boxes[id].text
  {
  }

  class FontRenderer {
    /** `mTextBoxes`. */
    var textBoxes: map<u32, FontTextEntry>
    /** `mTbArray`; nothing in this class ever adds to it. */
    var tbArray: seq<FontTextEntry>

    constructor ()
      ensures textBoxes == map[] && tbArray == []
    {
      textBoxes := map[];
      tbArray := [];
    }

    /** `insertTextEntry`: a new entry with the given mesh and text under `id`. */
    method InsertTextEntry(id: u32, mesh: Mesh, text: string)
      modifies this`textBoxes
      ensures textBoxes == old(textBoxes)[id := FontTextEntry(text, mesh)]
    {
      var entry := FontTextEntry(text, mesh);
      textBoxes := textBoxes[id := entry];
    }

    /** `AddRenderText`; `hasService` says whether the service pointer is non-null, and the
        calls made on it are returned in order. */
    method AddRenderText(id: u32, x: u32, y: u32, text: string, hasService: bool, builder: TextMeshBuilder)
      returns (calls: seq<ServiceCall>)
      modifies this`textBoxes
      ensures TextStep(calls, textBoxes) == RenderTextStep(old(textBoxes), id, x, y, text, hasService, builder)
    {
      if text == "" || !hasService {
        return [];
      }
      if id !in textBoxes {
        var mesh := builder.allocTextBox(x, y, text);
        calls := [CallAddMesh(mesh, 0)];
        InsertTextEntry(id, mesh, text);
        return;
      }
      var entry := textBoxes[id];
      calls := [];
      if entry.text != text {
        if |text| > |entry.text| {
          entry := entry.(mesh := builder.allocTextBox(x, y, text));
        } else {
          entry := entry.(mesh := builder.updateTextBox(entry.mesh, text));
        }
        textBoxes := textBoxes[id := entry];
        calls := [CallUpdateMesh(entry.mesh)];
      }
    }

    /** `clear`: nothing happens on an empty cache; otherwise the cache and the entry array
        are emptied. */
    method Clear()
      modifies this
      ensures old(textBoxes) == map[] ==> textBoxes == old(textBoxes) && tbArray == old(tbArray)
      ensures old(textBoxes) != map[] ==> textBoxes == map[] && tbArray == []
    {
      if textBoxes == map[] {
        return;
      }
      textBoxes := map[];
      tbArray := [];
    }
  }
}
