# OSRE render core in Dafny

This project models the frame-submission core of the OSRE render engine and the smaller pieces around it, and it proves their properties.

**`RenderBackendService`.** It records draw work in passes and batches:
- recording goes `beginPass`, `beginRenderBatch`, then the matrix, uniform and mesh mutators, then `endRenderBatch` and `endPass`;
- passes and batches are found by id prefix;
- each batch carries dirty flags;
- `commitNextFrame` turns each batch's first dirty category into frame-submit commands on the submit frame. It then clears the flags and swaps the submit and render frames.

**Other pieces modelled:**
- the render `Pipeline`, a frame and pass bracket;
- the vertex-format sizes and clear bits of the render-common header;
- the shader-source string helpers and the include preprocessor;
- the font renderer's text-box cache;
- the debug renderer singleton, with its box edge table and line index counter;
- the engine `Settings` store with its defaults.

**How the model represents things:**
- **Passes and batches.** The service's `PassData` and `RenderBatchData` objects live in two arenas (`passHeap`, `batchHeap`). Pointers are indices into those arenas, so a batch registered in a pass and the current batch are the same object, as in the engine.
- **Command queues.** A frame's command queue is a `seq<Cmd>`.
- **Events.** Every event sent to the render task is appended to an event log.
- **Matrices, vertex buffers and uniform values.** These are byte sequences.
- **Scene renderers.** The debug renderer and the font renderer return the calls they make on the service as a list of `ServiceCall` values.

Specification functions sit beside the imperative methods:
- `RenderData.Commit` for `commitNextFrame`;
- `FontRendering.RenderTextStep` for `AddRenderText`;
- `SettingsModel.WithDefaults` for `initDefaults`;
- `ShaderModel.Split` and `ShaderModel.Preprocessed` for the shader helpers.

Each method's postcondition is stated in terms of its specification function, and lemmas prove the promised properties of those functions.

## Model

| member | source | states |
|---|---|---|
| RenderData.FirstMatch | src/Engine/RenderBackend/RenderBackendService.cpp:51-67 | the index found is the first entry the query is a prefix of (`strncmp` over the query's length); none means no entry matches |
| RenderBackend.IndexOfMatch | src/Engine/RenderBackend/RenderBackendService.cpp:51-67 | the `hasPass`/`hasBatch` index loop returns the first matching index, or -1 exactly when no entry matches |
| RenderData.PrefixLookup | src/Engine/RenderBackend/RenderBackendService.cpp:51-67 | lookups match by prefix: any prefix of an id finds that entry, the empty query finds the first one, and a longer query misses a shorter id |
| RenderBackend.RenderBackendService.GetPassById | src/Engine/RenderBackend/RenderBackendService.cpp:282-300 | a null id gives null; a current pass the id matches is returned; otherwise the first registered pass matching the id, or null |
| RenderBackend.RenderBackendService.BeginPass | src/Engine/RenderBackend/RenderBackendService.cpp:302-315 | refused (null, nothing changes) while a pass is active; otherwise reuses the first registered matching pass or creates an empty one, makes it current and sets the dirty flag |
| RenderBackend.RenderBackendService.BeginRenderBatch | src/Engine/RenderBackend/RenderBackendService.cpp:317-329 | null and no change without a current pass; otherwise reuses the first matching batch of the current pass or creates a fresh batch, and makes it current |
| RenderBackend.RenderBackendService.SetMatrix | src/Engine/RenderBackend/RenderBackendService.cpp:331-353 | no change without a current batch; otherwise only the selected matrix field is replaced and only the matrix bit is added |
| RenderData.SetMatrixFieldOnly | src/Engine/RenderBackend/RenderBackendService.cpp:331-353 | writing one matrix field stores it and leaves the other two unchanged |
| RenderBackend.RenderBackendService.SetMatrixByName | src/Engine/RenderBackend/RenderBackendService.cpp:355-369 | no change without a current batch; otherwise the uniform named so is overwritten, or a new matrix uniform is appended and written, and the uniform bit is set |
| RenderData.UpsertMatrixVarSpec | src/Engine/RenderBackend/RenderBackendService.cpp:355-369 | upsert by name: the uniform count grows by at most one, and by one exactly when the name was absent; the name is then found holding the written bytes; other slots are kept |
| RenderData.FindVar | src/Engine/RenderBackend/RenderBackendService.cpp:361 | the slot found is the first non-null one carrying the name; none means no slot carries it |
| RenderBackend.RenderBackendService.SetUniform | src/Engine/RenderBackend/RenderBackendService.cpp:371-381 | a null variable or no current batch changes nothing; otherwise the variable is appended (even under a name already present) and the uniform bit is set |
| RenderBackend.RenderBackendService.SetMatrixArray | src/Engine/RenderBackend/RenderBackendService.cpp:383-397 | no change without a current batch; otherwise the named uniform is upserted with the concatenated matrices and the uniform bit is set |
| RenderBackend.MatrixArrayBytes | src/Engine/RenderBackend/RenderBackendService.cpp:395 | the copied matrix array is 64 bytes per matrix |
| RenderBackend.RenderBackendService.AddMesh | src/Engine/RenderBackend/RenderBackendService.cpp:399-415 | a null mesh or no current batch changes nothing; otherwise exactly one new mesh entry holding the one mesh is appended and the mesh bit is set |
| RenderBackend.RenderBackendService.AddMeshes | src/Engine/RenderBackend/RenderBackendService.cpp:417-428 | no change without a current batch; otherwise exactly one new entry holding all the meshes is appended and the mesh bit is set |
| RenderBackend.RenderBackendService.UpdateMesh | src/Engine/RenderBackend/RenderBackendService.cpp:430-437 | no change without a current batch; otherwise the mesh is queued for update and the update bit is set |
| RenderBackend.RenderBackendService.EndRenderBatch | src/Engine/RenderBackend/RenderBackendService.cpp:439-455 | false without a current batch; otherwise creates "defaultPass" if no pass is current, registers the batch unless a matching one is registered, and clears the current batch |
| RenderBackend.RenderBackendService.EndPass | src/Engine/RenderBackend/RenderBackendService.cpp:457-468 | false without a current pass; otherwise registers the pass unless a matching one is registered, and clears the current pass |
| RenderBackend.RegisterSpec | src/Engine/RenderBackend/RenderBackendService.cpp:445-452 | registration keeps the old list as a prefix, grows it by one exactly when no entry matched, always leaves the entry findable, and is idempotent |
| RenderBackend.RenderBackendService.ClearPasses | src/Engine/RenderBackend/RenderBackendService.cpp:470-478 | no current pass, no registered pass, and the frame is marked as not created |
| RenderData.ServedCategoryOrder | src/Engine/RenderBackend/RenderBackendService.cpp:202-262 | the served category is the first set bit in the order matrix, uniform, mesh update, mesh; none exactly when no bit is set |
| RenderData.BatchCommandsServeOneCategory | src/Engine/RenderBackend/RenderBackendService.cpp:202-262 | every command for a batch names its pass and batch and carries the kind of the served category; a clean batch yields none |
| RenderData.BatchCommandCount | src/Engine/RenderBackend/RenderBackendService.cpp:202-262 | command count: one for matrices, one per uniform slot (null slots included), one per mesh update, one per mesh of the dirty entries |
| RenderData.MeshCmdsTarget | src/Engine/RenderBackend/RenderBackendService.cpp:247-264 | mesh commands target their pass and batch, are of the add-meshes kind and carry a mesh id, one per mesh of the dirty entries |
| RenderData.MatrixCommandCarriesBuffer | src/Engine/RenderBackend/RenderBackendService.cpp:202-210 | a matrix submission is a single command whose payload decodes to the whole matrix buffer |
| RenderData.MatrixPayloadRoundTrip | src/Engine/RenderBackend/RenderBackendService.cpp:208-209 | the serialized matrix buffer decodes back to the buffer |
| RenderData.UniformPayloadRoundTrip | src/Engine/RenderBackend/RenderBackendService.cpp:226-233 | a uniform payload is the length byte, the name bytes and the value bytes; names up to 255 bytes decode back |
| RenderData.LongUniformNameSaturates | src/Engine/RenderBackend/RenderBackendService.cpp:229 | a name over 255 bytes gets the length byte 255 and no longer decodes to itself |
| RenderBackend.BatchCommandsOf | src/Engine/RenderBackend/RenderBackendService.cpp:202-262 | the if/else-if chain and its loops emit exactly the batch's specified commands |
| RenderBackend.RenderBackendService.SubmitPass | src/Engine/RenderBackend/RenderBackendService.cpp:200-270 | the inner loop over a pass's batches emits the specified commands and leaves the specified batch heap |
| RenderBackend.RenderBackendService.SubmitPasses | src/Engine/RenderBackend/RenderBackendService.cpp:198-271 | the outer loop over the registered passes emits the commands of the whole walk and leaves its batch heap |
| RenderBackend.RenderBackendService.CommitNextFrame | src/Engine/RenderBackend/RenderBackendService.cpp:191-274 | nothing without a render task; otherwise the walk's commands are appended to the submit frame, the batches are updated, the frames swap roles and the filled frame is announced |
| RenderData.CommitClearsVisited | src/Engine/RenderBackend/RenderBackendService.cpp:198-271 | after a commit every visited batch is clean with its other contents unchanged, and no other batch changes |
| RenderData.CommitTwiceIsSilent | src/Engine/RenderBackend/RenderBackendService.cpp:198-271 | a second commit over the same walk emits nothing and changes nothing |
| RenderData.CommitOverClean | src/Engine/RenderBackend/RenderBackendService.cpp:198-271 | a walk over clean batches emits nothing |
| RenderData.CommitAppend | src/Engine/RenderBackend/RenderBackendService.cpp:198-271 | the walk is compositional: submitting `a + b` is submitting `a`, then `b` on what `a` left |
| RenderData.CommitOne | src/Engine/RenderBackend/RenderBackendService.cpp:200-270 | visiting one batch emits that batch's commands and clears its flags |
| RenderBackend.RenderBackendService.OnUpdate | src/Engine/RenderBackend/RenderBackendService.cpp:146-163 | false without a render task; otherwise the passes are initialised the first time only, the frame is committed, and a render event is sent |
| RenderBackend.RenderBackendService.InitPasses | src/Engine/RenderBackend/RenderBackendService.cpp:179-189 | with a render task, one init event for the submit frame carrying the registered pass ids |
| RenderBackend.RenderBackendService.SendEvent | src/Engine/RenderBackend/RenderBackendService.cpp:276-280 | an event is logged only when the render task exists |
| RenderBackend.RenderBackendService.Resize | src/Engine/RenderBackend/RenderBackendService.cpp:483-493 | a resize event is logged when the behaviour asks for viewport resizing, and nothing otherwise |
| RenderBackend.RenderBackendService.SetSettings | src/Engine/RenderBackend/RenderBackendService.cpp:165-173 | the service then uses the given settings with the given ownership |
| RenderBackend.RenderBackendService.Open | src/Engine/RenderBackend/RenderBackendService.cpp:92-128 | default settings are created if none were set; a task that does not start gives false; the handler follows the configured API, and the result is true exactly for a known API with a debug renderer newly created |
| RenderBackend.SelectBackendInverse | src/Engine/RenderBackend/RenderBackendService.cpp:111-119 | "opengl" and "vulkan" select the OpenGL and Vulkan handlers, and every other name selects none |
| RenderBackend.DefaultBackendIsOpenGL | src/Engine/Properties/Settings.cpp:196 | with default settings the OpenGL handler is selected |
| RenderBackend.RenderBackendService.constructor | src/Engine/RenderBackend/RenderBackendService.cpp:69-83 | a new service has no task, no settings, no passes or batches, two empty frames, and submits into the second |
| Scenarios.TwoMeshesInOneBatch | test/RenderTests/src/SceneNodeRenderTest.cpp:65-71 | two `addMesh` calls in one batch give two mesh entries in call order |
| Scenarios.TwoMeshesCommitted | src/Engine/RenderBackend/RenderBackendService.cpp:246-262 | committing a batch given two meshes sends exactly two add-meshes commands, in call order, carrying the two mesh ids and vertex data |
| Scenarios.RecordingOutsideBatch | test/RenderTests/src/SwitchCmdBufferRenderTest.cpp:119 | a named matrix, a mesh or a mesh update outside a batch changes no batch |
| Scenarios.PrefixReopensPass | src/Engine/RenderBackend/RenderBackendService.cpp:282-315 | once "defaultPass" is registered, `beginPass("default")` reopens it |
| Scenarios.BatchWithoutPass | src/Engine/RenderBackend/RenderBackendService.cpp:439-455 | a batch ended with no pass lands in a new pass "defaultPass" |
| Scenarios.MatrixAndMeshInOneBatch | src/Engine/RenderBackend/RenderBackendService.cpp:202-271 | a batch given a matrix and a mesh sends only the matrix command, and the next commit sends nothing |
| PipelineModel.GetPassNameById | src/Engine/RenderBackend/Pipeline.cpp:111-117 | a name exactly for the ids below `MaxDbgPasses` |
| PipelineModel.PassNames | src/Engine/RenderBackend/Pipeline.cpp:30-34 | ids 0, 1 and 2 name "RenderPass", "UiPass" and "DbgPass", all different |
| PipelineModel.PassEqualsMeaning | src/Engine/RenderBackend/Pipeline.cpp:119-125 | `==` compares the id and the six states and ignores target and shader; `!=` is its negation |
| PipelineModel.PassEqualsEquivalence | src/Engine/RenderBackend/Pipeline.cpp:119-121 | `==` is reflexive, symmetric and transitive |
| PipelineModel.Pipeline.constructor | src/Engine/RenderBackend/Pipeline.cpp:127-132 | no passes, outside any frame, current pass -1 |
| PipelineModel.Pipeline.AddPass | src/Engine/RenderBackend/Pipeline.cpp:138-144 | a null pass is ignored; any other is appended |
| PipelineModel.Pipeline.GetNumPasses | src/Engine/RenderBackend/Pipeline.cpp:146-148 | the number of passes |
| PipelineModel.Pipeline.BeginFrame | src/Engine/RenderBackend/Pipeline.cpp:150-162 | 0 and no change inside a frame or with no passes; otherwise enters the frame and returns the pass count |
| PipelineModel.Pipeline.BeginPass | src/Engine/RenderBackend/Pipeline.cpp:164-176 | null and no change outside a frame; inside one records the id and returns that pass |
| PipelineModel.Pipeline.EndPass | src/Engine/RenderBackend/Pipeline.cpp:178-186 | succeeds exactly for the current id inside a frame and then resets it to -1; otherwise nothing changes |
| PipelineModel.Pipeline.EndFrame | src/Engine/RenderBackend/Pipeline.cpp:188-190 | leaves the frame and keeps the current pass id |
| PipelineModel.Pipeline.Clear | src/Engine/RenderBackend/Pipeline.cpp:192-196 | no passes, not in a frame, current pass -1 |
| PipelineModel.OneFrame | src/Engine/RenderBackend/Pipeline.cpp:150-190 | a one-pass frame opens with one pass, brackets it, and can be opened again after it ends |
| RenderCommon.GetVertexFormatSize | include/osre/RenderBackend/RenderCommon.h:158-192 | every size is a multiple of 4 up to 16, and 0 exactly for the two sentinels |
| RenderCommon.FloatFormatSizes | include/osre/RenderBackend/RenderCommon.h:162-173 | the float formats take 4, 8, 12 and 16 bytes, four per component |
| RenderCommon.PackedFormatSizes | include/osre/RenderBackend/RenderCommon.h:174-185 | `Byte4`, `UByte4` and `Short2` take 4 bytes and `Short4` takes 8 |
| RenderCommon.RealFormatSizeBounds | include/osre/RenderBackend/RenderCommon.h:158-192 | every real format takes between 4 and 16 bytes, a multiple of 4 |
| RenderCommon.ClearBitsDistinct | include/osre/RenderBackend/RenderCommon.h:108-112 | the clear bits are 1, 2 and 4: single bits, pairwise disjoint |
| RenderCommon.DefaultVertComponent | include/osre/RenderBackend/RenderCommon.h:198-203 | a default component has the invalid attribute and the invalid format |
| RenderCommon.DefaultComponentHasNoSize | include/osre/RenderBackend/RenderCommon.h:186-203 | a default component occupies no bytes |
| ShaderModel.FindFrom | src/Engine/RenderBackend/Shader.cpp:41 | `find`: a position it returns lies at or after the start and the delimiter occurs there |
| ShaderModel.FindFromSpec | src/Engine/RenderBackend/Shader.cpp:41 | the position `find` returns is the first occurrence at or after the start; when it finds none, the delimiter occurs nowhere at or after the start |
| ShaderModel.SplitString | src/Engine/RenderBackend/Shader.cpp:35-50 | the loop computes the as-written split, and for a one-character delimiter the intended split |
| ShaderModel.SplitAsWritten | src/Engine/RenderBackend/Shader.cpp:35-50 | the split as written always has at least one part |
| ShaderModel.SplitOneCharAgrees | src/Engine/RenderBackend/Shader.cpp:41-47 | for a one-character delimiter, the split as written and the intended split agree |
| ShaderModel.SplitLongDelimiterCounterexample | src/Engine/RenderBackend/Shader.cpp:41-43 | "a::b" split on "::" gives "a", ":b" as written against the intended "a", "b" |
| ShaderModel.SplitJoin | src/Engine/RenderBackend/Shader.cpp:35-50 | joining the intended split with the delimiter gives back the input, and no part contains the delimiter |
| ShaderModel.SplitCount | src/Engine/RenderBackend/Shader.cpp:35-50 | with a one-character delimiter there is one part more than there are delimiters |
| ShaderModel.SplitOneChar | src/Engine/RenderBackend/Shader.cpp:35-50 | for a one-character delimiter: at least one part, delimiter-free parts, join round trip, occurrence count plus one |
| ShaderModel.GetIncludeFileSpec | src/Engine/RenderBackend/Shader.cpp:54-68 | "" for an empty line or one without a space; otherwise everything after the first space |
| ShaderModel.IncludeFileRoundTrip | src/Engine/RenderBackend/Shader.cpp:54-68 | a space-free directive, a space and a file name give back the file name |
| ShaderModel.ConcatLines | src/Engine/RenderBackend/Shader.cpp:80-85 | the lines of a text, run together, are the text without newlines |
| ShaderModel.JoinSrc | src/Engine/RenderBackend/Shader.cpp:80-85 | the source grows by the included text with every newline removed, and its prefix is kept |
| ShaderModel.ShaderPreprocessor.constructor | src/Engine/RenderBackend/Shader.cpp:88-91 | a new preprocessor holds an empty source |
| ShaderModel.ShaderPreprocessor.Preprocess | src/Engine/RenderBackend/Shader.cpp:97-133 | the source is cleared; false for an invalid or unopenable file; otherwise each line is appended without its newline, and include lines are replaced by the resolved text or dropped |
| ShaderModel.NoIncludesStripsNewlines | src/Engine/RenderBackend/Shader.cpp:110-118 | a text with no include line preprocesses to itself without newlines |
| ShaderModel.IncludeLineOutput | src/Engine/RenderBackend/Shader.cpp:114-129 | an include line contributes the resolved file without newlines, or nothing when the file does not resolve |
| ShaderModel.SetStageSourceSpec | src/Engine/RenderBackend/Shader.cpp:154-159 | a new text is stored and marks its stage updated; the same text changes nothing; other stages are untouched; the call is idempotent |
| ShaderModel.Shader.SetSource | src/Engine/RenderBackend/Shader.cpp:154-159 | the stages after the call are those of the store function |
| ShaderModel.Shader.constructor | src/Engine/RenderBackend/Shader.cpp:143-148 | empty sources, every stage in the zeroed state `Updated` |
| FontRendering.FontRenderer.InsertTextEntry | src/Engine/UI/FontRenderer.cpp:55-60 | the id now maps to the given text and mesh |
| FontRendering.FontRenderer.AddRenderText | src/Engine/UI/FontRenderer.cpp:73-106 | the calls made and the new cache are those of `RenderTextStep` |
| FontRendering.SilentRequests | src/Engine/UI/FontRenderer.cpp:74-76 | no call exactly for empty text, no service, or a known id with the same text; then the cache is unchanged |
| FontRendering.NewTextAddsOneMesh | src/Engine/UI/FontRenderer.cpp:81-87 | an unseen id makes exactly one `addMesh` of the built mesh and caches the id with its text |
| FontRendering.ChangedTextUpdatesOnce | src/Engine/UI/FontRenderer.cpp:89-105 | a known id with other text makes exactly one `updateMesh`; the mesh is rebuilt only when the text grew, else it is rewritten in place |
| FontRendering.CachedTextIsNeverChanged | src/Engine/UI/FontRenderer.cpp:55-105 | at most one call per request, at most the requested id added, and no cached text ever changes |
| FontRendering.RepeatedTextIsSilent | src/Engine/UI/FontRenderer.cpp:78-97 | a request repeated right after creating a box makes no call |
| FontRendering.ChangedTextRepeatsUpdate | src/Engine/UI/FontRenderer.cpp:97-105 | since the stored text is never replaced, every repeat of a changed text makes another `updateMesh` |
| FontRendering.FontRenderer.Clear | src/Engine/UI/FontRenderer.cpp:108-122 | nothing happens on an empty cache; otherwise the cache and the entry array are emptied |
| DbgRendering.DbgRendererRegistry.constructor | src/Engine/Scene/DbgRenderer.cpp:41 | the registry starts with no instance |
| DbgRendering.DbgRendererRegistry.Create | src/Engine/Scene/DbgRenderer.cpp:55-62 | succeeds exactly when there is no instance; a second call keeps the first |
| DbgRendering.DbgRendererRegistry.Destroy | src/Engine/Scene/DbgRenderer.cpp:64-71 | succeeds exactly when there is an instance; afterwards there is none |
| DbgRendering.DbgRendererRegistry.GetInstance | src/Engine/Scene/DbgRenderer.cpp:73-75 | the current instance |
| DbgRendering.SingletonLifeCycle | src/Engine/Scene/DbgRenderer.cpp:55-75 | create, a refused second create that keeps the instance, destroy, a refused second destroy, and no instance at the end |
| DbgRendering.DbgRenderer.RenderDbgText | src/Engine/Scene/DbgRenderer.cpp:77-94 | nothing for empty text; otherwise, inside the debug pass and batch, the font request with the arguments in the order the engine passes them, so the text is cached under `x` and its box placed at (y, id) (see Findings) |
| DbgRendering.DbgRenderer.Clear | src/Engine/Scene/DbgRenderer.cpp:182-183 | nothing changes: the calls, the font renderer, the debug mesh and the counter are as before |
| DbgRendering.DbgTextKeyedByX | src/Engine/Scene/DbgRenderer.cpp:89 | with the arguments passed as written, a first text drawn at x = 10, y = 20 with id 1 is cached under 10 and not under 1, and its box is built at (20, 1) |
| DbgRendering.DbgTextAsWrittenKeyedByX | src/Engine/Scene/DbgRenderer.cpp:89 | as written, a text drawn at an uncached `x` is cached under `x` with its box at (y, id), and the same text drawn again at that `x` makes no call whatever its y and id |
| DbgRendering.DbgTextKeyedById | src/Engine/UI/FontRenderer.cpp:73-88 | with the intended order, a new text is cached under its id with its box at (x, y), and drawing the same text with that id again makes no call |
| DbgRendering.EdgeTableBounds | src/Engine/Scene/DbgRenderer.cpp:96-111 | the edge table has 24 indices, all below 8 |
| DbgRendering.BottomEdges | src/Engine/Scene/DbgRenderer.cpp:98-101 | edges 0 to 3 of the table run round the square of corners 0, 1, 2, 3 |
| DbgRendering.TopEdges | src/Engine/Scene/DbgRenderer.cpp:102-105 | edges 4 to 7 run round the square of corners 4, 5, 6, 7 |
| DbgRendering.SideEdges | src/Engine/Scene/DbgRenderer.cpp:106-109 | edges 8 to 11 join each corner i of the first square to corner i + 4 |
| DbgRendering.EdgeTableDegree | src/Engine/Scene/DbgRenderer.cpp:98-111 | each corner is on exactly three edges |
| DbgRendering.EdgeTableAxes | src/Engine/Scene/DbgRenderer.cpp:98-153 | every edge joins corners that differ along exactly one axis |
| DbgRendering.EdgeTableNoRepeat | src/Engine/Scene/DbgRenderer.cpp:98-111 | no edge appears twice in either direction |
| DbgRendering.BoxCorners | src/Engine/Scene/DbgRenderer.cpp:122-153 | the box has eight corner positions |
| DbgRendering.CornerSelection | src/Engine/Scene/DbgRenderer.cpp:122-153 | corner i takes x from the maximum iff i is 1, 2, 5 or 6, y iff i is 2, 3, 6 or 7, and z iff i is 4 or more |
| DbgRendering.CornersAreDistinctChoices | src/Engine/Scene/DbgRenderer.cpp:122-153 | distinct corners make distinct choices of bounds |
| DbgRendering.AabbCallsShape | src/Engine/Scene/DbgRenderer.cpp:172-179 | the calls are, in order, beginPass(DbgPass), beginRenderBatch("dbgFontBatch"), setMatrix(Model), addMesh, endRenderBatch, endPass |
| DbgRendering.DbgRenderer.RenderAABB | src/Engine/Scene/DbgRenderer.cpp:113-180 | the box mesh holds the corners and the edge table, and the logged calls are those of the box |
| DbgRendering.DbgRenderer.AddLine | src/Engine/Scene/DbgRenderer.cpp:185-207 | the line's indices are the old counter `k` and `k + 1`, the counter advances by two, and the primitive group is set to 24 indices |
| DbgRendering.LineIndicesCount | src/Engine/Scene/DbgRenderer.cpp:185-207 | a run of lines from index 0 yields two vertices per line and the indices 0, 1, 2, ... in order |
| DbgRendering.DbgRenderer.constructor | src/Engine/Scene/DbgRenderer.cpp:43-49 | no calls, no font renderer, no debug mesh, counter 0 |
| ServiceCalls.Bracketed | src/Engine/Scene/DbgRenderer.cpp:85-93 | the pass and batch bracket around a body of calls |
| SettingsModel.Settings.constructor | src/Engine/Properties/Settings.cpp:61-64 | a new store holds exactly the defaults |
| SettingsModel.Settings.SetString | src/Engine/Properties/Settings.cpp:77-87 | false and no change for an empty value or a key outside [0, MaxKonfigKey); otherwise the value is stored under the key |
| SettingsModel.Settings.SetInt | src/Engine/Properties/Settings.cpp:94-104 | false and no change for a key at or above MaxKonfigKey (negative keys pass); otherwise the value is stored |
| SettingsModel.Settings.SetBool | src/Engine/Properties/Settings.cpp:111-121 | the same key check as `setInt`; otherwise the value is stored |
| SettingsModel.Settings.Get | src/Engine/Properties/Settings.cpp:144-151 | the stored value, or the empty variant for an absent key |
| SettingsModel.Settings.GetString | src/Engine/Properties/Settings.cpp:89-92 | the string stored under the key, or "" when the key holds a non-string value or nothing |
| SettingsModel.SetStringThenGetString | src/Engine/Properties/Settings.cpp:77-92 | a string stored by `setString` is read back by `getString`, and the strings under other keys are unchanged |
| SettingsModel.SetThenGet | src/Engine/Properties/Settings.cpp:82-86 | a stored value is read back, and no other key's value changes |
| SettingsModel.Settings.GetKeyAsString | src/Engine/Properties/Settings.cpp:153-155 | entry k of the key name table |
| SettingsModel.KeyNameTable | src/Engine/Properties/Settings.cpp:36-59 | 22 names, all different, with entry k naming key k (RenderAPI is "RenderAPI") |
| SettingsModel.Settings.Clear | src/Engine/Properties/Settings.cpp:157-161 | the map is empty |
| SettingsModel.Settings.InitDefaults | src/Engine/Properties/Settings.cpp:176-228 | the map is the old one with the default writes applied in order |
| SettingsModel.DefaultWindowValues | src/Engine/Properties/Settings.cpp:192-210 | after `initDefaults` RenderAPI reads "opengl", the window sits at 0, 0 with size 1024 by 768, and it is resizable and not a child window |
| SettingsModel.DefaultRenderValues | src/Engine/Properties/Settings.cpp:211-227 | after `initDefaults` FSAA reads 2, BPP 32, depth and stencil 24, polling off, font "buildin_arial.bmp" and render mode 1 |
| SettingsModel.DefaultVersionEntries | src/Engine/Properties/Settings.cpp:184-190 | AppVersionMajor ends up holding 1 under the name "AppVersionMinor", and AppVersionMinor is never written |
| Common.ToU32 | src/Engine/Properties/Settings.cpp:84 | the conversion to `ui32` is modular |
| Common.ToU16 | src/Engine/Scene/DbgRenderer.cpp:195-198 | the conversion to `ui16` is modular |

## Left out

- Threads and event plumbing are not modelled: `SystemTask` creation, start and stop, `attachEventHandler`, `awaitUpdate` and `onClose`. Each `sendEvent` is only an append to the event log, and whether the render task started is a parameter of `Open`.
- The matrices, vertex buffers and uniform values are bytes, and `memcpy` is a byte-sequence overwrite. The size the engine reserves for a uniform payload (`getSize()`) comes from code not shown, so the model makes no claim that the payload fits.
- The model does not include `UniformBuffer::writeVar`, `Frame::init`, `Frame::enqueue` and `PassData::getBatchById`. Enqueueing is an append; `getBatchById` is assumed to use the same prefix rule as `hasBatch`, and `getVarByName` to return the first non-null slot with an equal name.
- The `MeshEntry` constructor is not shown, so a new entry is assumed dirty. The contents of a new batch's matrix buffer are not shown either; they are a parameter of the service.
- RenderBackend.RenderBackendService.CommitNextFrame: when both a matrix and a mesh are set on one batch, only the matrix is sent and all flags are cleared. Whether `Frame::init` later sends the mesh by another route is not part of this model, so this is not reported as a defect.
- RenderBackend.RenderBackendService.BeginPass: a null id is not modelled; ids are strings.
- RenderBackend.RenderBackendService.Resize: the source sends the resize event without checking the render task, so the model requires a task whenever one is sent.
- RenderBackend.RenderBackendService.AddMeshes: the source takes the array's first element by address, so the model requires a non-empty array when a batch is current.
- RenderBackend.RenderBackendService.AddMeshes: the meshes go into the entry as values captured at the call. The source keeps pointers and reads each vertex buffer when `commitNextFrame` runs. So a write made through the caller's pointer between the call and the commit is not modelled, and a later mesh commit resends the captured bytes, not the current ones.
- RenderBackend.RenderBackendService.AddMesh: the mesh goes into the entry as a value captured at the call. The source keeps the pointer and reads `m_vb` when `commitNextFrame` runs (RenderBackendService.cpp:256-259). So a write made through the caller's pointer between the call and the commit is not modelled, and a later mesh commit resends the captured bytes, not the current ones.
- RenderBackend.RenderBackendService.UpdateMesh: the queued mesh is a value captured at the call. The source queues the pointer and reads its vertex buffer at commit (RenderBackendService.cpp:241-244), so writes made through the caller's pointer before the commit are not modelled. A null mesh is not modelled either: the source accepts one here and dereferences it at commit.
- RenderBackend.RenderBackendService.SetMatrixByName: when a uniform of that name already exists and its value buffer is shorter than 64 bytes, the source's `memcpy` (RenderBackendService.cpp:368) writes past the end of the buffer. The model instead lets the buffer grow to the 64 written bytes (`RenderData.Overwrite`), so this overflow is not modelled.
- RenderBackend.RenderBackendService.SetMatrixArray: when a uniform of that name already exists and its value buffer is shorter than `numMat` times 64 bytes (for example one made by `setMatrix(name, m)` and then `setMatrixArray(name, 3, arr)`), the source's `memcpy` (RenderBackendService.cpp:395) writes past the end of the buffer. The model instead lets the buffer grow to the written bytes (`RenderData.Overwrite`), so this overflow is not modelled.
- RenderBackend.RenderBackendService.SetUniform: the variable is stored as a value captured at the call. The source stores the pointer and copies `m_data` at commit (RenderBackendService.cpp:226-233), so writes made through the caller's pointer before the commit are not modelled.
- The OpenGL back end, the scene and material builders, the UI widgets, the Win32 display code and the I/O streams are not part of this model.
- ShaderModel.ShaderPreprocessor.Preprocess: opening and reading files through `IOService`, and `load_source`, are the `main` argument and the `resolve` function. `load_source` stopping at a NUL byte is not modelled. The include marker is the string "osre_include".
- ShaderModel.SplitString: an empty delimiter makes the final `substr` throw, so the model requires a non-empty delimiter.
- Floating point is not modelled. This covers:
  - the text-box placement (`mapPosToWorld`), which is folded into the mesh builder the font renderer is given;
  - the AABB coordinates, of which only the min/max selection is kept;
  - `setFloat`, `getFloat` and the `ClearColor` default, which is only recorded as an opaque value.
- FontRendering.FontRenderer.AddRenderText: meshes are values, so the in-place rewrite of a shared mesh is modelled as storing the rewritten mesh in the entry.
- FontRendering.FontRenderer.Clear: the loop that deletes the meshes of `mTbArray` is modelled only as emptying the array, which nothing in the class fills.
- DbgRendering.DbgRenderer.AddLine: the vertex buffer `attach` is modelled as appending the two vertices, and the index buffer `attach` as appending the two indices.
- SettingsModel.Settings.SetInt: the value must fit in `i64`, the parameter's type.
- Constants and library types that are declared in headers not part of this model are assumed as follows:
  - `MaxDbgPasses` is 3 and `DbgPassId` is 2;
  - `MaxKonfigKey` is 22, and the `ConfigKey` enumerators are numbered 0 to 21 in the order of `ConfigKeyStringTable`;
  - `GfxApp` is 0;
  - `CPPCore::Variant::getString` on a variant that holds no string gives the empty string;
  - `BasePropertyMap::setProperty` on a key that is already present replaces both the stored name and the value.
  - `MatrixBuffer` (the batch's `m_matrixBuffer`) is three `glm::mat4` laid out as model, view, projection, 192 bytes in all with no padding. `SerializeMatrices`, `MatrixPayloadRoundTrip` and `MatrixCommandCarriesBuffer` rest on this layout. The `TransformMatrixBlock` of RenderCommon.h:356-360 orders its matrices projection, model, view, but it is a different type;
  - `UniformVar::create(name, PT_Mat4)` gives a variable with one item and a zeroed value buffer of 64 bytes per item (`CreateUniform`);
  - the six pass states (`PolygonState`, `CullState`, `BlendState`, `SamplerState`, `ClearState`, `StencilState`) compare by value, and each `operator==` is an equivalence (reflexive, symmetric, transitive). The model makes each state an integer compared with `==`; `PipelineModel.PassEqualsEquivalence` rests on this;
  - `MatrixType` has only the enumerators Model, View and Projection. The `default: break` of `setMatrix` (RenderBackendService.cpp:350) would leave every state unchanged, dirty bits included, for any other enumerator, and the model has none.
- SettingsModel.DefaultVersionEntries: the clause naming "AppVersionMinor" as the name stored under `AppVersionMajor` depends on the `setProperty` assumption above. If `setProperty` kept an existing property's name, it would be "AppVersionMajor".

## Findings

| source | as written | input that shows it | evidently intended | confidence | as-written member | corrected member |
|---|---|---|---|---|---|---|
| src/Engine/RenderBackend/Shader.cpp:43 | after a delimiter found at `pos`, `split_string` resumes at `pos + 1` | "a::b" split on "::" gives "a", ":b" | resume after the whole delimiter, giving "a", "b" | high (proved, not executed) | ShaderModel.SplitLongDelimiterCounterexample | ShaderModel.SplitJoin |
| src/Engine/Scene/DbgRenderer.cpp:89 | `renderDbgText(x, y, id, text)` calls `AddRenderText(x, y, id, …)`, whose parameters are `(id, x, y, …)` | x = 10, y = 20, id = 1: the text is cached under 10 and its box is built at (20, 1) | pass `(id, x, y)`, so the cache key is the id and the box sits at (x, y) | medium (proved, not executed) | DbgRendering.DbgTextKeyedByX | DbgRendering.DbgTextKeyedById |

`DbgRendering.DbgRenderer.RenderDbgText` makes the request as the engine does (`DbgRendering.DbgTextStepAsWritten`). The intended request is `DbgRendering.DbgTextStep`; nothing else in the model calls `renderDbgText`, so no other contract depends on the order.

The rest of the model uses the intended split, `ShaderModel.Split`. The engine only ever splits on "\n", and for a one-character delimiter the two agree (`ShaderModel.SplitOneCharAgrees`). So the preprocessor's contracts, stated with `Split`, hold for the code as written.
