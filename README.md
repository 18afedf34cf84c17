# NoitaMap: pixel-scene atlas bookkeeping and chunk-path partitioning

NoitaMap is a viewer for the worlds of the game Noita. This project models
two sequential rules of its loader and proves properties about them.

- **Pixel-scene atlas buffer** (`pixel_scene_atlas.dfy`, module
  `PixelSceneAtlas`). World loading hands pixel scenes to
  `AddPixelScene`. It admits a scene only when:
  - the scene has an atlas texture path;
  - the data root is known;
  - the path starts with `data/`;
  - the resolved file exists.

  It then appends the scene to a FIFO queue. Once per frame, `Update`
  drains the queue and runs `ProcessPixelScene` on each scene in order.
  `ProcessPixelScene` places the image in an atlas, appends the scene to
  `PixelScenes`, writes one instance record at the slot the packer
  returned, and bumps that atlas's instance counter. One batched
  instance-buffer upload follows, and only if something was drained.

  The class `PixelSceneAtlasBuffer` holds this state as fields. The
  functions `Admit`, `Process`, `Place` and `Drain` describe the same steps
  on values, and the class's methods are proved against them.
- **Chunk-path partitioning** (`chunk_partition.dfy`, module
  `ChunkPartition`). Before the parallel chunk loaders start,
  `ViewerDisplay.Start` cuts the n world chunk paths into consecutive
  slices of at most k = ceil(n / (P - 2)) paths each, where P is the
  processor count. There are ceil(n / k) slices, filled by a running
  cursor. `PartitionChunkPaths` is that nested loop. `Partition` is a
  recursive reference definition, and the lemmas relate the two.

The collaborators are parameters, gathered in the datatype `Host`:
- `File.Exists`, `Path.Combine`, image decoding and `string.GetHashCode`;
- the atlas packer behind `AddTextureToAtlas`, modelled as a function from
  the requests made so far and the new request to a `ResourcePosition`.

`wrappers.dfy` holds the `Option`, `Result` and `Outcome` types. They model
nullable references and calls that throw.

## Model

| member | source | states |
|---|---|---|
| PixelSceneAtlas.Admit | NoitaMap/Graphics/Atlases/PixelSceneAtlasBuffer.cs:23-48 | A null atlas path is rejected. A null data root is rejected. A path without the `data/` prefix is rejected, because its resolved path stays null and the existence test fails. A scene is admitted if and only if all three guards pass and the file at data root + path minus its first 5 characters exists; that combined path is the admitted path. |
| PixelSceneAtlas.PixelSceneAtlasBuffer.AddPixelScene | NoitaMap/Graphics/Atlases/PixelSceneAtlasBuffer.cs:23-48 | The queue becomes the old queue with the scene at the back exactly when `Admit` admits it, and stays unchanged otherwise. Only the queue may change. The queue invariant (every queued scene is processable) is kept. |
| PixelSceneAtlas.PixelSceneAtlasBuffer.TryDequeue | NoitaMap/Graphics/Atlases/PixelSceneAtlasBuffer.cs:54 | On an empty queue it returns null and changes nothing. Otherwise it returns the front scene and leaves the rest of the queue. |
| PixelSceneAtlas.Process | NoitaMap/Graphics/Atlases/PixelSceneAtlasBuffer.cs:67-97 | A null atlas path fails with the explicit exception at line 71. Processing succeeds exactly for scenes with a `data/` path and a known data root. On success the new bookkeeping is `Place` with the image path data root + path minus `data/`. |
| PixelSceneAtlas.PlaceEffect | NoitaMap/Graphics/Atlases/PixelSceneAtlasBuffer.cs:85-96 | One placement does the following. The scene is appended to `PixelScenes`. The packer receives one request: the image's width, height and path hash. The returned instance slot is added; its record carries the scale-then-translate transform of the image size and scene position, with texture position UV and texture size UVSize. Every other slot keeps its record. The counter of the returned atlas grows by exactly one, and every other counter is unchanged. |
| PixelSceneAtlas.PixelSceneAtlasBuffer.ProcessPixelScene | NoitaMap/Graphics/Atlases/PixelSceneAtlasBuffer.cs:67-97 | The method's new bookkeeping is exactly what `Process` says. On each error it returns that error and changes nothing. |
| PixelSceneAtlas.AdmittedScenesProcess | NoitaMap/Graphics/Atlases/PixelSceneAtlasBuffer.cs:35-40 | Every scene that `AddPixelScene` admits is processed without an exception. The path it resolves equals the one `ProcessPixelScene` loads (lines 76-79). |
| PixelSceneAtlas.Drain | NoitaMap/Graphics/Atlases/PixelSceneAtlasBuffer.cs:54-59 | Draining a queue appends exactly the drained scenes to `PixelScenes`, in queue order. The packer receives exactly one request per scene, in queue order. |
| PixelSceneAtlas.DrainAppend | NoitaMap/Graphics/Atlases/PixelSceneAtlasBuffer.cs:54-59 | Draining s ++ t equals draining s and then t. Processing is sequential with no cross-scene effect beyond the bookkeeping. |
| PixelSceneAtlas.DrainSnoc | NoitaMap/Graphics/Atlases/PixelSceneAtlasBuffer.cs:54-59 | One more scene at the back of a drain is one more placement at the end. |
| PixelSceneAtlas.DrainCounters | NoitaMap/Graphics/Atlases/PixelSceneAtlasBuffer.cs:96 | There is one placement per drained scene. After a drain, each atlas's counter equals its old value plus the number of drained scenes the packer put on that atlas. |
| PixelSceneAtlas.DrainSlots | NoitaMap/Graphics/Atlases/PixelSceneAtlasBuffer.cs:89-94 | After a drain, the transform buffer's slots are the old slots plus exactly the slots the packer handed out. |
| PixelSceneAtlas.PixelSceneAtlasBuffer.UpdateInstanceBuffer | NoitaMap/Graphics/Atlases/PixelSceneAtlasBuffer.cs:63 | Each call adds one to the count of `TransformBuffer.UpdateInstanceBuffer` calls. Whether a call uploads anything depends on `TransformBuffer`, which is not part of this model. |
| PixelSceneAtlas.PixelSceneAtlasBuffer.Update | NoitaMap/Graphics/Atlases/PixelSceneAtlasBuffer.cs:50-65 | Afterwards the queue is empty. The bookkeeping is the old bookkeeping with every queued scene processed exactly once, in FIFO order. `TransformBuffer.UpdateInstanceBuffer` is called once if the queue was non-empty and zero times if it was empty. |
| PixelSceneAtlas.PixelSceneAtlasBuffer.constructor | NoitaMap/Graphics/Atlases/PixelSceneAtlasBuffer.cs:13-21 | The buffer starts with an empty scene list and an empty queue (lines 13-15) and takes the data root from the path service (line 20). The empty packer history, transform buffer and counters and the zero call count are assumptions about the base class `PackedAtlasedQuadBuffer`, which is not part of this model. |
| ChunkPartition.CeilDiv | NoitaMap/Viewer/ViewerDisplay.cs:157 | The result is the least count of b that reaches a: r * b >= a and r * b < a + b. |
| ChunkPartition.ChunksPerThread | NoitaMap/Viewer/ViewerDisplay.cs:157 | k = ceil(n / (P - 2)) is positive for n > 0. The P - 2 loader threads at k paths each cover all n paths. |
| ChunkPartition.PartitionFlatten | NoitaMap/Viewer/ViewerDisplay.cs:164-175 | Concatenating the slices in order gives back the paths. Every path lands in exactly one slice, in its original order. |
| ChunkPartition.PartitionSliceBounds | NoitaMap/Viewer/ViewerDisplay.cs:166-167 | No slice is empty, and none is longer than k. |
| ChunkPartition.PartitionLength | NoitaMap/Viewer/ViewerDisplay.cs:161 | The split has exactly ceil(n / k) slices, the length of the jagged array. |
| ChunkPartition.PartitionAt | NoitaMap/Viewer/ViewerDisplay.cs:163-175 | Slice i starts inside the paths, at the cursor value i * k. It holds the next min(n - i * k, k) paths. |
| ChunkPartition.SliceCountAtMostWorkers | NoitaMap/Viewer/ViewerDisplay.cs:157-161 | With k = ceil(n / (P - 2)) there are at most P - 2 slices. |
| ChunkPartition.RowsArePartition | NoitaMap/Viewer/ViewerDisplay.cs:163-175 | Rows laid out as the fill loop lays them out are the reference split. They concatenate back to the paths, and each has between 1 and k paths. |
| ChunkPartition.PartitionChunkPaths | NoitaMap/Viewer/ViewerDisplay.cs:153-175 | `TotalChunkCount` is the number of paths. k is ceil(n / (P - 2)). The jagged array has ceil(n / k) rows, and row i holds the paths from i * k to min(i * k + k, n). The rows are the reference split, concatenate back to the input, and number at most P - 2. The loop invariant keeps the cursor at min(i * k, n), so it never passes n and ends at n. |

## Left out

- Concurrency. The model omits:
  - the thread-safety of `ConcurrentQueue`, modelled as a plain sequence under a single-thread view;
  - `Task.Run`;
  - `Parallel.ForEach` over the slices and the unsynchronised `LoadedChunks++` (ViewerDisplay.cs lines 177-185).
- Image decoding (`LoadPixelSceneImage`). It is the host function `loadImage`, which always yields a size, so a missing or corrupt file that makes decoding throw is not modelled. A path that stays null does make the model fail (`NullImagePath`), modelling `Image.Load` throwing on a null path.
- The atlas packer of `PackedAtlasedQuadBuffer`, which is not part of this model. It is an arbitrary deterministic function of the request history and is not given a placement algorithm. The model also omits the packer growing `InstancesPerAtlas`: a counter the packer has never used reads as 0, where the source list would throw if the packer had not grown it.
- Pixel data and `path.GetHashCode()`. The hash is the host function `hashCode`, and the pixel span passed to the packer is not modelled.
- Float matrix math. The instance transform `CreateScale(w, h, 1) * CreateTranslation(x, y, 0)` is kept symbolically as `ScaleThenTranslate`, and UV vectors are carried as opaque reals.
- PathService.DataPath is taken as fixed for the buffer's life (the constant `dataPath`), whereas the source reads it again at lines 30, 39 and 78. If it changed between AddPixelScene and Update, ProcessPixelScene would load another file or throw at line 78; the queue invariant `Valid`, `Update`'s precondition and `AdmittedScenesProcess` rely on it staying fixed, as the source itself does with `DataPath!`.
- `StartsWith("data/")` is culture-sensitive in .NET. The model uses the plain ordinal prefix test.
- Exceptions carry no messages; each throw is one `ProcessError` value.
- ChunkPartition.PartitionChunkPaths: `MathF.Ceiling` over single-precision division (lines 157 and 161) is modelled as exact integer ceiling division. For very large n, float rounding could make the source differ.
- ChunkPartition.PartitionChunkPaths: requires n > 0 and P > 2. With n = 0 (ceil(0 / 0), NaN) and with P = 2 (n / 0, +Infinity) the outcome rests on C#'s unspecified float-to-int cast, so there is nothing definite to model. With P = 1, line 157 gives k = ceil(n / -1) = -n, line 161 gives ceil(n / -n) = -1, and `new string[-1][]` throws OverflowException; the throw happens inside `Task.Run`, so on a one-core machine no chunk is loaded and nothing reports it. That failing path is not modelled.
- ChunkPartition.PartitionChunkPaths: each row is filled element by element in its own array, as in the source. The outer array stores each row's contents as a sequence, not as a reference to that array, so row aliasing is not modelled.
- Directory enumeration of the world files (line 153) is the input array, and chunk loading itself (`ChunkContainer.LoadChunk`) is not part of this model.
- The window, GPU pipeline, ImGui overlay, view and zoom math in `ViewerDisplay.cs` and `Viewer.cs`, and the native FastLZ wrapper are outside the modelled core.
