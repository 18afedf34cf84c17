/** The pixel-scene atlas buffer: admission of pixel scenes, the hand-off
    queue, and the per-tick drain that places each queued scene in an atlas,
    records a draw instance for it and counts instances per atlas
    (NoitaMap/Graphics/Atlases/PixelSceneAtlasBuffer.cs).

    Collaborators that are not part of this model (the file system,
    Path.Combine, image decoding, string hashing and the atlas packer of the
    base class) are function values in a Host. The packer is deterministic
    in the requests it has been given so far, so it is a function of that
    request history. */
module PixelSceneAtlas {
  import opened Wrappers

  /** A System.Numerics.Vector2 produced by the packer; carried, never computed. */
  datatype Vec2 = Vec2(x: real, y: real)

  /** A pixel scene of the world file: its atlas texture path (nullable) and its world position. */
  datatype PixelScene = PixelScene(atlasTexturePath: Option<string>, x: int, y: int)

  /** Width and height of a decoded image. */
  datatype ImageSize = ImageSize(width: nat, height: nat)

  /** The arguments of one AddTextureToAtlas call: image size and the path's hash code. */
  datatype TextureRequest = TextureRequest(width: nat, height: nat, key: int)

  /** Where the packer put a texture: atlas page, instance slot and UV rectangle. */
  datatype ResourcePosition = ResourcePosition(atlasIndex: nat, instanceIndex: nat, uv: Vec2, uvSize: Vec2)

  /** Matrix4x4.CreateScale(width, height, 1) * Matrix4x4.CreateTranslation(x, y, 0), kept symbolic. */
  datatype Transform = ScaleThenTranslate(scaleX: nat, scaleY: nat, offsetX: int, offsetY: int)

  /** One record of the instance (transform) buffer. */
  datatype VertexInstance = VertexInstance(transform: Transform, texturePosition: Vec2, textureSize: Vec2)

  /** The collaborators: File.Exists, Path.Combine, image loading, string.GetHashCode
      and the packer behind AddTextureToAtlas. */
  datatype Host = Host(
    fileExists: string -> bool,
    combine: (string, string) -> string,
    loadImage: string -> ImageSize,
    hashCode: string -> int,
    place: (seq<TextureRequest>, TextureRequest) -> ResourcePosition)

  /** Why ProcessPixelScene throws. */
  datatype ProcessError =
    | NullAtlasTexturePath  // the explicit throw for a null AtlasTexturePath
    | NullDataPath          // Path.Combine throws on a null data root
    | NullImagePath         // the path stays null and Image.Load throws on it

  /** What AddPixelScene decides about a scene. */
  datatype Admission =
    | Admitted(path: string)
    | RejectedNullAtlasPath
    | RejectedNullDataPath
    | RejectedMissingFile

  const DataPrefix: string := "data/"

  predicate StartsWithData(p: string)
  {
    |p| >= |DataPrefix| && p[..|DataPrefix|] == DataPrefix
  }

  /** File.Exists: false for a null path. */
  predicate FileExists(path: Option<string>, host: Host)
  {
    path.Some? && host.fileExists(path.value)
  }

  /** The admission filter of AddPixelScene. */
  function Admit(scene: PixelScene, dataPath: Option<string>, host: Host): (r: Admission)
    ensures scene.atlasTexturePath.None? ==> r == RejectedNullAtlasPath
    ensures scene.atlasTexturePath.Some? && dataPath.None? ==> r == RejectedNullDataPath
    ensures scene.atlasTexturePath.Some? && dataPath.Some? && !StartsWithData(scene.atlasTexturePath.value) ==>
              r == RejectedMissingFile
    ensures r.Admitted? <==>
              && scene.atlasTexturePath.Some?
              && dataPath.Some?
              && StartsWithData(scene.atlasTexturePath.value)
              && host.fileExists(ImagePath(scene, dataPath, host))
    ensures r.Admitted? ==> Processable(scene, dataPath)
    ensures r.Admitted? ==> r.path == ImagePath(scene, dataPath, host)
  {
    if scene.atlasTexturePath.None? then RejectedNullAtlasPath
    else if dataPath.None? then RejectedNullDataPath
    else
      var atlasPath := scene.atlasTexturePath.value;
      var path := if StartsWithData(atlasPath) then Some(ImagePath(scene, dataPath, host)) else None;
      if !FileExists(path, host) then RejectedMissingFile else Admitted(path.value)
  }

  /** ProcessPixelScene gets past its guards and the image load for this scene. */
  predicate Processable(scene: PixelScene, dataPath: Option<string>)
  {
    scene.atlasTexturePath.Some? && StartsWithData(scene.atlasTexturePath.value) && dataPath.Some?
  }

  /** The image file of a processable scene. */
  function ImagePath(scene: PixelScene, dataPath: Option<string>, host: Host): string
    requires Processable(scene, dataPath)
  {
    host.combine(dataPath.value, scene.atlasTexturePath.value[|DataPrefix|..])
  }

  /** The AddTextureToAtlas call made for an image file. */
  function RequestFor(path: string, host: Host): TextureRequest
  {
    var size := host.loadImage(path);
    TextureRequest(size.width, size.height, host.hashCode(path))
  }

  /** The bookkeeping that ProcessPixelScene changes: the PixelScenes list, the
      packer's request history, the transform buffer and InstancesPerAtlas. */
  datatype Books = Books(
    pixelScenes: seq<PixelScene>,
    requests: seq<TextureRequest>,
    instances: map<nat, VertexInstance>,
    instancesPerAtlas: map<nat, nat>)

  /** The counter of an atlas; one the packer has never used reads as 0. */
  function Count(counters: map<nat, nat>, atlas: nat): nat
  {
    if atlas in counters then counters[atlas] else 0
  }

  /** The bookkeeping step of ProcessPixelScene once the image path is known. */
  function Place(b: Books, scene: PixelScene, path: string, host: Host): Books
  {
    var request := RequestFor(path, host);
    var pos := host.place(b.requests, request);
    var size := host.loadImage(path);
    var record := VertexInstance(ScaleThenTranslate(size.width, size.height, scene.x, scene.y), pos.uv, pos.uvSize);
    Books(
      b.pixelScenes + [scene],
      b.requests + [request],
      b.instances[pos.instanceIndex := record],
      b.instancesPerAtlas[pos.atlasIndex := Count(b.instancesPerAtlas, pos.atlasIndex) + 1])
  }

  /** What one placement does: the scene is listed, the packer gets one request,
      the slot it hands out gets the scene's transform and UV rectangle while
      every other slot keeps its record, and only that atlas's counter grows, by one. */
  lemma PlaceEffect(b: Books, scene: PixelScene, path: string, host: Host)
    ensures var r := Place(b, scene, path, host);
            var pos := host.place(b.requests, RequestFor(path, host));
            var size := host.loadImage(path);
            && r.pixelScenes == b.pixelScenes + [scene]
            && r.requests == b.requests + [RequestFor(path, host)]
            && r.instances.Keys == b.instances.Keys + {pos.instanceIndex}
            && r.instances[pos.instanceIndex].transform == ScaleThenTranslate(size.width, size.height, scene.x, scene.y)
            && r.instances[pos.instanceIndex].texturePosition == pos.uv
            && r.instances[pos.instanceIndex].textureSize == pos.uvSize
            && (forall i :: i in b.instances && i != pos.instanceIndex ==> r.instances[i] == b.instances[i])
            && Count(r.instancesPerAtlas, pos.atlasIndex) == Count(b.instancesPerAtlas, pos.atlasIndex) + 1
            && (forall a :: a != pos.atlasIndex ==> Count(r.instancesPerAtlas, a) == Count(b.instancesPerAtlas, a))
  {
  }

  /** ProcessPixelScene on values: the error it throws, or the new bookkeeping. */
  function Process(b: Books, scene: PixelScene, dataPath: Option<string>, host: Host): (r: Result<Books, ProcessError>)
    ensures scene.atlasTexturePath.None? ==> r == Failure(NullAtlasTexturePath)
    ensures r.Success? <==> Processable(scene, dataPath)
    ensures r.Success? ==> r.value == Place(b, scene, ImagePath(scene, dataPath, host), host)
  {
    if scene.atlasTexturePath.None? then Failure(NullAtlasTexturePath)
    else if !StartsWithData(scene.atlasTexturePath.value) then Failure(NullImagePath)
    else if dataPath.None? then Failure(NullDataPath)
    else Success(Place(b, scene, ImagePath(scene, dataPath, host), host))
  }

  predicate AllProcessable(scenes: seq<PixelScene>, dataPath: Option<string>)
  {
    forall i :: 0 <= i < |scenes| ==> Processable(scenes[i], dataPath)
  }

  /** The requests a drain sends to the packer, one per scene, in queue order. */
  function Requests(scenes: seq<PixelScene>, dataPath: Option<string>, host: Host): (r: seq<TextureRequest>)
    requires AllProcessable(scenes, dataPath)
  {
    if scenes == [] then []
    else [RequestFor(ImagePath(scenes[0], dataPath, host), host)] + Requests(scenes[1..], dataPath, host)
  }

  /** Processing the scenes one after the other, front first. */
  function Drain(b: Books, scenes: seq<PixelScene>, dataPath: Option<string>, host: Host): (r: Books)
    requires AllProcessable(scenes, dataPath)
    ensures r.pixelScenes == b.pixelScenes + scenes
    ensures r.requests == b.requests + Requests(scenes, dataPath, host)
    decreases |scenes|
  {
    if scenes == [] then b
    else Drain(Place(b, scenes[0], ImagePath(scenes[0], dataPath, host), host), scenes[1..], dataPath, host)
  }

  /** The positions the packer hands out during a drain, in queue order. */
  function Placements(b: Books, scenes: seq<PixelScene>, dataPath: Option<string>, host: Host): (r: seq<ResourcePosition>)
    requires AllProcessable(scenes, dataPath)
    decreases |scenes|
  {
    if scenes == [] then []
    else
      var path := ImagePath(scenes[0], dataPath, host);
      [host.place(b.requests, RequestFor(path, host))] + Placements(Place(b, scenes[0], path, host), scenes[1..], dataPath, host)
  }

  /** How many of the positions are on the given atlas. */
  function OnAtlas(positions: seq<ResourcePosition>, atlas: nat): nat
  {
    if positions == [] then 0
    else (if positions[0].atlasIndex == atlas then 1 else 0) + OnAtlas(positions[1..], atlas)
  }

  /** The instance slots the positions name. */
  function Slots(positions: seq<ResourcePosition>): set<nat>
  {
    set p | p in positions :: p.instanceIndex
  }

  /** Draining a queue in one tick is draining its front, then its back. */
  lemma {:induction false} DrainAppend(b: Books, s: seq<PixelScene>, t: seq<PixelScene>, dataPath: Option<string>, host: Host)
    requires AllProcessable(s, dataPath) && AllProcessable(t, dataPath)
    ensures AllProcessable(s + t, dataPath)
    ensures Drain(b, s + t, dataPath, host) == Drain(Drain(b, s, dataPath, host), t, dataPath, host)
    decreases |s|
  {
    assert AllProcessable(s + t, dataPath) by {
      forall i | 0 <= i < |s + t| ensures Processable((s + t)[i], dataPath) {
        if i < |s| { assert (s + t)[i] == s[i]; } else { assert (s + t)[i] == t[i - |s|]; }
      }
    }
    if s != [] {
      var first := Place(b, s[0], ImagePath(s[0], dataPath, host), host);
      assert (s + t)[0] == s[0] && (s + t)[1..] == s[1..] + t;
      DrainAppend(first, s[1..], t, dataPath, host);
    } else {
      assert s + t == t;
    }
  }

  /** One more scene at the back of the drain is one more Place at the end. */
  lemma DrainSnoc(b: Books, s: seq<PixelScene>, scene: PixelScene, dataPath: Option<string>, host: Host)
    requires AllProcessable(s, dataPath) && Processable(scene, dataPath)
    ensures AllProcessable(s + [scene], dataPath)
    ensures Drain(b, s + [scene], dataPath, host)
            == Place(Drain(b, s, dataPath, host), scene, ImagePath(scene, dataPath, host), host)
  {
    DrainAppend(b, s, [scene], dataPath, host);
    assert [scene][1..] == [];
  }

  /** Each counter grows by exactly the number of drained scenes the packer put on that atlas. */
  lemma {:induction false} DrainCounters(b: Books, scenes: seq<PixelScene>, dataPath: Option<string>, host: Host, atlas: nat)
    requires AllProcessable(scenes, dataPath)
    ensures |Placements(b, scenes, dataPath, host)| == |scenes|
    ensures Count(Drain(b, scenes, dataPath, host).instancesPerAtlas, atlas)
            == Count(b.instancesPerAtlas, atlas) + OnAtlas(Placements(b, scenes, dataPath, host), atlas)
    decreases |scenes|
  {
    if scenes != [] {
      var path := ImagePath(scenes[0], dataPath, host);
      var first := Place(b, scenes[0], path, host);
      var ps := Placements(b, scenes, dataPath, host);
      DrainCounters(first, scenes[1..], dataPath, host, atlas);
      assert ps[1..] == Placements(first, scenes[1..], dataPath, host);
    }
  }

  /** The transform buffer gains exactly the slots the packer handed out, and keeps every old one. */
  lemma {:induction false} DrainSlots(b: Books, scenes: seq<PixelScene>, dataPath: Option<string>, host: Host)
    requires AllProcessable(scenes, dataPath)
    ensures Drain(b, scenes, dataPath, host).instances.Keys
            == b.instances.Keys + Slots(Placements(b, scenes, dataPath, host))
    decreases |scenes|
  {
    if scenes != [] {
      var path := ImagePath(scenes[0], dataPath, host);
      var first := Place(b, scenes[0], path, host);
      var ps := Placements(b, scenes, dataPath, host);
      DrainSlots(first, scenes[1..], dataPath, host);
      assert ps == [ps[0]] + Placements(first, scenes[1..], dataPath, host);
      assert Slots(ps) == {ps[0].instanceIndex} + Slots(ps[1..]);
    }
  }

  /** Scenes that AddPixelScene lets in never make ProcessPixelScene throw. */
  lemma AdmittedScenesProcess(b: Books, scene: PixelScene, dataPath: Option<string>, host: Host)
    requires Admit(scene, dataPath, host).Admitted?
    ensures Process(b, scene, dataPath, host).Success?
    ensures Admit(scene, dataPath, host).path == ImagePath(scene, dataPath, host)
  {
  }

  class PixelSceneAtlasBuffer {
    /** PathService.DataPath, the data root (nullable). */
    const dataPath: Option<string>
    const host: Host
    /** The PixelScenes list. */
    var pixelScenes: seq<PixelScene>
    /** ThreadedPixelSceneQueue, front first. */
    var queue: seq<PixelScene>
    /** Every AddTextureToAtlas call made so far: the packer's state. */
    var requests: seq<TextureRequest>
    /** TransformBuffer: records by instance index. */
    var instances: map<nat, VertexInstance>
    /** InstancesPerAtlas. */
    var instancesPerAtlas: map<nat, nat>
    /** How many times TransformBuffer.UpdateInstanceBuffer has been called. */
    var instanceBufferUpdates: nat

    /** Every queued scene came through AddPixelScene's filter, so it can be processed. */
    ghost predicate Valid()
      reads this
    {
      AllProcessable(queue, dataPath)
    }

    ghost function Bookkeeping(): Books
      reads this
    {
      Books(pixelScenes, requests, instances, instancesPerAtlas)
    }

    constructor (dataPath: Option<string>, host: Host)
      ensures Valid()
      ensures this.dataPath == dataPath && this.host == host
      ensures queue == [] && instanceBufferUpdates == 0
      ensures Bookkeeping() == Books([], [], map[], map[])
    {
      this.dataPath := dataPath;
      this.host := host;
      pixelScenes := [];
      queue := [];
      requests := [];
      instances := map[];
      instancesPerAtlas := map[];
      instanceBufferUpdates := 0;
    }

    /** AddPixelScene (lines 23-48): enqueue the scene if it passes the filter. */
    method AddPixelScene(pixelScene: PixelScene)
      requires Valid()
      modifies this`queue
      ensures Valid()
      ensures queue == if Admit(pixelScene, dataPath, host).Admitted? then old(queue) + [pixelScene] else old(queue)
    {
      if pixelScene.atlasTexturePath.None? {
        return;
      }
      if dataPath.None? {
        return;
      }
      var path: Option<string> := None;
      var atlasPath := pixelScene.atlasTexturePath.value;
      if StartsWithData(atlasPath) {
        path := Some(ImagePath(pixelScene, dataPath, host));
      }
      if !FileExists(path, host) {
        return;
      }
      queue := queue + [pixelScene];
    }

    /** ConcurrentQueue.TryDequeue under a single-thread view. */
    method TryDequeue() returns (next: Option<PixelScene>)
      modifies this`queue
      ensures old(queue) == [] ==> next == None && queue == []
      ensures old(queue) != [] ==> next == Some(old(queue)[0]) && queue == old(queue)[1..]
    {
      if queue == [] {
        next := None;
      } else {
        next := Some(queue[0]);
        queue := queue[1..];
      }
    }

    /** TransformBuffer.UpdateInstanceBuffer: one batched upload. */
    method UpdateInstanceBuffer()
      modifies this`instanceBufferUpdates
      ensures instanceBufferUpdates == old(instanceBufferUpdates) + 1
    {
      instanceBufferUpdates := instanceBufferUpdates + 1;
    }

    /** ProcessPixelScene (lines 67-97): place the scene's image, record its
        instance and count it on its atlas; or throw before changing anything. */
    method ProcessPixelScene(pixelScene: PixelScene) returns (outcome: Outcome<ProcessError>)
      modifies this`pixelScenes, this`requests, this`instances, this`instancesPerAtlas
      ensures match Process(old(Bookkeeping()), pixelScene, dataPath, host)
              case Success(b) => outcome == Pass && Bookkeeping() == b
              case Failure(e) => outcome == Fail(e) && Bookkeeping() == old(Bookkeeping())
    {
      if pixelScene.atlasTexturePath.None? {
        return Fail(NullAtlasTexturePath);
      }
      var atlasPath := pixelScene.atlasTexturePath.value;
      var path: Option<string> := None;
      if StartsWithData(atlasPath) {
        if dataPath.None? {
          return Fail(NullDataPath);
        }
        path := Some(ImagePath(pixelScene, dataPath, host));
      }
      if path.None? {
        return Fail(NullImagePath);
      }
      var image := host.loadImage(path.value);
      var request := TextureRequest(image.width, image.height, host.hashCode(path.value));
      // AddTextureToAtlas: the packer answers from its history, then records the call.
      var position := host.place(requests, request);
      requests := requests + [request];
      pixelScenes := pixelScenes + [pixelScene];
      var record := VertexInstance(ScaleThenTranslate(image.width, image.height, pixelScene.x, pixelScene.y), position.uv, position.uvSize);
      instances := instances[position.instanceIndex := record];
      instancesPerAtlas := instancesPerAtlas[position.atlasIndex := Count(instancesPerAtlas, position.atlasIndex) + 1];
      outcome := Pass;
    }

    /** Update (lines 50-65): drain the queue, process every scene in order,
        and upload the transform buffer once if anything was drained. */
    method Update()
      requires Valid()
      modifies this
      ensures Valid()
      ensures queue == []
      ensures Bookkeeping() == Drain(old(Bookkeeping()), old(queue), dataPath, host)
      ensures instanceBufferUpdates == old(instanceBufferUpdates) + (if old(queue) == [] then 0 else 1)
    {
      var needsUpdate := false;
      ghost var drained: seq<PixelScene> := [];
      var next := TryDequeue();
      while next.Some?
        invariant AllProcessable(drained, dataPath)
        invariant Valid()
        invariant next.Some? ==> old(queue) == drained + [next.value] + queue && Processable(next.value, dataPath)
        invariant next.None? ==> old(queue) == drained && queue == []
        invariant Bookkeeping() == Drain(old(Bookkeeping()), drained, dataPath, host)
        invariant needsUpdate <==> drained != []
        invariant instanceBufferUpdates == old(instanceBufferUpdates)
        decreases |queue| + (if next.Some? then 1 else 0)
      {
        var outcome := ProcessPixelScene(next.value);
        DrainSnoc(old(Bookkeeping()), drained, next.value, dataPath, host);
        drained := drained + [next.value];
        needsUpdate := true;
        next := TryDequeue();
      }
      if needsUpdate {
        UpdateInstanceBuffer();
      }
    }
  }
}
