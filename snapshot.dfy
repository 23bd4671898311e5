/**
 * The snapshot side path of the original plugin: which cameras are used, the proxy table of the
 * camera request, and the frame that is uploaded with its flips and rotation.
 */
module Snapshot {
  import opened Wrappers
  import opened Host
  import opened Matrix

  /** One camera entry: a MultiCam profile or the host's own webcam settings. */
  datatype Camera = Camera(name: string, snapshot: Value, flipH: Value, flipV: Value, rotate90: Value)

  /** The camera request: URL, the proxy table handed to the proxy handler, and the timeout in seconds. */
  datatype Request = Request(url: Value, proxies: map<string, Value>, timeout: nat)

  /** The transposes applied to a frame, in order: horizontal flip, vertical flip, rotation. */
  function Transposes(flipH: bool, flipV: bool, rotate: bool, invertRotation: bool): (ops: seq<Transpose>)
    ensures |ops| == (if flipH then 1 else 0) + (if flipV then 1 else 0) + (if rotate then 1 else 0)
  {
    (if flipH then [FlipLeftRight] else [])
    + (if flipV then [FlipTopBottom] else [])
    + (if rotate then [if invertRotation then Rotate90 else Rotate270] else [])
  }

  /** Applies `ops` to `image`, first to last. */
  function ApplyAll(image: Image, ops: seq<Transpose>): Image
    decreases |ops|
  {
    if ops == [] then image else ApplyAll(Transposed(image, ops[0]), ops[1..])
  }

  lemma {:induction false} ApplyAllAppend(image: Image, ops: seq<Transpose>, op: Transpose)
    ensures ApplyAll(image, ops + [op]) == Transposed(ApplyAll(image, ops), op)
    decreases |ops|
  {
    if ops != [] {
      assert (ops + [op])[1..] == ops[1..] + [op];
      ApplyAllAppend(Transposed(image, ops[0]), ops[1..], op);
    }
  }

  /**
   * The frame `take_image` returns: nothing for a `None` or falsy URL or a failed request; the
   * fetched bytes unchanged when no flag is set; otherwise the JPEG of the transposed frame.
   */
  function Frame(url: Value, flipH: Value, flipV: Value, rotate: Value, invertRotation: bool,
                 cameras: map<string, seq<bv8>>): Option<Picture>
  {
    if !(url.Text? && url.s != "" && url.s in cameras) then None
    else
      var data := cameras[url.s];
      if Truthy(flipH) || Truthy(flipV) || Truthy(rotate) then
        Some(Jpeg(ApplyAll(Decoded(data), Transposes(Truthy(flipH), Truthy(flipV), Truthy(rotate), invertRotation))))
      else Some(Raw(data))
  }

  /** `None` and the empty URL give no frame. */
  lemma NoUrlNoFrame(flipH: Value, flipV: Value, rotate: Value, invert: bool, cameras: map<string, seq<bv8>>)
    ensures Frame(Null, flipH, flipV, rotate, invert, cameras) == None
    ensures Frame(Text(""), flipH, flipV, rotate, invert, cameras) == None
  {
  }

  /** Without a transform flag the fetched bytes are returned as they are. */
  lemma UntransformedFrameIsFetched(url: string, flipH: Value, flipV: Value, rotate: Value, invert: bool,
                                    cameras: map<string, seq<bv8>>)
    requires url != "" && url in cameras
    requires !Truthy(flipH) && !Truthy(flipV) && !Truthy(rotate)
    ensures Frame(Text(url), flipH, flipV, rotate, invert, cameras) == Some(Raw(cameras[url]))
  {
  }

  /** With every flag set, the frame is flipped horizontally, then vertically, then rotated by 270 (90 when inverted). */
  lemma AllTransformsInOrder(data: seq<bv8>, invert: bool)
    ensures ApplyAll(Decoded(data), Transposes(true, true, true, invert))
         == Transposed(Transposed(Transposed(Decoded(data), FlipLeftRight), FlipTopBottom),
                       if invert then Rotate90 else Rotate270)
  {
    var ops := Transposes(true, true, true, invert);
    var r := if invert then Rotate90 else Rotate270;
    assert ops == [FlipLeftRight, FlipTopBottom, r];
    assert ops[1..] == [FlipTopBottom, r];
    assert ops[1..][1..] == [r];
    assert ops[1..][1..][1..] == [];
    var i1 := Transposed(Decoded(data), FlipLeftRight);
    var i2 := Transposed(i1, FlipTopBottom);
    assert ApplyAll(i2, [r]) == ApplyAll(Transposed(i2, r), []);
  }

  /** A rotation alone turns the frame by 270 degrees unless `invertImgRot` is set, then by 90. */
  lemma RotationDirection(data: seq<bv8>, invert: bool)
    ensures ApplyAll(Decoded(data), Transposes(false, false, true, invert))
         == Transposed(Decoded(data), if invert then Rotate90 else Rotate270)
  {
    var ops := Transposes(false, false, true, invert);
    assert ops == [if invert then Rotate90 else Rotate270];
    assert ops[1..] == [];
  }

  /** The frame one camera entry gives, as a list of at most one picture. */
  function Shot(cam: Camera, invert: bool, cameras: map<string, seq<bv8>>): seq<Picture> {
    match Frame(cam.snapshot, cam.flipH, cam.flipV, cam.rotate90, invert, cameras)
    case None => []
    case Some(p) => [p]
  }

  /** The frames the cameras give, in camera order, skipping those that give none. */
  function Frames(cams: seq<Camera>, invert: bool, cameras: map<string, seq<bv8>>): seq<Picture>
    decreases |cams|
  {
    if cams == [] then []
    else Frames(cams[..|cams| - 1], invert, cameras) + Shot(cams[|cams| - 1], invert, cameras)
  }

  /**
   * The cameras `get_snapshot_config` lists: the MultiCam profiles when that setting exists;
   * otherwise one `webcam` entry built from the host's webcam settings, or none when the host has
   * no snapshot URL.
   */
  function Config(multicam: Option<seq<Camera>>, global: Settings): seq<Camera> {
    match multicam
    case Some(profiles) => profiles
    case None =>
      var url := Get(global, ["webcam", "snapshot"]);
      if url == Null then []
      else [Camera("webcam", url, Get(global, ["webcam", "flipH"]), Get(global, ["webcam", "flipV"]),
                   Get(global, ["webcam", "rotate90"]))]
  }

  /**
   * The proxy table `http_proxy` hands the proxy handler: an `http` and an `https` entry, each
   * present exactly when its setting is truthy and then holding that setting.
   */
  function Proxies(settings: Settings): map<string, Value> {
    var http := Get(settings, ["http_proxy"]);
    var https := Get(settings, ["https_proxy"]);
    (if Truthy(http) then map["http" := http] else map[])
    + (if Truthy(https) then map["https" := https] else map[])
  }

  /** The MultiCam profiles win; otherwise there is one `webcam` camera exactly when a snapshot URL is set. */
  lemma ConfigCameras(multicam: Option<seq<Camera>>, global: Settings)
    ensures var cams := Config(multicam, global);
      && (multicam.Some? ==> cams == multicam.value)
      && (multicam.None? ==> (|cams| == 1 <==> Get(global, ["webcam", "snapshot"]) != Null) && |cams| <= 1)
      && (multicam.None? && |cams| == 1 ==>
            cams[0] == Camera("webcam", Get(global, ["webcam", "snapshot"]), Get(global, ["webcam", "flipH"]),
                              Get(global, ["webcam", "flipV"]), Get(global, ["webcam", "rotate90"])))
  {
  }

  /** Only `http` and `https` appear; each is present exactly when its setting is truthy, and then holds it. */
  lemma ProxiesFollowSettings(settings: Settings)
    ensures var proxy := Proxies(settings);
      && proxy.Keys <= {"http", "https"}
      && ("http" in proxy <==> Truthy(Get(settings, ["http_proxy"])))
      && ("https" in proxy <==> Truthy(Get(settings, ["https_proxy"])))
      && ("http" in proxy ==> proxy["http"] == Get(settings, ["http_proxy"]))
      && ("https" in proxy ==> proxy["https"] == Get(settings, ["https_proxy"]))
  {
  }
}
