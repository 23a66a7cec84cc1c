/** src/main.c: the application's bookkeeping around the loaders and the
    camera. It stores request records, issues one fetch per slice, turns
    key releases into skybox and overlay switches, and turns mouse moves
    into camera offsets. */
module App {
  import opened Types
  import Camera

  // ---------------------------------------------------------------------
  // Constants
  // ---------------------------------------------------------------------

  /** EV_SKYBOX_COUNT, the declared size of skybox_names. Its definition is
      not part of this model; the value is taken to be 12, the number of
      names skybox_names is initialised with. The images and the cubemap
      records get one extra slot, so an index of EV_SKYBOX_COUNT is valid. */
  const SkyboxCount: int := 12

  /** The range of uint32_t. */
  const U32: int := 0x1_0000_0000

  /** A uint32_t value. */
  predicate IsU32(v: int)
  {
    0 <= v < U32
  }

  // ---------------------------------------------------------------------
  // Skybox selection
  // ---------------------------------------------------------------------

  /** The R key: `selectedSkybox++`, then wrap to 0 past EV_SKYBOX_COUNT. */
  function SkyboxNext(i: int): (r: int)
    requires IsU32(i)
    ensures IsU32(r) && 0 <= r <= SkyboxCount
    ensures r == if i < SkyboxCount then i + 1 else 0
  {
    var bumped := (i + 1) % U32;
    if bumped > SkyboxCount then 0 else bumped
  }

  /** The T key as written: `selectedSkybox--` on a uint32_t, then a test for
      a negative value that a uint32_t never has. From 0 the decrement wraps
      to the largest uint32_t. */
  function SkyboxPrevAsWritten(i: int): (r: int)
    requires IsU32(i)
    ensures IsU32(r)
    ensures r == if i == 0 then U32 - 1 else i - 1
  {
    var dropped := (i - 1) % U32;
    if dropped < 0 then SkyboxCount else dropped
  }

  /** The decrement from 0 leaves the range of valid skybox indices. */
  lemma SkyboxPrevAsWrittenLeavesRange()
    ensures SkyboxPrevAsWritten(0) == 4294967295
    ensures SkyboxPrevAsWritten(0) > SkyboxCount
  {
  }

  /** The T key as intended: step back, wrapping from 0 to EV_SKYBOX_COUNT. */
  function SkyboxPrev(i: int): (r: int)
    requires IsU32(i)
    ensures IsU32(r)
    ensures 0 <= i <= SkyboxCount ==> 0 <= r <= SkyboxCount
  {
    if i == 0 then SkyboxCount else i - 1
  }

  /** On the valid indices R and the intended T undo each other, and the
      as-written T agrees with the intended one everywhere except at 0. */
  lemma SkyboxNextPrevInverse(i: int)
    requires 0 <= i <= SkyboxCount
    ensures SkyboxPrev(SkyboxNext(i)) == i
    ensures SkyboxNext(SkyboxPrev(i)) == i
    ensures i != 0 ==> SkyboxPrevAsWritten(i) == SkyboxPrev(i)
  {
  }

  /** `n` presses of R. */
  function SkyboxNextTimes(i: int, n: nat): (r: int)
    requires 0 <= i <= SkyboxCount
    ensures 0 <= r <= SkyboxCount
    decreases n
  {
    if n == 0 then i else SkyboxNext(SkyboxNextTimes(i, n - 1))
  }

  /** From 0, pressing R n times (n up to EV_SKYBOX_COUNT) selects skybox n:
      the R key visits every index in turn. */
  lemma {:induction false} SkyboxNextCounts(n: nat)
    requires n <= SkyboxCount
    ensures SkyboxNextTimes(0, n) == n
  {
    if n > 0 {
      SkyboxNextCounts(n - 1);
      assert SkyboxNextTimes(0, n) == SkyboxNext(n - 1);
    }
  }

  /** EV_SKYBOX_COUNT + 1 presses of R come back to where they started. */
  lemma {:induction false} SkyboxNextCycles(i: int)
    requires 0 <= i <= SkyboxCount
    ensures SkyboxNextTimes(i, SkyboxCount + 1) == i
  {
    var k := SkyboxCount - i;
    SkyboxNextUpTo(i, k);
    assert SkyboxNextTimes(i, k) == SkyboxCount;
    assert SkyboxNextTimes(i, k + 1) == 0;
    SkyboxNextShift(i, k + 1, i);
    SkyboxNextCounts(i);
  }

  /** n presses from i, while they do not wrap, add n. */
  lemma {:induction false} SkyboxNextUpTo(i: int, n: nat)
    requires 0 <= i <= SkyboxCount && i + n <= SkyboxCount
    ensures SkyboxNextTimes(i, n) == i + n
  {
    if n > 0 {
      SkyboxNextUpTo(i, n - 1);
    }
  }

  /** Pressing m then n more times is pressing m + n times. */
  lemma {:induction false} SkyboxNextShift(i: int, m: nat, n: nat)
    requires 0 <= i <= SkyboxCount
    ensures SkyboxNextTimes(SkyboxNextTimes(i, m), n) == SkyboxNextTimes(i, m + n)
    decreases n
  {
    if n > 0 {
      SkyboxNextShift(i, m, n - 1);
    }
  }

  // ---------------------------------------------------------------------
  // Event bookkeeping
  // ---------------------------------------------------------------------

  /** The clear colour of the pass action. */
  datatype Color = Color(r: real, g: real, b: real, a: real)

  /** The colour init clears to. */
  const InitClearColor: Color := Color(0.05, 0.05, 0.05, 1.0)

  /** The colour fail_callback clears to. */
  const FailClearColor: Color := Color(1.0, 0.0, 0.0, 1.0)

  /** The fields of `state` that event() reads and writes besides the
      camera, and whether sapp_request_quit has been called. */
  datatype Ui = Ui(selectedSkybox: int, showDebugUi: bool, showMemUi: bool,
                   firstMouse: bool, lastMouse: Camera.Vec2, quitRequested: bool)

  /** The fields as init and static zero-initialisation leave them. */
  const InitUi: Ui := Ui(0, false, false, false, Camera.Vec2(0.0, 0.0), false)

  /** The switches of a key release. */
  function KeyUpUi(u: Ui, k: Camera.KeyCode): Ui
    requires IsU32(u.selectedSkybox)
  {
    match k
    case KeyH => u.(showDebugUi := !u.showDebugUi)
    case KeyN => u.(showMemUi := !u.showMemUi)
    case KeyR => u.(selectedSkybox := SkyboxNext(u.selectedSkybox))
    case KeyT => u.(selectedSkybox := SkyboxPrevAsWritten(u.selectedSkybox))
    case _ => u
  }

  /** The offset event() hands to camera_handle_input: zero except for a
      mouse move after the first, where it is the movement since the last
      one with y pointing up. */
  function MouseOffset(u: Ui, e: Camera.Event): (o: Camera.Vec2)
    ensures e.kind != Camera.MouseMove ==> o == Camera.Vec2(0.0, 0.0)
    ensures e.kind == Camera.MouseMove && !u.firstMouse ==>
              u.lastMouse.x + o.x == e.mouseX && e.mouseY + o.y == u.lastMouse.y
  {
    if e.kind == Camera.MouseMove && !u.firstMouse then
      Camera.Vec2(e.mouseX - u.lastMouse.x, u.lastMouse.y - e.mouseY)
    else
      Camera.Vec2(0.0, 0.0)
  }

  /** event() on everything but the camera, as written: a T release at
      skybox 0 selects 4294967295. */
  function EventUi(u: Ui, e: Camera.Event): Ui
    requires IsU32(u.selectedSkybox)
  {
    var quit := if e.kind == Camera.KeyDown && e.key == Camera.KeyEscape then u.(quitRequested := true) else u;
    var keys := if e.kind == Camera.KeyUp then KeyUpUi(quit, e.key) else quit;
    if e.kind == Camera.MouseMove then
      keys.(firstMouse := false, lastMouse := Camera.Vec2(e.mouseX, e.mouseY))
    else
      keys
  }

  /** What each event changes: only a release of R or T moves the skybox
      selection, only a release of H or N flips an overlay, only a mouse move
      touches the mouse fields, only Escape asks to quit, and first_mouse is
      never set. */
  lemma EventUiFrame(u: Ui, e: Camera.Event)
    requires IsU32(u.selectedSkybox)
    ensures var r := EventUi(u, e);
            && IsU32(r.selectedSkybox)
            && (r.selectedSkybox != u.selectedSkybox ==> e.kind == Camera.KeyUp && (e.key == Camera.KeyR || e.key == Camera.KeyT))
            && (r.showDebugUi != u.showDebugUi <==> e.kind == Camera.KeyUp && e.key == Camera.KeyH)
            && (r.showMemUi != u.showMemUi <==> e.kind == Camera.KeyUp && e.key == Camera.KeyN)
            && (e.kind != Camera.MouseMove ==> r.lastMouse == u.lastMouse && r.firstMouse == u.firstMouse)
            && (e.kind == Camera.MouseMove ==> r.lastMouse == Camera.Vec2(e.mouseX, e.mouseY))
            && (r.firstMouse ==> u.firstMouse)
            && (r.quitRequested <==> u.quitRequested || (e.kind == Camera.KeyDown && e.key == Camera.KeyEscape))
  {
  }

  /** Releasing H or N twice restores every field. */
  lemma ToggleTwiceRestores(u: Ui, e: Camera.Event)
    requires IsU32(u.selectedSkybox)
    requires e.kind == Camera.KeyUp && (e.key == Camera.KeyH || e.key == Camera.KeyN)
    ensures EventUi(EventUi(u, e), e) == u
  {
  }

  /** event() applied to each event in turn. */
  function RunEvents(u: Ui, events: seq<Camera.Event>): (r: Ui)
    requires IsU32(u.selectedSkybox)
    ensures IsU32(r.selectedSkybox)
    decreases |events|
  {
    if events == [] then u
    else
      var before := RunEvents(u, events[..|events| - 1]);
      EventUiFrame(before, events[|events| - 1]);
      EventUi(before, events[|events| - 1])
  }

  /** A release of the T key. */
  predicate IsTRelease(e: Camera.Event)
  {
    e.kind == Camera.KeyUp && e.key == Camera.KeyT
  }

  /** The very first T release after init leaves the skybox slots. */
  lemma FirstTReleaseLeavesRange(e: Camera.Event)
    requires IsTRelease(e)
    ensures RunEvents(InitUi, [e]).selectedSkybox == 4294967295
    ensures RunEvents(InitUi, [e]).selectedSkybox > SkyboxCount
  {
    assert [e][..0] == [];
  }

  /** event() with the T key as intended: it wraps from 0 to EV_SKYBOX_COUNT. */
  function EventUiIntended(u: Ui, e: Camera.Event): (r: Ui)
    requires IsU32(u.selectedSkybox)
    ensures IsU32(r.selectedSkybox)
  {
    var written := EventUi(u, e);
    EventUiFrame(u, e);
    if IsTRelease(e) then written.(selectedSkybox := SkyboxPrev(u.selectedSkybox)) else written
  }

  /** The intended event() differs from the written one only on a T release
      at skybox 0, and only in the selection. */
  lemma EventUiIntendedDiffersOnlyAtZero(u: Ui, e: Camera.Event)
    requires IsU32(u.selectedSkybox)
    ensures EventUiIntended(u, e) == EventUi(u, e) <==> !(IsTRelease(e) && u.selectedSkybox == 0)
    ensures EventUiIntended(u, e) == EventUi(u, e).(selectedSkybox := EventUiIntended(u, e).selectedSkybox)
  {
    if IsTRelease(e) && u.selectedSkybox == 0 {
      assert EventUiIntended(u, e).selectedSkybox == SkyboxCount;
      assert EventUi(u, e).selectedSkybox == U32 - 1;
    }
  }

  /** The intended event() applied to each event in turn. */
  function RunEventsIntended(u: Ui, events: seq<Camera.Event>): (r: Ui)
    requires IsU32(u.selectedSkybox)
    ensures IsU32(r.selectedSkybox)
    decreases |events|
  {
    if events == [] then u
    else EventUiIntended(RunEventsIntended(u, events[..|events| - 1]), events[|events| - 1])
  }

  /** With the intended T key, from a valid skybox index, any run of events
      keeps the selection valid, and first_mouse, false after init, stays
      false. */
  lemma {:induction false} RunEventsInvariant(u: Ui, events: seq<Camera.Event>)
    requires 0 <= u.selectedSkybox <= SkyboxCount && !u.firstMouse
    ensures var r := RunEventsIntended(u, events);
            0 <= r.selectedSkybox <= SkyboxCount && !r.firstMouse
    decreases |events|
  {
    if events != [] {
      var prefix := events[..|events| - 1];
      RunEventsInvariant(u, prefix);
      var before := RunEventsIntended(u, prefix);
      var e := events[|events| - 1];
      EventUiFrame(before, e);
      if e.kind == Camera.KeyUp && e.key == Camera.KeyR {
        assert 0 <= SkyboxNext(before.selectedSkybox) <= SkyboxCount;
      } else if IsTRelease(e) {
        assert 0 <= SkyboxPrev(before.selectedSkybox) <= SkyboxCount;
      }
    }
  }

  /** A run in which no T release finds skybox 0 is the same under the
      written and the intended event(): the bug shows only there. */
  lemma {:induction false} RunEventsAgreeAwayFromZero(u: Ui, events: seq<Camera.Event>)
    requires IsU32(u.selectedSkybox)
    requires forall k :: 0 <= k < |events| && IsTRelease(events[k]) ==>
               RunEvents(u, events[..k]).selectedSkybox != 0
    ensures RunEvents(u, events) == RunEventsIntended(u, events)
    decreases |events|
  {
    if events != [] {
      var n := |events| - 1;
      var prefix := events[..n];
      forall k | 0 <= k < |prefix| && IsTRelease(prefix[k])
        ensures RunEvents(u, prefix[..k]).selectedSkybox != 0
      {
        assert prefix[..k] == events[..k];
      }
      RunEventsAgreeAwayFromZero(u, prefix);
      EventUiIntendedDiffersOnlyAtZero(RunEvents(u, prefix), events[n]);
    }
  }

  /** Since first_mouse is never set, the first mouse move after init is
      measured from (0, 0), and every later one from the previous move. */
  lemma FirstMoveFromOrigin(e: Camera.Event)
    requires e.kind == Camera.MouseMove
    ensures MouseOffset(InitUi, e) == Camera.Vec2(e.mouseX, 0.0 - e.mouseY)
  {
  }

  // ---------------------------------------------------------------------
  // Fetches
  // ---------------------------------------------------------------------

  /** The callback a fetch reports to, with the record it updates. */
  datatype Target = ArrayTexPart(arrayReq: ArrayTexRequest) | CubemapFace(cubeReq: CubemapRequest)

  /** One sfetch_send: the path, the callback and its record, the slice
      `[start, start + size)` of `buffer` the bytes land in, and the part
      index handed to the callback. */
  datatype FetchSend = FetchSend(path: string, target: Target, buffer: array<bv8>,
                                 start: int, size: int, index: int)

  /** arraytex_request_t, with the texture_buffer_ptr field that
      load_array_texture reads. */
  datatype ArrayTexLoad = ArrayTexLoad(paths: seq<string>, imgId: int, buffer: array<bv8>,
                                       textureBuffer: array<bv8>, bufferOffset: int)

  /** cubemap_request_t. */
  datatype CubemapLoad = CubemapLoad(pathRight: string, pathLeft: string, pathUp: string,
                                     pathDown: string, pathFront: string, pathBack: string,
                                     imgId: int, buffer: array<bv8>, bufferOffset: int)

  /** The face paths in the order load_cubemap sends them, which is the
      order of the cube's faces: right, left, up, down, front, back. */
  function FacePaths(request: CubemapLoad): (paths: seq<string>)
    ensures |paths| == PartCount
    ensures paths[0] == request.pathRight && paths[1] == request.pathLeft
    ensures paths[2] == request.pathUp && paths[3] == request.pathDown
    ensures paths[4] == request.pathFront && paths[5] == request.pathBack
  {
    [request.pathRight, request.pathLeft, request.pathUp,
     request.pathDown, request.pathFront, request.pathBack]
  }

  /** The fetches of one multi-part request: part i, from paths[i], into the
      i-th slice of `offset` bytes. */
  function PartSends(paths: seq<string>, target: Target, buffer: array<bv8>, offset: int): (sends: seq<FetchSend>)
    requires |paths| == PartCount
    ensures |sends| == PartCount
  {
    seq(PartCount, i requires 0 <= i < PartCount =>
      FetchSend(paths[i], target, buffer, i * offset, offset, i))
  }

  /** The slices of the sends are inside the first PartCount slices of the
      buffer and pairwise disjoint, and each send carries its own part index
      and path, so the callback of part i records the size of the bytes that
      landed in slice i. */
  lemma {:induction false} PartSendsTile(paths: seq<string>, target: Target, buffer: array<bv8>, offset: int)
    requires |paths| == PartCount && 0 <= offset
    ensures var sends := PartSends(paths, target, buffer, offset);
            && (forall i :: 0 <= i < PartCount ==>
                  && sends[i].index == i && sends[i].path == paths[i] && sends[i].size == offset
                  && 0 <= sends[i].start && sends[i].start + sends[i].size <= PartCount * offset)
            && (forall i, j :: 0 <= i < j < PartCount ==> sends[i].start + sends[i].size <= sends[j].start)
  {
    var sends := PartSends(paths, target, buffer, offset);
    forall i | 0 <= i < PartCount
      ensures 0 <= sends[i].start && sends[i].start + sends[i].size <= PartCount * offset
    {
      SliceBounds(i, offset);
    }
    forall i, j | 0 <= i < j < PartCount
      ensures sends[i].start + sends[i].size <= sends[j].start
    {
      SliceOrder(i, j, offset);
    }
  }

  /** Slice i ends where slice i + 1 begins, so it ends before any later
      slice begins. */
  lemma {:induction false} SliceOrder(i: int, j: int, offset: int)
    requires 0 <= i < j && 0 <= offset
    ensures i * offset + offset <= j * offset
    decreases j - i
  {
    assert j * offset == (j - 1) * offset + offset;
    if j - 1 > i {
      SliceOrder(i, j - 1, offset);
    }
  }

  /** A fetch of `data` into the slice of one send: the slice's bytes are
      replaced and nothing else. */
  function Land(buf: seq<bv8>, send: FetchSend, data: seq<bv8>): (r: seq<bv8>)
    requires 0 <= send.start && send.start + |data| <= |buf|
    ensures |r| == |buf|
    ensures forall k :: 0 <= k < |data| ==> r[send.start + k] == data[k]
    ensures forall k :: 0 <= k < |buf| && !(send.start <= k < send.start + |data|) ==> r[k] == buf[k]
  {
    buf[..send.start] + data + buf[send.start + |data|..]
  }

  /** A fetch for part i that brings at most a slice's worth of bytes lands
      exactly where the finalize step of the loaders decodes part i from,
      and leaves every other part's bytes as they were. */
  lemma {:induction false} LandedPartIsDecoded(paths: seq<string>, target: Target, buffer: array<bv8>, offset: int,
                                               buf: seq<bv8>, sizes: seq<int>, i: int, data: seq<bv8>)
    requires |paths| == PartCount && 0 <= offset && PartCount * offset <= |buf|
    requires SizesInSlices(sizes, offset) && 0 <= i < PartCount && |data| <= offset
    ensures var send := PartSends(paths, target, buffer, offset)[i];
            var sizes' := sizes[i := |data|];
            && 0 <= send.start && send.start + |data| <= |buf|
            && SizesInSlices(sizes', offset)
            && PartBytes(Land(buf, send, data), offset, sizes', i) == data
            && forall j :: 0 <= j < PartCount && j != i ==>
                 PartBytes(Land(buf, send, data), offset, sizes', j) == PartBytes(buf, offset, sizes, j)
  {
    var sends := PartSends(paths, target, buffer, offset);
    PartSendsTile(paths, target, buffer, offset);
    var send := sends[i];
    var sizes' := sizes[i := |data|];
    var landed := Land(buf, send, data);
    SliceBounds(i, offset);
    forall j | 0 <= j < PartCount && j != i
      ensures PartBytes(landed, offset, sizes', j) == PartBytes(buf, offset, sizes, j)
    {
      SliceBounds(j, offset);
      if j < i {
        SliceOrder(j, i, offset);
      } else {
        SliceOrder(i, j, offset);
      }
      var a := PartBytes(landed, offset, sizes', j);
      var b := PartBytes(buf, offset, sizes, j);
      assert |a| == |b|;
      forall k | 0 <= k < |a|
        ensures a[k] == b[k]
      {
        assert a[k] == landed[j * offset + k];
      }
    }
    var p := PartBytes(landed, offset, sizes', i);
    assert |p| == |data|;
    forall k | 0 <= k < |p|
      ensures p[k] == data[k]
    {
      assert p[k] == landed[i * offset + k];
    }
  }

  // ---------------------------------------------------------------------
  // The application state
  // ---------------------------------------------------------------------

  /** The parts of main.c's `state` that the model keeps. */
  class AppState {
    var selectedSkybox: int
    var showDebugUi: bool
    var showMemUi: bool
    var firstMouse: bool
    var lastMouse: Camera.Vec2
    var quitRequested: bool
    /** The clear colour of pass_action. */
    var clearColor: Color
    const cam: Camera.Camera
    /** state.arraytex_req. */
    var arraytexReq: ArrayTexRequest?
    /** state.cubemap_req, one slot per skybox and one more. */
    const cubemapReqs: array<CubemapRequest?>
    /** Every sfetch_send so far, oldest first. */
    var sends: seq<FetchSend>

    /** ARRAYTEX_IMAGE_WIDTH, ARRAYTEX_IMAGE_HEIGHT,
        ARRAYTEX_ARRAY_IMAGE_OFFSET and the image decoder. */
    const arrayImageWidth: int
    const arrayImageHeight: int
    const arrayImageOffset: int
    const decode: Decoder

    ghost predicate Valid()
      reads this
    {
      cubemapReqs.Length == SkyboxCount + 1 && IsU32(selectedSkybox) && 0 <= arrayImageOffset
    }

    function UiOf(): Ui
      reads this
    {
      Ui(selectedSkybox, showDebugUi, showMemUi, firstMouse, lastMouse, quitRequested)
    }

    /** `state` after static zero-initialisation and the assignments of
        init: no overlay, skybox 0, a dark grey clear colour. */
    constructor (basisOf: Camera.BasisFn, arrayImageWidth: int, arrayImageHeight: int,
                 arrayImageOffset: int, decode: Decoder)
      requires 0 <= arrayImageOffset
      ensures Valid() && UiOf() == InitUi && clearColor == InitClearColor
      ensures sends == [] && arraytexReq == null && fresh(cubemapReqs) && fresh(cam)
      ensures forall k :: 0 <= k < cubemapReqs.Length ==> cubemapReqs[k] == null
      ensures this.arrayImageWidth == arrayImageWidth && this.arrayImageHeight == arrayImageHeight
      ensures this.arrayImageOffset == arrayImageOffset && this.decode == decode
    {
      selectedSkybox := 0;
      showDebugUi, showMemUi := false, false;
      firstMouse, lastMouse := false, Camera.Vec2(0.0, 0.0);
      quitRequested := false;
      clearColor := InitClearColor;
      cam := new Camera.Camera(basisOf);
      arraytexReq := null;
      cubemapReqs := new CubemapRequest?[SkyboxCount + 1](_ => null);
      sends := [];
      this.arrayImageWidth := arrayImageWidth;
      this.arrayImageHeight := arrayImageHeight;
      this.arrayImageOffset := arrayImageOffset;
      this.decode := decode;
    }

    /** fail_callback: the screen clears to red; nothing else changes. */
    method FailCallback()
      modifies this`clearColor
      ensures clearColor == FailClearColor
    {
      clearColor := FailClearColor;
    }

    /** load_array_texture: a fresh record replaces state.arraytex_req and
        ARRAYTEX_COUNT fetches go out, part i into slice i. */
    method LoadArrayTexture(request: ArrayTexLoad)
      requires |request.paths| == PartCount
      requires request.buffer != request.textureBuffer
      requires 0 <= request.bufferOffset && PartCount * request.bufferOffset <= request.buffer.Length
      requires 0 <= arrayImageOffset
      modifies this`arraytexReq, this`sends
      ensures fresh(arraytexReq) && arraytexReq.Valid()
      ensures arraytexReq.State() == ArrayTexState(FreshRecord, NoEffects, request.textureBuffer[..])
      ensures arraytexReq.Config() == ArrayTexConfig(request.bufferOffset, arrayImageWidth, arrayImageHeight,
                                                     arrayImageOffset, decode)
      ensures arraytexReq.imgId == request.imgId && arraytexReq.buffer == request.buffer
      ensures arraytexReq.textureBuffer == request.textureBuffer
      ensures sends == old(sends) + PartSends(request.paths, ArrayTexPart(arraytexReq), request.buffer, request.bufferOffset)
    {
      var req := new ArrayTexRequest(request.imgId, request.buffer, request.bufferOffset, request.textureBuffer,
                                     arrayImageWidth, arrayImageHeight, arrayImageOffset, decode);
      arraytexReq := req;
      ghost var all := PartSends(request.paths, ArrayTexPart(req), request.buffer, request.bufferOffset);
      for i := 0 to PartCount
        modifies this`sends
        invariant sends == old(sends) + all[..i]
      {
        sends := sends + [FetchSend(request.paths[i], ArrayTexPart(req), request.buffer,
                                    i * request.bufferOffset, request.bufferOffset, i)];
        assert all[..i + 1] == all[..i] + [all[i]];
      }
    }

    /** load_cubemap: a fresh record replaces state.cubemap_req[index] and six
        fetches go out, face i into slice i. */
    method LoadCubemapRequest(request: CubemapLoad, index: int)
      requires Valid()
      requires 0 <= index < cubemapReqs.Length
      requires 0 <= request.bufferOffset && PartCount * request.bufferOffset <= request.buffer.Length
      modifies cubemapReqs, this`sends
      ensures cubemapReqs[index] != null && fresh(cubemapReqs[index])
      ensures var req := cubemapReqs[index];
              && req.Valid() && req.State() == CubemapState(FreshRecord, NoEffects) && req.liveImages == 0
              && req.Config() == CubemapConfig(request.bufferOffset, decode)
              && req.imgId == request.imgId && req.buffer == request.buffer
              && sends == old(sends) + PartSends(FacePaths(request), CubemapFace(req), request.buffer, request.bufferOffset)
      ensures forall k :: 0 <= k < cubemapReqs.Length && k != index ==> cubemapReqs[k] == old(cubemapReqs[k])
    {
      var req := new CubemapRequest(request.imgId, request.buffer, request.bufferOffset, decode);
      cubemapReqs[index] := req;
      var paths := FacePaths(request);
      ghost var all := PartSends(paths, CubemapFace(req), request.buffer, request.bufferOffset);
      for i := 0 to PartCount
        modifies this`sends
        invariant sends == old(sends) + all[..i]
      {
        sends := sends + [FetchSend(paths[i], CubemapFace(req), request.buffer,
                                    i * request.bufferOffset, request.bufferOffset, i)];
        assert all[..i + 1] == all[..i] + [all[i]];
      }
    }

    /** The key and mouse bookkeeping of event(), before the camera sees the
        event; returns the mouse offset. */
    method Bookkeep(e: Camera.Event) returns (offset: Camera.Vec2)
      requires Valid()
      modifies this`selectedSkybox, this`showDebugUi, this`showMemUi, this`firstMouse,
               this`lastMouse, this`quitRequested
      ensures Valid()
      ensures UiOf() == EventUi(old(UiOf()), e)
      ensures offset == MouseOffset(old(UiOf()), e)
    {
      if e.kind == Camera.KeyDown {
        if e.key == Camera.KeyEscape {
          quitRequested := true;
        }
      }
      if e.kind == Camera.KeyUp {
        if e.key == Camera.KeyH {
          showDebugUi := !showDebugUi;
        }
        if e.key == Camera.KeyN {
          showMemUi := !showMemUi;
        }
        if e.key == Camera.KeyR {
          selectedSkybox := (selectedSkybox + 1) % U32;
          if selectedSkybox > SkyboxCount {
            selectedSkybox := 0;
          }
        }
        if e.key == Camera.KeyT {
          // the decrement wraps on uint32_t, so the guard never fires
          var dropped := (selectedSkybox - 1) % U32;
          selectedSkybox := if dropped < 0 then SkyboxCount else dropped;
        }
      }
      offset := Camera.Vec2(0.0, 0.0);
      if e.kind == Camera.MouseMove {
        if !firstMouse {
          offset := Camera.Vec2(e.mouseX - lastMouse.x, lastMouse.y - e.mouseY);
        } else {
          firstMouse := false;
        }
        lastMouse := Camera.Vec2(e.mouseX, e.mouseY);
      }
    }

    /** event(): the bookkeeping, then camera_handle_input with the offset. */
    method Event(e: Camera.Event)
      requires Valid()
      modifies this`selectedSkybox, this`showDebugUi, this`showMemUi, this`firstMouse,
               this`lastMouse, this`quitRequested, cam
      ensures Valid()
      ensures UiOf() == EventUi(old(UiOf()), e)
      ensures cam.State() == Camera.HandleInputSpec(old(cam.State()), e, MouseOffset(old(UiOf()), e), cam.basisOf)
    {
      var offset := Bookkeep(e);
      cam.HandleInput(e, offset);
    }
  }
}
