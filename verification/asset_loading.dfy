/** The multi-part texture loaders of include/asset_loading.h: each of the six
    fetch completions updates one shared record, and the completion that
    brings the count to six decodes, validates and publishes the composite
    image, or reports failure. */
module AssetLoading {
  import opened Types

  // ---------------------------------------------------------------------
  // The record update every fetch callback starts with
  // ---------------------------------------------------------------------

  /** A fetched response stores its size at its own index and counts one
      completion; a failed response marks the request failed and counts one
      completion; a response with neither flag changes nothing. */
  function Receive(r: Record, index: int, resp: Response): (r': Record)
    requires |r.fetchedSizes| == PartCount && 0 <= index < PartCount
    ensures |r'.fetchedSizes| == PartCount
    ensures r'.finished == r.finished + (if resp.fetched || resp.failed then 1 else 0)
    ensures r'.failed == (r.failed || (!resp.fetched && resp.failed))
    ensures r'.fetchedSizes[index] == (if resp.fetched then resp.fetchedSize else r.fetchedSizes[index])
    ensures forall j :: 0 <= j < PartCount && j != index ==> r'.fetchedSizes[j] == r.fetchedSizes[j]
    ensures !resp.fetched && !resp.failed ==> r' == r
  {
    if resp.fetched then
      r.(fetchedSizes := r.fetchedSizes[index := resp.fetchedSize], finished := r.finished + 1)
    else if resp.failed then
      r.(failed := true, finished := r.finished + 1)
    else
      r
  }

  /** The tail of every callback of this revision: exactly one of the two
      application callbacks. */
  function Terminal(failed: bool, fx: Effects): (fx': Effects)
    ensures fx'.failCalls + fx'.successCalls == fx.failCalls + fx.successCalls + 1
    ensures fx'.failCalls == fx.failCalls + (if failed then 1 else 0)
    ensures fx'.initImageCalls == fx.initImageCalls && fx'.published == fx.published
  {
    if failed then fx.(failCalls := fx.failCalls + 1) else fx.(successCalls := fx.successCalls + 1)
  }

  // ---------------------------------------------------------------------
  // Gathering the decoded pixels of an array texture
  // ---------------------------------------------------------------------

  /** sizeof(uint32_t): the texture buffer is addressed in texels of four bytes. */
  const TexelBytes: int := 4

  /** Byte offset of slot i of the texture buffer. */
  function SlotStart(i: int, imageOffset: int): int
  {
    i * imageOffset * TexelBytes
  }

  /** How many bytes the copy of one decoded part moves. */
  function PixelBytes(p: Decoded): int
  {
    p.width * p.height * DesiredChannels
  }

  /** The copy of part i is defined: the decoder returned a pointer, the
      pointer holds the bytes copied, and the destination range lies inside
      the texture buffer. The source copies without checking any of this. */
  ghost predicate PartFits(p: Decoded, i: int, imageOffset: int, texLen: int)
  {
    && p.pixels.Some?
    && 0 <= PixelBytes(p) <= |p.pixels.value|
    && 0 <= SlotStart(i, imageOffset)
    && SlotStart(i, imageOffset) + PixelBytes(p) <= texLen
  }

  ghost predicate AllFit(parts: seq<Decoded>, imageOffset: int, texLen: int)
  {
    forall i :: 0 <= i < |parts| ==> PartFits(parts[i], i, imageOffset, texLen)
  }

  /** The bytes of one decoded part that the copy moves. */
  function Copied(p: Decoded): (r: seq<bv8>)
    requires p.pixels.Some? && 0 <= PixelBytes(p) <= |p.pixels.value|
    ensures |r| == PixelBytes(p)
  {
    p.pixels.value[..PixelBytes(p)]
  }

  /** memcpy into a byte buffer: the window [at, at + |src|) holds `src`,
      every other byte is unchanged. */
  function CopyInto(tex: seq<bv8>, at: int, src: seq<bv8>): (r: seq<bv8>)
    requires 0 <= at && at + |src| <= |tex|
    ensures |r| == |tex|
    ensures forall k :: 0 <= k < |tex| ==> r[k] == (if at <= k < at + |src| then src[k - at] else tex[k])
  {
    tex[..at] + src + tex[at + |src|..]
  }

  /** The texture buffer after the parts have been copied in order, part i
      into slot i. */
  function CopyParts(tex: seq<bv8>, parts: seq<Decoded>, imageOffset: int): (r: seq<bv8>)
    requires AllFit(parts, imageOffset, |tex|)
    ensures |r| == |tex|
    decreases |parts|
  {
    if parts == [] then tex
    else
      var n := |parts| - 1;
      CopyInto(CopyParts(tex, parts[..n], imageOffset), SlotStart(n, imageOffset), Copied(parts[n]))
  }

  /** When every part's pixels fit in its own slot, slot i holds exactly the
      pixels of part i once all parts are copied, whatever the copy order did
      to the other slots. */
  lemma {:induction false} CopyPartsSlot(tex: seq<bv8>, parts: seq<Decoded>, imageOffset: int, i: int, k: int)
    requires AllFit(parts, imageOffset, |tex|)
    requires forall j :: 0 <= j < |parts| ==> PixelBytes(parts[j]) <= imageOffset * TexelBytes
    requires 0 <= i < |parts| && 0 <= k < PixelBytes(parts[i])
    ensures CopyParts(tex, parts, imageOffset)[SlotStart(i, imageOffset) + k] == parts[i].pixels.value[k]
    decreases |parts|
  {
    var n := |parts| - 1;
    var prefix := parts[..n];
    assert AllFit(prefix, imageOffset, |tex|) by {
      forall j | 0 <= j < |prefix| ensures PartFits(prefix[j], j, imageOffset, |tex|) {
        assert prefix[j] == parts[j];
      }
    }
    if i < n {
      SlotsApart(i, n, imageOffset);
      assert prefix[i] == parts[i];
      CopyPartsSlot(tex, prefix, imageOffset, i, k);
    }
  }

  /** Slot i ends before slot j starts when i < j. */
  lemma SlotsApart(i: int, j: int, imageOffset: int)
    requires 0 <= i < j && 0 <= imageOffset
    ensures SlotStart(i, imageOffset) + imageOffset * TexelBytes <= SlotStart(j, imageOffset)
  {
    calc {
      SlotStart(i, imageOffset) + imageOffset * TexelBytes;
      == (i + 1) * imageOffset * TexelBytes;
      <= { MulLe(i + 1, j, imageOffset * TexelBytes); }
      j * (imageOffset * TexelBytes);
      == SlotStart(j, imageOffset);
    }
  }

  lemma MulLe(a: int, b: int, c: int)
    requires a <= b && 0 <= c
    ensures a * c <= b * c
  {
  }

  // ---------------------------------------------------------------------
  // Validation
  // ---------------------------------------------------------------------

  /** Part i passes the array check: same size as part 0 and the fixed
      ARRAYTEX_IMAGE_WIDTH x ARRAYTEX_IMAGE_HEIGHT. */
  predicate ArrayPartMatches(parts: seq<Decoded>, i: int, width: int, height: int)
    requires |parts| == PartCount && 0 <= i < PartCount
  {
    parts[i].width == parts[0].width && parts[i].height == parts[0].height
    && parts[i].width == width && parts[i].height == height
  }

  /** What _load_arraytex accepts. */
  predicate ArrayTexDimsOk(parts: seq<Decoded>, width: int, height: int)
    requires |parts| == PartCount
  {
    && parts[0].height > 0 && parts[0].width > 0
    && forall i :: 1 <= i < PartCount ==> ArrayPartMatches(parts, i, width, height)
  }

  /** The check accepts exactly the case where all six parts, part 0
      included, have the fixed size, and that size is positive. */
  lemma ArrayTexDimsOkMeansFixedSize(parts: seq<Decoded>, width: int, height: int)
    requires |parts| == PartCount
    ensures ArrayTexDimsOk(parts, width, height) <==>
      (width > 0 && height > 0 && forall i :: 0 <= i < PartCount ==> parts[i].width == width && parts[i].height == height)
  {
    if width > 0 && height > 0 && forall i :: 0 <= i < PartCount ==> parts[i].width == width && parts[i].height == height {
      forall i | 1 <= i < PartCount ensures ArrayPartMatches(parts, i, width, height) {
        assert parts[i].width == width && parts[0].width == width;
      }
    }
    if ArrayTexDimsOk(parts, width, height) {
      assert ArrayPartMatches(parts, 1, width, height);
      forall i | 0 <= i < PartCount ensures parts[i].width == width && parts[i].height == height {
        if i > 0 { assert ArrayPartMatches(parts, i, width, height); }
      }
    }
  }

  /** The validation loop of _load_arraytex, with its early exit. */
  method CheckArrayTexDims(parts: seq<Decoded>, width: int, height: int) returns (valid: bool)
    requires |parts| == PartCount
    ensures valid == ArrayTexDimsOk(parts, width, height)
  {
    valid := parts[0].height > 0 && parts[0].width > 0;
    var i := 1;
    while i < PartCount
      invariant 1 <= i <= PartCount
      invariant valid == (parts[0].height > 0 && parts[0].width > 0
                          && forall j :: 1 <= j < i ==> ArrayPartMatches(parts, j, width, height))
    {
      if parts[i].width != parts[0].width || parts[i].height != parts[0].height
         || parts[i].width != width || parts[i].height != height {
        valid := false;
        assert !ArrayPartMatches(parts, i, width, height);
        break;
      }
      i := i + 1;
    }
  }

  /** What _load_cubemap accepts: face 0 is positive and every face has its
      size. There is no fixed size. */
  predicate CubemapDimsOk(parts: seq<Decoded>)
    requires |parts| == PartCount
  {
    && parts[0].height > 0 && parts[0].width > 0
    && forall i :: 1 <= i < PartCount ==> parts[i].width == parts[0].width && parts[i].height == parts[0].height
  }

  /** The validation loop of _load_cubemap, with its early exit. */
  method CheckCubemapDims(parts: seq<Decoded>) returns (valid: bool)
    requires |parts| == PartCount
    ensures valid == CubemapDimsOk(parts)
  {
    valid := parts[0].height > 0 && parts[0].width > 0;
    var i := 1;
    while i < PartCount
      invariant 1 <= i <= PartCount
      invariant valid == (parts[0].height > 0 && parts[0].width > 0
                          && forall j :: 1 <= j < i ==> parts[j].width == parts[0].width && parts[j].height == parts[0].height)
    {
      if parts[i].width != parts[0].width || parts[i].height != parts[0].height {
        valid := false;
        break;
      }
      i := i + 1;
    }
  }

  // ---------------------------------------------------------------------
  // Finalize: _load_arraytex and _load_cubemap as functions
  // ---------------------------------------------------------------------

  /** The fetched bytes can be sliced, and every decoded part can be copied. */
  ghost predicate ArrayLoadable(cfg: ArrayTexConfig, sizes: seq<int>, buf: seq<bv8>, texLen: int)
  {
    && 0 <= cfg.bufferOffset && PartCount * cfg.bufferOffset <= |buf| && 0 <= cfg.arrayImageOffset
    && SizesInSlices(sizes, cfg.bufferOffset)
    && AllFit(DecodeParts(cfg.decode, buf, cfg.bufferOffset, sizes), cfg.arrayImageOffset, texLen)
  }

  datatype Loaded = Loaded(valid: bool, texture: seq<bv8>, effects: Effects)

  /** _load_arraytex: decode and copy every part, then check the sizes, and
      create the array image only if the check passes. */
  function ArrayTexLoad(cfg: ArrayTexConfig, sizes: seq<int>, buf: seq<bv8>, tex: seq<bv8>, fx: Effects): Loaded
    requires ArrayLoadable(cfg, sizes, buf, |tex|)
  {
    var parts := DecodeParts(cfg.decode, buf, cfg.bufferOffset, sizes);
    var valid := ArrayTexDimsOk(parts, cfg.imageWidth, cfg.imageHeight);
    Loaded(valid, CopyParts(tex, parts, cfg.arrayImageOffset),
           if valid then fx.(initImageCalls := fx.initImageCalls + 1,
                             published := Some(ImageDesc(ImageArray, parts[0].width, parts[0].height, PartCount)))
           else fx)
  }

  /** The array image is created exactly when all six parts have the fixed,
      positive size, and then it has that size and ARRAYTEX_COUNT slices;
      the pixels are gathered whether or not the check passes. */
  lemma ArrayTexLoadPublishes(cfg: ArrayTexConfig, sizes: seq<int>, buf: seq<bv8>, tex: seq<bv8>, fx: Effects)
    requires ArrayLoadable(cfg, sizes, buf, |tex|)
    ensures var out := ArrayTexLoad(cfg, sizes, buf, tex, fx);
            var parts := DecodeParts(cfg.decode, buf, cfg.bufferOffset, sizes);
            && (out.valid <==> cfg.imageWidth > 0 && cfg.imageHeight > 0
                               && forall i :: 0 <= i < PartCount ==> parts[i].width == cfg.imageWidth && parts[i].height == cfg.imageHeight)
            && out.effects.initImageCalls == fx.initImageCalls + (if out.valid then 1 else 0)
            && out.effects.published == (if out.valid then Some(ImageDesc(ImageArray, cfg.imageWidth, cfg.imageHeight, PartCount)) else fx.published)
            && out.effects.failCalls == fx.failCalls && out.effects.successCalls == fx.successCalls
            && out.texture == CopyParts(tex, parts, cfg.arrayImageOffset)
  {
    var parts := DecodeParts(cfg.decode, buf, cfg.bufferOffset, sizes);
    ArrayTexDimsOkMeansFixedSize(parts, cfg.imageWidth, cfg.imageHeight);
  }

  /** _load_cubemap: decode the six faces, check their sizes, create the cube
      image only if the check passes, and free every decoded face. */
  function CubemapLoad(cfg: CubemapConfig, sizes: seq<int>, buf: seq<bv8>, fx: Effects): (bool, Effects)
    requires 0 <= cfg.bufferOffset && PartCount * cfg.bufferOffset <= |buf| && SizesInSlices(sizes, cfg.bufferOffset)
  {
    var parts := DecodeParts(cfg.decode, buf, cfg.bufferOffset, sizes);
    var valid := CubemapDimsOk(parts);
    (valid, if valid then fx.(initImageCalls := fx.initImageCalls + 1,
                              published := Some(ImageDesc(ImageCube, parts[0].width, parts[0].height, PartCount)))
            else fx)
  }

  // ---------------------------------------------------------------------
  // One callback, as a function of the request's state
  // ---------------------------------------------------------------------

  /** The call is well formed: the index names a part, a fetched size lies
      within its slice, and when this call finalizes a request that has not
      failed, every part can be copied. */
  ghost predicate ArrayTexStepOk(cfg: ArrayTexConfig, s: ArrayTexState, index: int, resp: Response, buf: seq<bv8>)
  {
    && 0 <= cfg.bufferOffset && PartCount * cfg.bufferOffset <= |buf| && 0 <= cfg.arrayImageOffset
    && SizesInSlices(s.record.fetchedSizes, cfg.bufferOffset)
    && 0 <= index < PartCount
    && (resp.fetched ==> 0 <= resp.fetchedSize <= cfg.bufferOffset)
    && var r := Receive(s.record, index, resp);
       (r.finished == PartCount && !r.failed ==>
          AllFit(DecodeParts(cfg.decode, buf, cfg.bufferOffset, r.fetchedSizes), cfg.arrayImageOffset, |s.texture|))
  }

  /** arraytex_fetch_callback. */
  function ArrayTexStep(cfg: ArrayTexConfig, s: ArrayTexState, index: int, resp: Response, buf: seq<bv8>): ArrayTexState
    requires ArrayTexStepOk(cfg, s, index, resp, buf)
  {
    var s1 := s.(record := Receive(s.record, index, resp));
    if s1.record.finished == PartCount then ArrayTexFinish(cfg, s1, buf) else s1
  }

  /** The terminal block of arraytex_fetch_callback, entered once the count
      is six: load unless a part failed, then report the outcome. */
  function ArrayTexFinish(cfg: ArrayTexConfig, s: ArrayTexState, buf: seq<bv8>): ArrayTexState
    requires !s.record.failed ==> ArrayLoadable(cfg, s.record.fetchedSizes, buf, |s.texture|)
  {
    if s.record.failed then
      s.(effects := Terminal(true, s.effects))
    else
      var out := ArrayTexLoad(cfg, s.record.fetchedSizes, buf, s.texture, s.effects);
      ArrayTexState(s.record.(failed := !out.valid), Terminal(!out.valid, out.effects), out.texture)
  }

  /** Once failed, an array request stays failed, never creates an image,
      never reports success and never touches the texture buffer. */
  lemma ArrayTexFailedIsSticky(cfg: ArrayTexConfig, s: ArrayTexState, index: int, resp: Response, buf: seq<bv8>)
    requires ArrayTexStepOk(cfg, s, index, resp, buf)
    requires s.record.failed || (!resp.fetched && resp.failed)
    ensures var s' := ArrayTexStep(cfg, s, index, resp, buf);
            && s'.record.failed
            && s'.effects.initImageCalls == s.effects.initImageCalls
            && s'.effects.successCalls == s.effects.successCalls
            && s'.effects.published == s.effects.published
            && s'.texture == s.texture
  {
  }

  /** The check is level-triggered: a callback with neither flag on a
      request that already counts six completions runs finalize again. */
  lemma ArrayTexRefinalizes(cfg: ArrayTexConfig, s: ArrayTexState, index: int, resp: Response, buf: seq<bv8>)
    requires ArrayTexStepOk(cfg, s, index, resp, buf)
    requires s.record.finished == PartCount && !resp.fetched && !resp.failed
    ensures var s' := ArrayTexStep(cfg, s, index, resp, buf);
            s'.effects.failCalls + s'.effects.successCalls == s.effects.failCalls + s.effects.successCalls + 1
  {
  }

  /** A completion beyond the sixth counts but finalizes nothing. */
  lemma ArrayTexLateCompletionIsQuiet(cfg: ArrayTexConfig, s: ArrayTexState, index: int, resp: Response, buf: seq<bv8>)
    requires ArrayTexStepOk(cfg, s, index, resp, buf)
    requires s.record.finished >= PartCount && (resp.fetched || resp.failed)
    ensures var s' := ArrayTexStep(cfg, s, index, resp, buf);
            s'.record.finished == s.record.finished + 1 && s'.effects == s.effects && s'.texture == s.texture
  {
  }

  /** The call is well formed for the cubemap callback. */
  ghost predicate CubemapStepOk(cfg: CubemapConfig, s: CubemapState, index: int, resp: Response, buf: seq<bv8>)
  {
    && 0 <= cfg.bufferOffset && PartCount * cfg.bufferOffset <= |buf|
    && SizesInSlices(s.record.fetchedSizes, cfg.bufferOffset)
    && 0 <= index < PartCount
    && (resp.fetched ==> 0 <= resp.fetchedSize <= cfg.bufferOffset)
  }

  /** cubemap_fetch_callback of this revision. */
  function CubemapStep(cfg: CubemapConfig, s: CubemapState, index: int, resp: Response, buf: seq<bv8>): CubemapState
    requires CubemapStepOk(cfg, s, index, resp, buf)
  {
    var s1 := s.(record := Receive(s.record, index, resp));
    if s1.record.finished == PartCount then CubemapFinish(cfg, s1, buf) else s1
  }

  /** The terminal block of cubemap_fetch_callback of this revision. */
  function CubemapFinish(cfg: CubemapConfig, s: CubemapState, buf: seq<bv8>): CubemapState
    requires 0 <= cfg.bufferOffset && PartCount * cfg.bufferOffset <= |buf|
    requires SizesInSlices(s.record.fetchedSizes, cfg.bufferOffset)
  {
    if s.record.failed then
      s.(effects := Terminal(true, s.effects))
    else
      var (valid, fx) := CubemapLoad(cfg, s.record.fetchedSizes, buf, s.effects);
      CubemapState(s.record.(failed := !valid), Terminal(!valid, fx))
  }

  /** Once failed, a cubemap request stays failed, creates no image and
      never reports success. */
  lemma CubemapFailedIsSticky(cfg: CubemapConfig, s: CubemapState, index: int, resp: Response, buf: seq<bv8>)
    requires CubemapStepOk(cfg, s, index, resp, buf)
    requires s.record.failed || (!resp.fetched && resp.failed)
    ensures var s' := CubemapStep(cfg, s, index, resp, buf);
            && s'.record.failed
            && s'.effects.initImageCalls == s.effects.initImageCalls
            && s'.effects.successCalls == s.effects.successCalls
  {
  }

  // ---------------------------------------------------------------------
  // Six completions, in any order
  // ---------------------------------------------------------------------

  /** One callback invocation: the part index carried in user_data and the
      response. */
  datatype Call = Call(index: int, resp: Response)

  predicate Completes(c: Call)
  {
    c.resp.fetched || c.resp.failed
  }

  predicate ReportsFailure(c: Call)
  {
    !c.resp.fetched && c.resp.failed
  }

  ghost predicate CallsOk(calls: seq<Call>, offset: int)
  {
    forall k :: 0 <= k < |calls| ==>
      0 <= calls[k].index < PartCount && (calls[k].resp.fetched ==> 0 <= calls[k].resp.fetchedSize <= offset)
  }

  /** No later call names the same part as call k. */
  ghost predicate LastFor(calls: seq<Call>, k: int)
    requires 0 <= k < |calls|
  {
    forall j :: k < j < |calls| ==> calls[j].index != calls[k].index
  }

  /** The record after a sequence of callbacks, ignoring finalize. */
  function ReceiveAll(r: Record, calls: seq<Call>, offset: int): (r': Record)
    requires SizesInSlices(r.fetchedSizes, offset) && CallsOk(calls, offset)
    ensures SizesInSlices(r'.fetchedSizes, offset)
    ensures (forall k :: 0 <= k < |calls| ==> Completes(calls[k])) ==> r'.finished == r.finished + |calls|
    ensures r'.failed <==> r.failed || exists k :: 0 <= k < |calls| && ReportsFailure(calls[k])
    decreases |calls|
  {
    if calls == [] then r
    else
      var n := |calls| - 1;
      assert CallsOk(calls[..n], offset) by {
        forall k | 0 <= k < n ensures calls[..n][k] == calls[k] { }
      }
      var prev := ReceiveAll(r, calls[..n], offset);
      assert (exists k :: 0 <= k < |calls| && ReportsFailure(calls[k])) <==>
             (exists k :: 0 <= k < n && ReportsFailure(calls[..n][k])) || ReportsFailure(calls[n]) by {
        if exists k :: 0 <= k < |calls| && ReportsFailure(calls[k]) {
          var k :| 0 <= k < |calls| && ReportsFailure(calls[k]);
          if k < n { assert calls[..n][k] == calls[k]; }
        }
      }
      assert (forall k :: 0 <= k < |calls| ==> Completes(calls[k])) ==>
             (forall k :: 0 <= k < n ==> Completes(calls[..n][k]));
      Receive(prev, calls[n].index, calls[n].resp)
  }

  /** The last fetched response for a part is the size the record holds. */
  lemma {:induction false} ReceiveAllKeepsLastSize(r: Record, calls: seq<Call>, offset: int, k: int)
    requires SizesInSlices(r.fetchedSizes, offset) && CallsOk(calls, offset)
    requires 0 <= k < |calls| && calls[k].resp.fetched && LastFor(calls, k)
    ensures ReceiveAll(r, calls, offset).fetchedSizes[calls[k].index] == calls[k].resp.fetchedSize
    decreases |calls|
  {
    var n := |calls| - 1;
    var prefix := calls[..n];
    assert CallsOk(prefix, offset) by {
      forall j | 0 <= j < n ensures prefix[j] == calls[j] { }
    }
    if k < n {
      assert prefix[k] == calls[k];
      assert LastFor(prefix, k) by {
        forall j | k < j < n ensures prefix[j].index != prefix[k].index {
          assert prefix[j] == calls[j];
        }
      }
      ReceiveAllKeepsLastSize(r, prefix, offset, k);
      assert calls[n].index != calls[k].index;
    }
  }

  lemma PrefixCallsOk(calls: seq<Call>, offset: int, k: int)
    requires CallsOk(calls, offset) && 0 <= k <= |calls|
    ensures CallsOk(calls[..k], offset)
    ensures (forall j :: 0 <= j < |calls| ==> Completes(calls[j])) ==> (forall j :: 0 <= j < k ==> Completes(calls[..k][j]))
  {
    forall j | 0 <= j < k ensures calls[..k][j] == calls[j] { }
  }

  /** The record after the first k calls, before any finalize. */
  function Received(calls: seq<Call>, k: int, offset: int): (r: Record)
    requires CallsOk(calls, offset) && 0 <= offset && 0 <= k <= |calls|
    ensures SizesInSlices(r.fetchedSizes, offset)
  {
    PrefixCallsOk(calls, offset, k);
    ReceiveAll(FreshRecord, calls[..k], offset)
  }

  /** Call k of a run of six completions leaves an array request quiet. */
  ghost predicate ArrayTexQuietStep(cfg: ArrayTexConfig, calls: seq<Call>, k: int, buf: seq<bv8>, tex: seq<bv8>)
    requires CallsOk(calls, cfg.bufferOffset) && 0 <= cfg.bufferOffset && 0 <= k < |calls|
  {
    var s := ArrayTexState(Received(calls, k, cfg.bufferOffset), NoEffects, tex);
    && ArrayTexStepOk(cfg, s, calls[k].index, calls[k].resp, buf)
    && ArrayTexStep(cfg, s, calls[k].index, calls[k].resp, buf)
       == ArrayTexState(Received(calls, k + 1, cfg.bufferOffset), NoEffects, tex)
  }

  /** Receiving call k after the first k calls gives the first k + 1. */
  lemma ReceivedNext(calls: seq<Call>, k: int, offset: int)
    requires CallsOk(calls, offset) && 0 <= offset && 0 <= k < |calls|
    ensures Received(calls, k + 1, offset) == Receive(Received(calls, k, offset), calls[k].index, calls[k].resp)
  {
    PrefixCallsOk(calls, offset, k + 1);
    assert calls[..k + 1][..k] == calls[..k];
  }

  /** After k completions from a fresh record, k parts are counted. */
  lemma ReceivedCount(calls: seq<Call>, k: int, offset: int)
    requires CallsOk(calls, offset) && 0 <= offset && 0 <= k <= |calls|
    requires forall j :: 0 <= j < |calls| ==> Completes(calls[j])
    ensures Received(calls, k, offset).finished == k
  {
    PrefixCallsOk(calls, offset, k);
  }

  /** Six completions of an array request, each fetched or failed, for any
      parts and in any order: the first five leave it quiet, and the sixth
      runs finalize once, which fires exactly one of fail_callback and
      success_callback. Success, and the creation of the array image,
      happen exactly when no part failed and all six decoded parts have the
      fixed size. The pixels are gathered only when no part failed. */
  lemma {:induction false} ArrayTexSixCompletions(cfg: ArrayTexConfig, calls: seq<Call>, buf: seq<bv8>, tex: seq<bv8>)
    requires 0 <= cfg.bufferOffset && PartCount * cfg.bufferOffset <= |buf| && 0 <= cfg.arrayImageOffset
    requires |calls| == PartCount && CallsOk(calls, cfg.bufferOffset)
    requires forall k :: 0 <= k < |calls| ==> Completes(calls[k])
    requires var r := Received(calls, PartCount, cfg.bufferOffset);
             !r.failed ==> AllFit(DecodeParts(cfg.decode, buf, cfg.bufferOffset, r.fetchedSizes), cfg.arrayImageOffset, |tex|)
    ensures forall k :: 0 <= k < PartCount - 1 ==> ArrayTexQuietStep(cfg, calls, k, buf, tex)
    ensures ArrayTexStepOk(cfg, ArrayTexState(Received(calls, PartCount - 1, cfg.bufferOffset), NoEffects, tex),
                           calls[PartCount - 1].index, calls[PartCount - 1].resp, buf)
    ensures var last := calls[PartCount - 1];
            var fin := ArrayTexStep(cfg, ArrayTexState(Received(calls, PartCount - 1, cfg.bufferOffset), NoEffects, tex),
                                    last.index, last.resp, buf);
            var r := Received(calls, PartCount, cfg.bufferOffset);
            var parts := DecodeParts(cfg.decode, buf, cfg.bufferOffset, r.fetchedSizes);
            && fin.record.finished == PartCount
            && fin.effects.failCalls + fin.effects.successCalls == 1
            && fin.effects.initImageCalls == fin.effects.successCalls
            && (fin.effects.successCalls == 1 <==> !r.failed && ArrayTexDimsOk(parts, cfg.imageWidth, cfg.imageHeight))
            && (fin.effects.successCalls == 1 ==>
                  fin.effects.published == Some(ImageDesc(ImageArray, cfg.imageWidth, cfg.imageHeight, PartCount)))
            && fin.texture == (if r.failed then tex else CopyParts(tex, parts, cfg.arrayImageOffset))
  {
    var off := cfg.bufferOffset;
    forall k | 0 <= k < PartCount - 1 ensures ArrayTexQuietStep(cfg, calls, k, buf, tex) {
      ReceivedCount(calls, k, off);
      ReceivedNext(calls, k, off);
      ReceivedCount(calls, k + 1, off);
    }
    ReceivedCount(calls, PartCount, off);
    ReceivedNext(calls, PartCount - 1, off);
    var r := Received(calls, PartCount, off);
    if !r.failed {
      ArrayTexLoadPublishes(cfg, r.fetchedSizes, buf, tex, NoEffects);
    }
  }

  /** Call k of a run of six completions leaves a cubemap request quiet. */
  ghost predicate CubemapQuietStep(cfg: CubemapConfig, calls: seq<Call>, k: int, buf: seq<bv8>)
    requires CallsOk(calls, cfg.bufferOffset) && 0 <= cfg.bufferOffset && 0 <= k < |calls|
  {
    var s := CubemapState(Received(calls, k, cfg.bufferOffset), NoEffects);
    && CubemapStepOk(cfg, s, calls[k].index, calls[k].resp, buf)
    && CubemapStep(cfg, s, calls[k].index, calls[k].resp, buf)
       == CubemapState(Received(calls, k + 1, cfg.bufferOffset), NoEffects)
  }

  /** Six completions of a cubemap request, in any order: quiet until the
      sixth, which fires exactly one terminal callback; success, and the cube
      image with face 0's size, exactly when no face failed and all six
      faces have face 0's positive size. */
  lemma {:induction false} CubemapSixCompletions(cfg: CubemapConfig, calls: seq<Call>, buf: seq<bv8>)
    requires 0 <= cfg.bufferOffset && PartCount * cfg.bufferOffset <= |buf|
    requires |calls| == PartCount && CallsOk(calls, cfg.bufferOffset)
    requires forall k :: 0 <= k < |calls| ==> Completes(calls[k])
    ensures forall k :: 0 <= k < PartCount - 1 ==> CubemapQuietStep(cfg, calls, k, buf)
    ensures CubemapStepOk(cfg, CubemapState(Received(calls, PartCount - 1, cfg.bufferOffset), NoEffects),
                          calls[PartCount - 1].index, calls[PartCount - 1].resp, buf)
    ensures var last := calls[PartCount - 1];
            var fin := CubemapStep(cfg, CubemapState(Received(calls, PartCount - 1, cfg.bufferOffset), NoEffects),
                                   last.index, last.resp, buf);
            var r := Received(calls, PartCount, cfg.bufferOffset);
            var parts := DecodeParts(cfg.decode, buf, cfg.bufferOffset, r.fetchedSizes);
            && fin.record.finished == PartCount
            && fin.effects.failCalls + fin.effects.successCalls == 1
            && fin.effects.initImageCalls == fin.effects.successCalls
            && (fin.effects.successCalls == 1 <==> !r.failed && CubemapDimsOk(parts))
            && (fin.effects.successCalls == 1 ==>
                  fin.effects.published == Some(ImageDesc(ImageCube, parts[0].width, parts[0].height, PartCount)))
  {
    var off := cfg.bufferOffset;
    forall k | 0 <= k < PartCount - 1 ensures CubemapQuietStep(cfg, calls, k, buf) {
      ReceivedCount(calls, k, off);
      ReceivedNext(calls, k, off);
      ReceivedCount(calls, k + 1, off);
    }
    ReceivedCount(calls, PartCount, off);
    ReceivedNext(calls, PartCount - 1, off);
  }

  // ---------------------------------------------------------------------
  // The imperative routines, proved against the functions above
  // ---------------------------------------------------------------------

  /** memcpy of `src` into `dst` at `at`. */
  method CopyPixels(dst: array<bv8>, at: int, src: seq<bv8>)
    requires 0 <= at && at + |src| <= dst.Length
    modifies dst
    ensures dst[..] == CopyInto(old(dst[..]), at, src)
  {
    forall k | 0 <= k < |src| {
      dst[at + k] := src[k];
    }
    assert forall k :: 0 <= k < dst.Length ==> dst[..][k] == CopyInto(old(dst[..]), at, src)[k];
  }

  lemma PrefixFits(parts: seq<Decoded>, i: int, imageOffset: int, texLen: int)
    requires AllFit(parts, imageOffset, texLen) && 0 <= i <= |parts|
    ensures AllFit(parts[..i], imageOffset, texLen)
  {
    forall j | 0 <= j < i ensures parts[..i][j] == parts[j] { }
  }

  /** Copying part i on top of the first i copies is the copy of the first
      i + 1 parts. */
  lemma CopyPartsNext(tex: seq<bv8>, parts: seq<Decoded>, imageOffset: int, i: int)
    requires AllFit(parts, imageOffset, |tex|) && 0 <= i < |parts|
    ensures AllFit(parts[..i], imageOffset, |tex|) && AllFit(parts[..i + 1], imageOffset, |tex|)
    ensures CopyParts(tex, parts[..i + 1], imageOffset)
            == CopyInto(CopyParts(tex, parts[..i], imageOffset), SlotStart(i, imageOffset), Copied(parts[i]))
  {
    PrefixFits(parts, i, imageOffset, |tex|);
    PrefixFits(parts, i + 1, imageOffset, |tex|);
    assert parts[..i + 1][..i] == parts[..i];
  }

  /** The first loop of _load_arraytex: part i is decoded from its slice of
      the fetch buffer, its pixels are copied to slot i of the texture buffer
      and then freed. */
  method GatherParts(req: ArrayTexRequest) returns (parts: seq<Decoded>)
    requires req.Valid()
    requires ArrayLoadable(req.Config(), req.fetchedSizes[..], req.buffer[..], req.textureBuffer.Length)
    modifies req.textureBuffer
    ensures parts == DecodeParts(req.decode, req.buffer[..], req.bufferOffset, req.fetchedSizes[..])
    ensures AllFit(parts, req.arrayImageOffset, req.textureBuffer.Length)
    ensures req.textureBuffer[..] == CopyParts(old(req.textureBuffer[..]), parts, req.arrayImageOffset)
  {
    var tex, off := req.textureBuffer, req.arrayImageOffset;
    var buf, sizes := req.buffer[..], req.fetchedSizes[..];
    ghost var tex0 := tex[..];
    ghost var all := DecodeParts(req.decode, buf, req.bufferOffset, sizes);
    parts := [];
    for i := 0 to PartCount
      invariant parts == all[..i]
      invariant AllFit(parts, off, |tex0|)
      invariant tex[..] == CopyParts(tex0, parts, off)
    {
      var part := req.decode(PartBytes(buf, req.bufferOffset, sizes, i));
      CopyPartsNext(tex0, all, off, i);
      CopyPixels(tex, SlotStart(i, off), Copied(part));
      // stbi_image_free(part)
      parts := parts + [part];
    }
    assert parts == all;
  }

  /** _load_arraytex: gathers the six parts into the texture buffer, then
      runs the check and creates the image only if it passes. */
  method LoadArrayTex(req: ArrayTexRequest) returns (valid: bool)
    requires req.Valid()
    requires ArrayLoadable(req.Config(), req.fetchedSizes[..], req.buffer[..], req.textureBuffer.Length)
    modifies req`effects, req.textureBuffer
    ensures var out := ArrayTexLoad(req.Config(), old(req.fetchedSizes[..]), old(req.buffer[..]),
                                    old(req.textureBuffer[..]), old(req.effects));
            valid == out.valid && req.textureBuffer[..] == out.texture && req.effects == out.effects
  {
    var parts := GatherParts(req);
    valid := CheckArrayTexDims(parts, req.imageWidth, req.imageHeight);
    if valid {
      req.effects := req.effects.(initImageCalls := req.effects.initImageCalls + 1,
                                  published := Some(ImageDesc(ImageArray, parts[0].width, parts[0].height, PartCount)));
    }
  }

  /** arraytex_fetch_callback. The caller hands in the record the
      response's user_data points at. */
  method ArrayTexFetchCallback(req: ArrayTexRequest, index: int, resp: Response)
    requires req.Valid()
    requires ArrayTexStepOk(req.Config(), req.State(), index, resp, req.buffer[..])
    modifies req, req.fetchedSizes, req.textureBuffer
    ensures req.Valid()
    ensures req.State() == ArrayTexStep(req.Config(), old(req.State()), index, resp, old(req.buffer[..]))
  {
    ghost var r := Receive(old(req.State()).record, index, resp);
    if resp.fetched {
      req.fetchedSizes[index] := resp.fetchedSize;
      req.finishedRequests := req.finishedRequests + 1;
    } else if resp.failed {
      req.failed := true;
      req.finishedRequests := req.finishedRequests + 1;
    }
    assert req.fetchedSizes[..] == r.fetchedSizes;
    assert req.State() == old(req.State()).(record := r);
    assert req.Valid();
    if req.finishedRequests == PartCount {
      assert req.buffer[..] == old(req.buffer[..]);
      ArrayTexFinishRequest(req);
    }
  }

  /** The terminal block of arraytex_fetch_callback: a request that has not
      failed is loaded and fails if the load does; then exactly one of the
      two application callbacks runs. */
  method ArrayTexFinishRequest(req: ArrayTexRequest)
    requires req.Valid()
    requires !req.failed ==> ArrayLoadable(req.Config(), req.fetchedSizes[..], req.buffer[..], req.textureBuffer.Length)
    modifies req, req.textureBuffer
    ensures req.Valid()
    ensures req.State() == ArrayTexFinish(req.Config(), old(req.State()), old(req.buffer[..]))
  {
    ghost var s0 := req.State();
    if !req.failed {
      var ok := LoadArrayTex(req);
      req.failed := !ok;
    }
    assert req.fetchedSizes[..] == s0.record.fetchedSizes;
    if req.failed {
      req.effects := req.effects.(failCalls := req.effects.failCalls + 1);
    } else {
      req.effects := req.effects.(successCalls := req.effects.successCalls + 1);
    }
  }

  /** Decoded pixel buffers among `parts` that the decoder handed out. */
  ghost function LiveCount(parts: seq<Decoded>): (n: nat)
    ensures n <= |parts|
  {
    if parts == [] then 0
    else (if parts[0].pixels.Some? then 1 else 0) + LiveCount(parts[1..])
  }

  lemma {:induction false} LiveCountAppend(parts: seq<Decoded>, p: Decoded)
    ensures LiveCount(parts + [p]) == LiveCount(parts) + (if p.pixels.Some? then 1 else 0)
  {
    if parts != [] {
      assert (parts + [p])[1..] == parts[1..] + [p];
      LiveCountAppend(parts[1..], p);
    }
  }

  /** _load_cubemap: decodes the six faces, runs the check, creates the cube
      image only if it passes, and frees all six decoded buffers on both
      paths. */
  method LoadCubemap(req: CubemapRequest) returns (valid: bool)
    requires req.Valid()
    modifies req`effects, req`liveImages
    ensures (valid, req.effects) == CubemapLoad(req.Config(), old(req.fetchedSizes[..]), old(req.buffer[..]), old(req.effects))
    ensures req.liveImages == old(req.liveImages)
  {
    var buf, sizes := req.buffer[..], req.fetchedSizes[..];
    ghost var all := DecodeParts(req.decode, buf, req.bufferOffset, sizes);
    var parts: seq<Decoded> := [];
    var i := 0;
    while i < PartCount
      invariant 0 <= i <= PartCount
      invariant parts == all[..i]
      invariant req.liveImages == old(req.liveImages) + LiveCount(parts)
      invariant req.effects == old(req.effects)
    {
      var part := req.decode(PartBytes(buf, req.bufferOffset, sizes, i));
      assert part == all[i];
      if part.pixels.Some? {
        req.liveImages := req.liveImages + 1;
      }
      LiveCountAppend(parts, part);
      parts := parts + [part];
      assert parts[..i] == all[..i];
      i := i + 1;
    }
    assert parts == all;
    valid := CheckCubemapDims(parts);
    if valid {
      req.effects := req.effects.(initImageCalls := req.effects.initImageCalls + 1,
                                  published := Some(ImageDesc(ImageCube, parts[0].width, parts[0].height, PartCount)));
    }
    i := 0;
    while i < PartCount
      invariant 0 <= i <= PartCount
      invariant req.liveImages == old(req.liveImages) + LiveCount(parts[i..])
      invariant req.effects == CubemapLoad(req.Config(), sizes, buf, old(req.effects)).1
    {
      assert parts[i..][1..] == parts[i + 1..];
      // stbi_image_free: a null pointer frees nothing
      if parts[i].pixels.Some? {
        req.liveImages := req.liveImages - 1;
      }
      i := i + 1;
    }
  }

  /** cubemap_fetch_callback of this revision. */
  method CubemapFetchCallback(req: CubemapRequest, index: int, resp: Response)
    requires req.Valid()
    requires CubemapStepOk(req.Config(), req.State(), index, resp, req.buffer[..])
    modifies req, req.fetchedSizes
    ensures req.Valid()
    ensures req.State() == CubemapStep(req.Config(), old(req.State()), index, resp, old(req.buffer[..]))
    ensures req.liveImages == old(req.liveImages)
  {
    ghost var r := Receive(old(req.State()).record, index, resp);
    if resp.fetched {
      req.fetchedSizes[index] := resp.fetchedSize;
      req.finishedRequests := req.finishedRequests + 1;
    } else if resp.failed {
      req.failed := true;
      req.finishedRequests := req.finishedRequests + 1;
    }
    assert req.fetchedSizes[..] == r.fetchedSizes;
    assert req.State() == old(req.State()).(record := r);
    if req.finishedRequests == PartCount {
      CubemapFinishRequest(req);
    }
  }

  /** The terminal block of cubemap_fetch_callback of this revision. */
  method CubemapFinishRequest(req: CubemapRequest)
    requires req.Valid()
    modifies req
    ensures req.Valid()
    ensures req.State() == CubemapFinish(req.Config(), old(req.State()), old(req.buffer[..]))
    ensures req.liveImages == old(req.liveImages)
  {
    ghost var s0 := req.State();
    if !req.failed {
      var ok := LoadCubemap(req);
      req.failed := !ok;
    }
    assert req.fetchedSizes[..] == s0.record.fetchedSizes;
    if req.failed {
      req.effects := req.effects.(failCalls := req.effects.failCalls + 1);
    } else {
      req.effects := req.effects.(successCalls := req.effects.successCalls + 1);
    }
  }
}
