/** include/fetch.h: the earlier revision of the loaders. Its decode of a
    cubemap is the one of include/asset_loading.h; its callback differs in
    reporting only failure, never success. Its image_fetch_callback is also
    the one the later revision keeps. */
module Fetch {
  import opened Types
  import opened AssetLoading

  // ---------------------------------------------------------------------
  // A single 2D image
  // ---------------------------------------------------------------------

  /** image_fetch_callback: a fetched file that decodes becomes a 2D image of
      the decoded size with one sub-image; a fetched file that does not decode
      is dropped without a word; a failed fetch calls fail_callback.
      `bytes` are the fetched bytes the response points at. */
  function ImageFetch(resp: Response, decode: Decoder, bytes: seq<bv8>, fx: Effects): (fx': Effects)
    ensures fx'.successCalls == fx.successCalls
    ensures fx'.initImageCalls == fx.initImageCalls + (if resp.fetched && decode(bytes).pixels.Some? then 1 else 0)
    ensures fx'.failCalls == fx.failCalls + (if !resp.fetched && resp.failed then 1 else 0)
    ensures fx'.initImageCalls + fx'.failCalls <= fx.initImageCalls + fx.failCalls + 1
    ensures fx'.initImageCalls != fx.initImageCalls ==>
              fx'.published == Some(ImageDesc(Image2D, decode(bytes).width, decode(bytes).height, 1))
    ensures fx'.initImageCalls == fx.initImageCalls ==> fx'.published == fx.published
  {
    if resp.fetched then
      var d := decode(bytes);
      if d.pixels.Some? then
        fx.(initImageCalls := fx.initImageCalls + 1, published := Some(ImageDesc(Image2D, d.width, d.height, 1)))
      else
        fx
    else if resp.failed then
      fx.(failCalls := fx.failCalls + 1)
    else
      fx
  }

  /** A response that is neither fetched nor failed, and a fetched file the
      decoder rejects, leave no trace: the caller is never told. */
  lemma ImageFetchSilentCases(resp: Response, decode: Decoder, bytes: seq<bv8>, fx: Effects)
    requires (!resp.fetched && !resp.failed) || (resp.fetched && decode(bytes).pixels.None?)
    ensures ImageFetch(resp, decode, bytes, fx) == fx
  {
  }

  // ---------------------------------------------------------------------
  // The cubemap callback of this revision
  // ---------------------------------------------------------------------

  /** The terminal block of fetch.h's cubemap_fetch_callback: load unless a
      face failed, then call fail_callback if the request failed, and
      nothing otherwise. */
  function LegacyCubemapFinish(cfg: CubemapConfig, s: CubemapState, buf: seq<bv8>): CubemapState
    requires 0 <= cfg.bufferOffset && PartCount * cfg.bufferOffset <= |buf|
    requires SizesInSlices(s.record.fetchedSizes, cfg.bufferOffset)
  {
    if s.record.failed then
      s.(effects := s.effects.(failCalls := s.effects.failCalls + 1))
    else
      var (valid, fx) := CubemapLoad(cfg, s.record.fetchedSizes, buf, s.effects);
      CubemapState(s.record.(failed := !valid), if valid then fx else fx.(failCalls := fx.failCalls + 1))
  }

  /** fetch.h's cubemap_fetch_callback. */
  function LegacyCubemapStep(cfg: CubemapConfig, s: CubemapState, index: int, resp: Response, buf: seq<bv8>): CubemapState
    requires CubemapStepOk(cfg, s, index, resp, buf)
  {
    var s1 := s.(record := Receive(s.record, index, resp));
    if s1.record.finished == PartCount then LegacyCubemapFinish(cfg, s1, buf) else s1
  }

  /** The two revisions agree on everything except the success report: the
      earlier one never makes it, the later one makes it exactly where the
      earlier one stays silent. */
  lemma LegacyIsCurrentWithoutSuccess(cfg: CubemapConfig, s: CubemapState, index: int, resp: Response, buf: seq<bv8>)
    requires CubemapStepOk(cfg, s, index, resp, buf)
    ensures var legacy := LegacyCubemapStep(cfg, s, index, resp, buf);
            var current := CubemapStep(cfg, s, index, resp, buf);
            && legacy.effects.successCalls == s.effects.successCalls
            && legacy == current.(effects := current.effects.(successCalls := s.effects.successCalls))
  {
  }

  /** Six completions of a cubemap request under the earlier callback, in any
      order: quiet until the sixth, which calls fail_callback exactly when a
      face failed or the faces do not share one positive size, and otherwise
      creates the cube image; success is never reported, so a caller waiting
      for it waits forever. */
  lemma {:induction false} LegacyCubemapSixCompletions(cfg: CubemapConfig, calls: seq<Call>, buf: seq<bv8>)
    requires 0 <= cfg.bufferOffset && PartCount * cfg.bufferOffset <= |buf|
    requires |calls| == PartCount && CallsOk(calls, cfg.bufferOffset)
    requires forall k :: 0 <= k < |calls| ==> Completes(calls[k])
    ensures forall k :: 0 <= k < PartCount - 1 ==>
              var s := CubemapState(Received(calls, k, cfg.bufferOffset), NoEffects);
              && CubemapStepOk(cfg, s, calls[k].index, calls[k].resp, buf)
              && LegacyCubemapStep(cfg, s, calls[k].index, calls[k].resp, buf)
                 == CubemapState(Received(calls, k + 1, cfg.bufferOffset), NoEffects)
    ensures var last := calls[PartCount - 1];
            var s := CubemapState(Received(calls, PartCount - 1, cfg.bufferOffset), NoEffects);
            && CubemapStepOk(cfg, s, last.index, last.resp, buf)
            && var fin := LegacyCubemapStep(cfg, s, last.index, last.resp, buf);
               var r := Received(calls, PartCount, cfg.bufferOffset);
               var parts := DecodeParts(cfg.decode, buf, cfg.bufferOffset, r.fetchedSizes);
               && fin.effects.successCalls == 0
               && fin.effects.failCalls + fin.effects.initImageCalls == 1
               && (fin.effects.failCalls == 1 <==> r.failed || !CubemapDimsOk(parts))
               && (fin.effects.initImageCalls == 1 ==>
                     fin.effects.published == Some(ImageDesc(ImageCube, parts[0].width, parts[0].height, PartCount)))
  {
    CubemapSixCompletions(cfg, calls, buf);
    forall k | 0 <= k < PartCount - 1
      ensures var s := CubemapState(Received(calls, k, cfg.bufferOffset), NoEffects);
              && CubemapStepOk(cfg, s, calls[k].index, calls[k].resp, buf)
              && LegacyCubemapStep(cfg, s, calls[k].index, calls[k].resp, buf)
                 == CubemapState(Received(calls, k + 1, cfg.bufferOffset), NoEffects)
    {
      assert CubemapQuietStep(cfg, calls, k, buf);
      var s := CubemapState(Received(calls, k, cfg.bufferOffset), NoEffects);
      LegacyIsCurrentWithoutSuccess(cfg, s, calls[k].index, calls[k].resp, buf);
    }
    var s := CubemapState(Received(calls, PartCount - 1, cfg.bufferOffset), NoEffects);
    LegacyIsCurrentWithoutSuccess(cfg, s, calls[PartCount - 1].index, calls[PartCount - 1].resp, buf);
  }

  /** fetch.h's cubemap_fetch_callback, proved against LegacyCubemapStep;
      the decode is AssetLoading.LoadCubemap, which is fetch.h's _load_cubemap
      line for line. */
  method LegacyCubemapFetchCallback(req: CubemapRequest, index: int, resp: Response)
    requires req.Valid()
    requires CubemapStepOk(req.Config(), req.State(), index, resp, req.buffer[..])
    modifies req, req.fetchedSizes
    ensures req.Valid()
    ensures req.State() == LegacyCubemapStep(req.Config(), old(req.State()), index, resp, old(req.buffer[..]))
    ensures req.liveImages == old(req.liveImages)
  {
    ghost var r := Receive(old(req.State()).record, index, resp);
    if resp.fetched {
      req.fetchedSizes[index] := resp.fetchedSize;
      req.finishedRequests := req.finishedRequests + 1;
    } else if resp.failed {
      req.failed := true;
      req.finishedRequests := req.finishedRequests + 1;
    }
    assert req.fetchedSizes[..] == r.fetchedSizes;
    assert req.State() == old(req.State()).(record := r);
    if req.finishedRequests == PartCount {
      ghost var s0 := req.State();
      if !req.failed {
        var ok := LoadCubemap(req);
        req.failed := !ok;
      }
      assert req.fetchedSizes[..] == s0.record.fetchedSizes;
      if req.failed {
        req.effects := req.effects.(failCalls := req.effects.failCalls + 1);
      }
    }
  }
}
