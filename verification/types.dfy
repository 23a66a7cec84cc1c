/** Shapes shared by the asset loaders: the multi-part request records of
    include/types.h and the values that flow through the fetch and decode
    libraries. */
module Types {

  /** ARRAYTEX_COUNT: the parts of a texture array. A cubemap has the same
      number of faces, written as the literal 6 in the cubemap code. */
  const PartCount: int := 6

  /** Every decode asks stb_image for RGBA8. */
  const DesiredChannels: int := 4

  datatype Option<T> = None | Some(value: T)

  /** What stbi_load_from_memory leaves behind: the two dimension
      out-parameters and the returned pixel pointer (None for a null pointer).
      The library does not write the out-parameters when the decode fails, so
      for a failed decode they hold whatever the decoder model says. */
  datatype Decoded = Decoded(width: int, height: int, pixels: Option<seq<bv8>>)

  /** Image decoding from memory, a foreign library: any total function. */
  type Decoder = seq<bv8> -> Decoded

  /** The part of sfetch_response_t that the callbacks read. */
  datatype Response = Response(fetched: bool, failed: bool, fetchedSize: int)

  datatype ImageType = Image2D | ImageCube | ImageArray

  /** What sg_init_image is asked to create. `layers` is the number of
      sub-images handed over: 1 for a plain image, the six faces of a cube,
      the ARRAYTEX_COUNT slices of an array. */
  datatype ImageDesc = ImageDesc(kind: ImageType, width: int, height: int, layers: int)

  /** Calls made so far into sg_init_image, fail_callback and
      success_callback on behalf of one request, and the last image created. */
  datatype Effects = Effects(initImageCalls: nat, failCalls: nat, successCalls: nat,
                             published: Option<ImageDesc>)

  const NoEffects: Effects := Effects(0, 0, 0, None)

  /** The coordination fields shared by _arraytex_request_t and
      _cubemap_request_t: fetched_sizes, finished_requests and failed. */
  datatype Record = Record(fetchedSizes: seq<int>, finished: int, failed: bool)

  /** The record as a zero-initialising compound literal leaves it. */
  const FreshRecord: Record := Record([0, 0, 0, 0, 0, 0], 0, false)

  /** Every part's byte count stays inside its own slice of `offset` bytes. */
  ghost predicate SizesInSlices(sizes: seq<int>, offset: int)
  {
    |sizes| == PartCount && forall i :: 0 <= i < PartCount ==> 0 <= sizes[i] <= offset
  }

  /** The arithmetic of the fixed-stride layout: slice i, and its end, lie
      inside PartCount slices. */
  lemma SliceBounds(i: int, offset: int)
    requires 0 <= i < PartCount && 0 <= offset
    ensures 0 <= i * offset && i * offset + offset <= PartCount * offset
  {
    if i == 0 {
    } else if i == 1 {
    } else if i == 2 {
    } else if i == 3 {
    } else if i == 4 {
    } else {
      assert i == 5;
    }
  }

  /** The bytes part i was fetched into: `buffer + i * offset`, over
      `sizes[i]` bytes. */
  function PartBytes(buf: seq<bv8>, offset: int, sizes: seq<int>, i: int): (r: seq<bv8>)
    requires 0 <= offset && PartCount * offset <= |buf| && SizesInSlices(sizes, offset)
    requires 0 <= i < PartCount
    ensures |r| == sizes[i]
    ensures forall k :: 0 <= k < |r| ==> r[k] == buf[i * offset + k]
  {
    SliceBounds(i, offset);
    buf[i * offset .. i * offset + sizes[i]]
  }

  /** The six decodes the finalize step performs, in part order. */
  function DecodeParts(decode: Decoder, buf: seq<bv8>, offset: int, sizes: seq<int>): (parts: seq<Decoded>)
    requires 0 <= offset && PartCount * offset <= |buf| && SizesInSlices(sizes, offset)
    ensures |parts| == PartCount
  {
    seq(PartCount, i requires 0 <= i < PartCount => decode(PartBytes(buf, offset, sizes, i)))
  }

  /** _arraytex_request_t (include/types.h:38-47) together with the field
      texture_buffer_ptr that the loading code also uses. */
  class ArrayTexRequest {
    const imgId: int
    /** Where the six fetches land, one slice of `bufferOffset` bytes each. */
    const buffer: array<bv8>
    const bufferOffset: int
    /** Where the decoded pixels are gathered before upload. */
    const textureBuffer: array<bv8>
    const fetchedSizes: array<int>
    var finishedRequests: int
    var failed: bool

    /** ARRAYTEX_IMAGE_WIDTH, ARRAYTEX_IMAGE_HEIGHT and
        ARRAYTEX_ARRAY_IMAGE_OFFSET (config.h is not part of this model), and
        the image decoder. */
    const imageWidth: int
    const imageHeight: int
    const arrayImageOffset: int
    const decode: Decoder

    /** The graphics and application calls made on behalf of this request. */
    ghost var effects: Effects

    ghost predicate Valid()
      reads this, fetchedSizes
    {
      && buffer != textureBuffer
      && fetchedSizes as object != textureBuffer && fetchedSizes as object != buffer
      && 0 <= bufferOffset && PartCount * bufferOffset <= buffer.Length
      && 0 <= arrayImageOffset
      && 0 <= finishedRequests
      && SizesInSlices(fetchedSizes[..], bufferOffset)
    }

    /** The coordination record, the events and the gathered pixels. */
    ghost function State(): ArrayTexState
      reads this, fetchedSizes, textureBuffer
    {
      ArrayTexState(Record(fetchedSizes[..], finishedRequests, failed), effects, textureBuffer[..])
    }

    function Config(): ArrayTexConfig
    {
      ArrayTexConfig(bufferOffset, imageWidth, imageHeight, arrayImageOffset, decode)
    }

    /** The record as load_array_texture stores it: every field not named is
        zero, so nothing is counted as finished and nothing has failed. */
    constructor (imgId: int, buffer: array<bv8>, bufferOffset: int, textureBuffer: array<bv8>,
                 imageWidth: int, imageHeight: int, arrayImageOffset: int, decode: Decoder)
      requires buffer != textureBuffer
      requires 0 <= bufferOffset && PartCount * bufferOffset <= buffer.Length
      requires 0 <= arrayImageOffset
      ensures Valid() && fresh(fetchedSizes)
      ensures State() == ArrayTexState(FreshRecord, NoEffects, old(textureBuffer[..]))
      ensures Config() == ArrayTexConfig(bufferOffset, imageWidth, imageHeight, arrayImageOffset, decode)
      ensures this.imgId == imgId && this.buffer == buffer && this.textureBuffer == textureBuffer
    {
      this.imgId := imgId;
      this.buffer := buffer;
      this.bufferOffset := bufferOffset;
      this.textureBuffer := textureBuffer;
      this.imageWidth := imageWidth;
      this.imageHeight := imageHeight;
      this.arrayImageOffset := arrayImageOffset;
      this.decode := decode;
      fetchedSizes := new int[PartCount](_ => 0);
      finishedRequests := 0;
      failed := false;
      effects := NoEffects;
      new;
      assert fetchedSizes[..] == [0, 0, 0, 0, 0, 0];
    }
  }

  /** The constants an array request is finalized with. */
  datatype ArrayTexConfig = ArrayTexConfig(bufferOffset: int, imageWidth: int, imageHeight: int,
                                           arrayImageOffset: int, decode: Decoder)

  /** The whole observable state of an array request. */
  datatype ArrayTexState = ArrayTexState(record: Record, effects: Effects, texture: seq<bv8>)

  /** _cubemap_request_t (include/types.h:68-77). */
  class CubemapRequest {
    const imgId: int
    const buffer: array<bv8>
    const bufferOffset: int
    const fetchedSizes: array<int>
    var finishedRequests: int
    var failed: bool
    const decode: Decoder

    ghost var effects: Effects
    /** Decoded pixel buffers handed out by the decoder and not yet freed. */
    ghost var liveImages: nat

    ghost predicate Valid()
      reads this, fetchedSizes
    {
      && fetchedSizes as object != buffer
      && 0 <= bufferOffset && PartCount * bufferOffset <= buffer.Length
      && 0 <= finishedRequests
      && SizesInSlices(fetchedSizes[..], bufferOffset)
    }

    ghost function State(): CubemapState
      reads this, fetchedSizes
    {
      CubemapState(Record(fetchedSizes[..], finishedRequests, failed), effects)
    }

    function Config(): CubemapConfig
    {
      CubemapConfig(bufferOffset, decode)
    }

    /** The record as load_cubemap stores it at its index. */
    constructor (imgId: int, buffer: array<bv8>, bufferOffset: int, decode: Decoder)
      requires 0 <= bufferOffset && PartCount * bufferOffset <= buffer.Length
      ensures Valid() && fresh(fetchedSizes)
      ensures State() == CubemapState(FreshRecord, NoEffects) && liveImages == 0
      ensures Config() == CubemapConfig(bufferOffset, decode)
      ensures this.imgId == imgId && this.buffer == buffer
    {
      this.imgId := imgId;
      this.buffer := buffer;
      this.bufferOffset := bufferOffset;
      this.decode := decode;
      fetchedSizes := new int[PartCount](_ => 0);
      finishedRequests := 0;
      failed := false;
      effects := NoEffects;
      liveImages := 0;
      new;
      assert fetchedSizes[..] == [0, 0, 0, 0, 0, 0];
    }
  }

  datatype CubemapConfig = CubemapConfig(bufferOffset: int, decode: Decoder)

  datatype CubemapState = CubemapState(record: Record, effects: Effects)
}
