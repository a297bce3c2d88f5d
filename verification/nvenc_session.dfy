/** The NVENC encoder session: creation, the per-frame encode call with its
    first-packet state machine, and the accessors for the codec header and
    SEI extracted from the first packet.

    The device (libavcodec) is not modelled: its answers are inputs. The
    H.264 Annex B splitter that separates parameter sets and SEI from the
    first access unit, and the keyframe test, are libobs functions outside
    this model; they are passed in as uninterpreted functions. */
module NvencSession {
  import opened Common
  import opened NvencFormat
  import opened NvencSettings
  import opened NvencStager

  /** What the device answers while the encoder is created: whether the
      codec is found, whether a context can be allocated, the result of
      opening the codec, whether a frame can be allocated, and the result
      of allocating the staging picture. */
  datatype DeviceSetup = DeviceSetup(
    codecFound: bool,
    contextAllocated: bool,
    openResult: int,
    frameAllocated: bool,
    pictureResult: int)

  /** The parameters of the device frame the staged picture is encoded
      from. */
  datatype DeviceFrame = DeviceFrame(
    format: VideoFormat,
    width: int,
    height: int,
    colorspace: AvColorspace,
    colorRange: AvColorRange)

  /** `struct nvenc_encoder` without its device handles. The
      `initialized` flag only tells `nvenc_destroy` whether to drain the
      device, and is not part of this model. */
  datatype Encoder = Encoder(
    context: CodecContext,
    frame: DeviceFrame,
    height: int,
    firstPacket: bool,
    header: seq<byte>,
    sei: seq<byte>,
    buffer: seq<byte>)

  /** What one device call returns: its status, whether a packet came out,
      and the packet's bytes and timestamps. */
  datatype DeviceOutput = DeviceOutput(ret: int, gotPacket: bool, data: seq<byte>, pts: int, dts: int)

  /** The splitter's answer: the access unit without its parameter sets and
      SEI, the parameter sets, and the SEI. */
  datatype AvcSplit = AvcSplit(payload: seq<byte>, header: seq<byte>, sei: seq<byte>)

  datatype EncoderType = EncoderAudio | EncoderVideo

  /** `struct encoder_packet` as `nvenc_encode` fills it. */
  datatype Packet = Packet(pts: int, dts: int, data: seq<byte>, kind: EncoderType, keyframe: bool)

  /** `nvenc_encode` returns false (`EncodeFailed`), or true with
      `*received_packet` false (`NoPacket`) or true (`Received`). */
  datatype EncodeOutcome = EncodeFailed | NoPacket | Received(packet: Packet)

  datatype Encoded = Encoded(encoder: Encoder, outcome: EncodeOutcome)

  /** The header and SEI stay empty until the first packet is split. */
  predicate HeadersPending(e: Encoder)
  {
    e.firstPacket ==> e.header == [] && e.sei == []
  }

  /** A device call that produced a non-empty packet. */
  predicate Produces(out: DeviceOutput)
  {
    out.ret >= 0 && out.gotPacket && |out.data| > 0
  }

  /** `nvenc_init_codec`: opening the codec, allocating the frame and
      allocating the staging picture must all succeed, in that order; the
      frame then takes its format, size and colour description from the
      configured context. */
  function InitCodec(setup: DeviceSetup, ctx: CodecContext): (r: Option<DeviceFrame>)
    ensures r.Some? <==> setup.openResult >= 0 && setup.frameAllocated && setup.pictureResult >= 0
    ensures r.Some? ==> r.value.format == ctx.pixFmt && r.value.width == ctx.width && r.value.height == ctx.height
    ensures r.Some? ==> r.value.colorspace == ctx.colorspace && r.value.colorRange == ctx.colorRange
  {
    if setup.openResult < 0 then None
    else if !setup.frameAllocated then None
    else if setup.pictureResult < 0 then None
    else Some(DeviceFrame(ctx.pixFmt, ctx.width, ctx.height, ctx.colorspace, ctx.colorRange))
  }

  /** `nvenc_create`: NULL when the codec is missing, no context can be
      allocated, or `nvenc_update` fails to open the device; otherwise a
      configured, initialised encoder waiting for its first packet. `ctx`
      is the freshly allocated context. */
  function Create(setup: DeviceSetup, ctx: CodecContext, s: Settings, voi: VideoOutputInfo,
                  preferred: VideoFormat, width: int, height: int): (r: Option<Encoder>)
    requires voi.fpsDen != 0
    ensures r.Some? <==> setup.codecFound && setup.contextAllocated && setup.openResult >= 0
                         && setup.frameAllocated && setup.pictureResult >= 0
    ensures r.Some? ==>
      && r.value.firstPacket && HeadersPending(r.value)
      && r.value.buffer == [] && r.value.height == height
      && r.value.context == Translate(ctx, s, voi, preferred, width, height).context
    ensures r.Some? ==>
      && r.value.frame.format == NegotiateFormat(preferred, voi.format)
      && r.value.frame.width == width && r.value.frame.height == height
  {
    if !setup.codecFound || !setup.contextAllocated then None
    else
      var configured := Translate(ctx, s, voi, preferred, width, height);
      match InitCodec(setup, configured.context)
      case None => None
      case Some(frame) => Some(Encoder(configured.context, frame, configured.height, true, [], [], []))
  }

  /** The first-packet state machine of `nvenc_encode`, after the frame has
      been staged and handed to the device. A negative device status fails
      the call; a missing or empty packet is "no output"; the first
      non-empty packet is split into header, SEI and payload; every later
      packet is passed through as the device produced it. */
  function Encode(e: Encoder, out: DeviceOutput, extract: seq<byte> -> AvcSplit,
                  isKeyframe: seq<byte> -> bool): (r: Encoded)
    ensures out.ret < 0 ==> r.outcome == EncodeFailed && r.encoder == e
    ensures out.ret >= 0 && !Produces(out) ==> r.outcome == NoPacket && r.encoder == e
    ensures Produces(out) ==>
      && r.outcome.Received?
      && r.outcome.packet == Packet(out.pts, out.dts, r.encoder.buffer, EncoderVideo, isKeyframe(r.encoder.buffer))
    ensures Produces(out) && e.firstPacket ==>
      r.encoder == e.(firstPacket := false, header := extract(out.data).header, sei := extract(out.data).sei,
                      buffer := extract(out.data).payload)
    ensures Produces(out) && !e.firstPacket ==> r.encoder == e.(buffer := out.data)
    ensures HeadersPending(e) ==> HeadersPending(r.encoder)
  {
    if out.ret < 0 then Encoded(e, EncodeFailed)
    else if out.gotPacket && |out.data| > 0 then
      var next :=
        if e.firstPacket then
          var split := extract(out.data);
          e.(firstPacket := false, header := split.header, sei := split.sei, buffer := split.payload)
        else
          e.(buffer := out.data);
      var packet := Packet(out.pts, out.dts, next.buffer, EncoderVideo, isKeyframe(next.buffer));
      Encoded(next, Received(packet))
    else Encoded(e, NoPacket)
  }

  /** `nvenc_encode` as a whole: the frame is staged into the picture
      (whatever the device then answers), then the device's answer drives
      the state machine. */
  method NvencEncode(e: Encoder, pic: Picture, frame: Frame, out: DeviceOutput,
                     extract: seq<byte> -> AvcSplit, isKeyframe: seq<byte> -> bool)
    returns (staged: Picture, r: Encoded)
    requires |pic.data| == MaxPlanes && |pic.linesize| == MaxPlanes
    requires |frame.data| == MaxPlanes && |frame.linesize| == MaxPlanes
    requires forall p :: 0 <= p < MaxPlanes ==> PlaneCopyFits(pic, frame, e.height, p)
    ensures staged.linesize == pic.linesize && |staged.data| == MaxPlanes
    ensures forall p :: 0 <= p < MaxPlanes && frame.data[p].None? ==> staged.data[p] == pic.data[p]
    ensures forall p :: 0 <= p < MaxPlanes && frame.data[p].Some? ==>
      PlaneStaged(staged.data[p], pic.data[p], pic.linesize[p], frame.data[p].value, frame.linesize[p],
                  PlaneRows(p, e.height))
    ensures r.outcome.EncodeFailed? <==> out.ret < 0
    ensures r.outcome.Received? <==> Produces(out)
    ensures r.outcome.Received? ==> r.outcome.packet.data == r.encoder.buffer && r.outcome.packet.pts == out.pts
    ensures !r.outcome.Received? ==> r.encoder == e
    ensures r == Encode(e, out, extract, isKeyframe)
  {
    staged := CopyData(pic, frame, e.height);
    r := Encode(e, out, extract, isKeyframe);
  }

  /** `nvenc_extra_data`: always succeeds and hands out the header, which
      is empty until the first packet has been split. */
  function ExtraData(e: Encoder): (r: (bool, seq<byte>))
    ensures r.0 && r.1 == e.header
    ensures HeadersPending(e) && e.firstPacket ==> r.1 == []
  {
    (true, e.header)
  }

  /** `nvenc_sei_data`: the same for the SEI. */
  function SeiData(e: Encoder): (r: (bool, seq<byte>))
    ensures r.0 && r.1 == e.sei
    ensures HeadersPending(e) && e.firstPacket ==> r.1 == []
  {
    (true, e.sei)
  }

  /** Feeding the device's answers one after another, as the caller of the
      encoder does, stopping at the first failed call. Returns the final
      encoder and the packets delivered. */
  function Run(e: Encoder, outs: seq<DeviceOutput>, extract: seq<byte> -> AvcSplit,
               isKeyframe: seq<byte> -> bool): (Encoder, seq<Packet>)
    decreases |outs|
  {
    if |outs| == 0 then (e, [])
    else
      var step := Encode(e, outs[0], extract, isKeyframe);
      match step.outcome
      case EncodeFailed => (e, [])
      case NoPacket => Run(step.encoder, outs[1..], extract, isKeyframe)
      case Received(p) =>
        var rest := Run(step.encoder, outs[1..], extract, isKeyframe);
        (rest.0, [p] + rest.1)
  }

  /** The reference for pass-through: the bytes of every producing device
      call before the first failure, in order. */
  function ProducedData(outs: seq<DeviceOutput>): seq<seq<byte>>
    decreases |outs|
  {
    if |outs| == 0 || outs[0].ret < 0 then []
    else if Produces(outs[0]) then [outs[0].data] + ProducedData(outs[1..])
    else ProducedData(outs[1..])
  }

  /** The index of the first producing call before any failure. */
  function FirstProducing(outs: seq<DeviceOutput>): (j: Option<nat>)
    ensures j.Some? ==> j.value < |outs| && Produces(outs[j.value])
    ensures j.Some? ==> forall i :: 0 <= i < j.value ==> outs[i].ret >= 0 && !Produces(outs[i])
    decreases |outs|
  {
    if |outs| == 0 || outs[0].ret < 0 then None
    else if Produces(outs[0]) then Some(0)
    else match FirstProducing(outs[1..])
      case None => None
      case Some(j) => Some(j + 1)
  }

  function Payloads(packets: seq<Packet>): seq<seq<byte>>
    decreases |packets|
  {
    if |packets| == 0 then [] else [packets[0].data] + Payloads(packets[1..])
  }

  /** Once the first packet has been split, header and SEI never change
      again and every later packet is the device's output verbatim. */
  lemma {:induction false} AfterFirstPacketVerbatim(e: Encoder, outs: seq<DeviceOutput>,
                                                   extract: seq<byte> -> AvcSplit, isKeyframe: seq<byte> -> bool)
    requires !e.firstPacket
    ensures var r := Run(e, outs, extract, isKeyframe);
      && !r.0.firstPacket && r.0.header == e.header && r.0.sei == e.sei
      && Payloads(r.1) == ProducedData(outs)
    decreases |outs|
  {
    if |outs| > 0 && outs[0].ret >= 0 {
      var step := Encode(e, outs[0], extract, isKeyframe);
      AfterFirstPacketVerbatim(step.encoder, outs[1..], extract, isKeyframe);
      if Produces(outs[0]) {
        var rest := Run(step.encoder, outs[1..], extract, isKeyframe);
        assert Payloads([step.outcome.packet] + rest.1) == [outs[0].data] + Payloads(rest.1) by {
          assert ([step.outcome.packet] + rest.1)[1..] == rest.1;
        }
      }
    }
  }

  /** Splitting happens exactly once: a fresh encoder leaves the
      first-packet state exactly when some call before the first failure
      produces a packet, and then its header, SEI and first delivered
      payload are the splitter's answer for that call's bytes. */
  lemma {:induction false} FirstPacketSplitOnce(e: Encoder, outs: seq<DeviceOutput>,
                                               extract: seq<byte> -> AvcSplit, isKeyframe: seq<byte> -> bool)
    requires e.firstPacket
    ensures var r := Run(e, outs, extract, isKeyframe);
      && (r.0.firstPacket <==> FirstProducing(outs).None?)
      && (FirstProducing(outs).None? ==> r.0 == e && r.1 == [])
      && (FirstProducing(outs).Some? ==>
            var split := extract(outs[FirstProducing(outs).value].data);
            && r.0.header == split.header && r.0.sei == split.sei
            && |r.1| > 0 && r.1[0].data == split.payload)
    decreases |outs|
  {
    if |outs| > 0 && outs[0].ret >= 0 {
      var step := Encode(e, outs[0], extract, isKeyframe);
      if Produces(outs[0]) {
        AfterFirstPacketVerbatim(step.encoder, outs[1..], extract, isKeyframe);
      } else {
        FirstPacketSplitOnce(e, outs[1..], extract, isKeyframe);
      }
    }
  }
}
