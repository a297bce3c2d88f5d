/** Pixel-format negotiation of the NVENC encoder: the encoder accepts
    three 8-bit layouts and asks the video pipeline for one of them. */
module NvencFormat {

  /** libobs' `enum video_format`. */
  datatype VideoFormat = FormatNone | I420 | NV12 | YVYU | YUY2 | UYVY | RGBA | BGRA | BGRX | I444

  /** libobs' `enum video_colorspace`. */
  datatype VideoColorspace = CsDefault | Cs601 | Cs709

  /** libobs' `enum video_range_type`. */
  datatype VideoRange = RangeDefault | RangePartial | RangeFull

  /** The part of `struct video_scale_info` the encoder is asked to fill. */
  datatype VideoScaleInfo = VideoScaleInfo(
    format: VideoFormat,
    width: nat,
    height: nat,
    range: VideoRange,
    colorspace: VideoColorspace)

  /** How many separate planes a frame of the format is stored in
      (libobs' layouts: I420 and I444 three, NV12 two, the packed YUV and
      RGB formats one). */
  function PlaneCount(f: VideoFormat): nat
  {
    match f
    case FormatNone => 0
    case I420 => 3
    case NV12 => 2
    case I444 => 3
    case _ => 1
  }

  /** `valid_format`: the formats the NVENC path can take as input, which
      are exactly the planar and semi-planar ones. */
  predicate ValidFormat(f: VideoFormat)
    ensures ValidFormat(f) <==> PlaneCount(f) >= 2
  {
    f == I420 || f == NV12 || f == I444
  }

  /** The encoder's preferred format wins when the encoder can take it;
      otherwise the format the pipeline proposes, if the encoder can take
      that; otherwise NV12. */
  function NegotiateFormat(preferred: VideoFormat, proposed: VideoFormat): (f: VideoFormat)
    ensures ValidFormat(f)
    ensures f == preferred || f == proposed || f == NV12
    ensures ValidFormat(preferred) ==> f == preferred
    ensures !ValidFormat(preferred) && ValidFormat(proposed) ==> f == proposed
    ensures f != preferred && f != proposed ==> !ValidFormat(preferred) && !ValidFormat(proposed)
  {
    if ValidFormat(preferred) then preferred
    else if ValidFormat(proposed) then proposed
    else NV12
  }

  /** `nvenc_video_info`: only the format of the scale info is rewritten. */
  function VideoInfo(preferred: VideoFormat, info: VideoScaleInfo): (r: VideoScaleInfo)
    ensures r.format == NegotiateFormat(preferred, info.format)
    ensures ValidFormat(r.format)
    ensures ValidFormat(preferred) ==> r.format == preferred
    ensures ValidFormat(info.format) && !ValidFormat(preferred) ==> r.format == info.format
    ensures !ValidFormat(info.format) && !ValidFormat(preferred) ==> r.format == NV12
    ensures r.width == info.width && r.height == info.height
    ensures r.range == info.range && r.colorspace == info.colorspace
  {
    info.(format := NegotiateFormat(preferred, info.format))
  }

  /** Negotiation is a fixpoint: offering its own answer back changes
      nothing, so asking again for the same scale info is harmless. */
  lemma NegotiateIdempotent(preferred: VideoFormat, proposed: VideoFormat, info: VideoScaleInfo)
    ensures NegotiateFormat(preferred, NegotiateFormat(preferred, proposed)) == NegotiateFormat(preferred, proposed)
    ensures VideoInfo(preferred, VideoInfo(preferred, info)) == VideoInfo(preferred, info)
  {
  }
}
