/** The NVENC settings translator (`nvenc_update`): a settings record and
    the video output's properties become the codec context's rate-control,
    GOP and picture parameters. */
module NvencSettings {
  import opened Common
  import opened Text
  import opened NvencFormat

  /** The encoder settings as read from the settings object. Integer
      settings are already the C `int` the source casts them to. */
  datatype Settings = Settings(
    rateControl: string,
    bitrate: int,        // kbit/s
    cqp: int,
    keyintSec: int,
    preset: string,
    profile: string,
    level: string,
    twoPass: bool,
    gpu: int,
    cbr: bool,           // deprecated override
    bFrames: int)

  /** `struct video_output_info` as far as the encoder reads it. */
  datatype VideoOutputInfo = VideoOutputInfo(
    format: VideoFormat,
    colorspace: VideoColorspace,
    range: VideoRange,
    fpsNum: uint32,
    fpsDen: uint32)

  datatype Rational = Rational(num: int, den: int)
  datatype AvColorspace = Bt709 | Bt470bg
  datatype AvColorRange = RangeJpeg | RangeMpeg

  /** The codec context fields and private options `nvenc_update` writes.
      `cbr` and `preset` are the private options of the same name. */
  datatype CodecContext = CodecContext(
    cbr: bool,
    preset: string,
    profile: string,
    level: string,
    twoPass: bool,
    gpu: int,
    globalQuality: int,
    rcMinRate: int,
    rcMaxRate: int,
    bitRate: int,
    rcBufferSize: int,
    width: int,
    height: int,
    timeBase: Rational,
    pixFmt: VideoFormat,
    colorspace: AvColorspace,
    colorRange: AvColorRange,
    maxBFrames: int,
    gopSize: int)

  /** `enum RC_MODE`. */
  datatype RcMode = Cbr | Vbr | Cqp | Lossless

  /** The keyframe interval used when `keyint_sec` is zero. */
  const DefaultGopSize: int := 250

  /** Mode selection: the deprecated `cbr` flag replaces the mode string by
      "CBR"; the string is compared without regard to case, and anything
      that is not "cqp", "lossless" or "vbr" means CBR. */
  function SelectMode(rateControl: string, cbrOverride: bool): (m: RcMode)
    ensures cbrOverride ==> m == Cbr
    ensures !cbrOverride ==> (m == Cqp <==> EqualsIgnoreCase(rateControl, "cqp"))
    ensures !cbrOverride ==> (m == Lossless <==> EqualsIgnoreCase(rateControl, "lossless"))
    ensures !cbrOverride ==> (m == Vbr <==> EqualsIgnoreCase(rateControl, "vbr"))
  {
    var rc := if cbrOverride then "CBR" else rateControl;
    assert EqualsIgnoreCase(rc, "cqp") ==> !EqualsIgnoreCase(rc, "vbr") by {
      if EqualsIgnoreCase(rc, "cqp") { assert Lower(rc[0]) == 'c'; }
    }
    CbrNamesNoOtherMode();
    if EqualsIgnoreCase(rc, "cqp") then Cqp
    else if EqualsIgnoreCase(rc, "lossless") then Lossless
    else if !EqualsIgnoreCase(rc, "vbr") then Cbr
    else Vbr
  }

  /** "CBR" names none of the other modes, whatever the case. */
  lemma CbrNamesNoOtherMode()
    ensures !EqualsIgnoreCase("CBR", "cqp") && !EqualsIgnoreCase("CBR", "vbr") && !EqualsIgnoreCase("CBR", "lossless")
  {
    assert Lower("CBR"[1]) != Lower("cqp"[1]);
    assert Lower("CBR"[0]) != Lower("vbr"[0]);
  }

  /** The two "high performance" presets select the high-performance
      lossless preset; every other preset the generic one. */
  function LosslessPreset(preset: string): (p: string)
    ensures p == "losslesshp" || p == "lossless"
    ensures p == "losslesshp" <==> EqualsIgnoreCase(preset, "hp") || EqualsIgnoreCase(preset, "llhp")
  {
    if EqualsIgnoreCase(preset, "hp") || EqualsIgnoreCase(preset, "llhp") then "losslesshp" else "lossless"
  }

  /** The keyframe interval. `keyint_sec` is an `int` and the frame rate
      fields are `uint32_t`, so C evaluates `keyint_sec * fps_num / fps_den`
      in `unsigned int` arithmetic and converts the quotient back to the
      `int` field. `fps_den` is never zero for a video output. */
  function GopSize(keyintSec: int, fpsNum: uint32, fpsDen: uint32): (g: int)
    requires fpsDen != 0
    ensures keyintSec == 0 ==> g == DefaultGopSize
    ensures 0 < keyintSec && keyintSec * fpsNum < TWO_TO_31 ==> g == keyintSec * fpsNum / fpsDen
  {
    if keyintSec == 0 then DefaultGopSize
    else
      var g := ToInt32(ToUint32(ToUint32(keyintSec) * fpsNum) / fpsDen);
      assert 0 < keyintSec && keyintSec * fpsNum < TWO_TO_31 ==> g == keyintSec * fpsNum / fpsDen by {
        if 0 < keyintSec && keyintSec * fpsNum < TWO_TO_31 {
          WrappedQuotientExact(keyintSec, fpsNum, fpsDen);
        }
      }
      g
  }

  /** When the product fits in a non-negative `int`, the unsigned
      arithmetic and the conversion back to `int` change nothing. */
  lemma WrappedQuotientExact(k: int, n: uint32, d: uint32)
    requires 0 < k && k * n < TWO_TO_31 && d != 0
    ensures ToInt32(ToUint32(ToUint32(k) * n) / d) == k * n / d
  {
    ProductBelowBound(k, n);
    var q := k * n / d;
    assert 0 <= q <= k * n by { QuotientBounds(k * n, d); }
  }

  lemma QuotientBounds(a: int, d: int)
    requires 0 <= a && 0 < d
    ensures 0 <= a / d <= a
  {
    var q, m := a / d, a % d;
    assert a == d * q + m && 0 <= m && 0 <= q;
    MulMonotone(1, d, q);
  }

  lemma ProductBelowBound(k: int, n: uint32)
    requires 0 < k && k * n < TWO_TO_31
    ensures ToUint32(ToUint32(k) * n) == k * n
  {
    if n == 0 {
      assert ToUint32(k) * n == 0;
    } else {
      assert k <= k * n;
    }
  }

  /** The result of `nvenc_update` on the encoder: the rewritten codec
      context, the height the stager will use, and the bitrate and cqp
      values after mode adjustment (the values the settings log shows). */
  datatype Configured = Configured(context: CodecContext, height: int, bitrate: int, cqp: int)

  /** `nvenc_update` up to the call that opens the codec. `ctx` is the
      context before the call: fields a mode does not set keep their
      value. `preferred` is the encoder's preferred format; `width` and
      `height` are the encoder's scaled output size. */
  function Translate(ctx: CodecContext, s: Settings, voi: VideoOutputInfo, preferred: VideoFormat,
                     width: int, height: int): (r: Configured)
    requires voi.fpsDen != 0
    // rules shared by every mode
    ensures r.context.bitRate == r.bitrate * 1000 && r.context.rcBufferSize == r.bitrate * 1000
    ensures r.context.profile == s.profile && r.context.level == s.level
    ensures r.context.twoPass == s.twoPass && r.context.gpu == s.gpu && r.context.maxBFrames == s.bFrames
    ensures r.context.width == width && r.context.height == height && r.height == height
    ensures r.context.timeBase == Rational(voi.fpsDen, voi.fpsNum)
    ensures r.context.pixFmt == NegotiateFormat(preferred, voi.format)
    ensures r.context.colorspace == (if voi.colorspace == Cs709 then Bt709 else Bt470bg)
    ensures r.context.colorRange == (if voi.range == RangeFull then RangeJpeg else RangeMpeg)
    ensures r.context.gopSize == GopSize(s.keyintSec, voi.fpsNum, voi.fpsDen)
    // constant quantizer
    ensures SelectMode(s.rateControl, s.cbr) == Cqp ==>
      && r.bitrate == 0 && r.cqp == s.cqp && r.context.globalQuality == s.cqp
      && !r.context.cbr && r.context.preset == s.preset
      && r.context.rcMinRate == ctx.rcMinRate && r.context.rcMaxRate == ctx.rcMaxRate
    // lossless
    ensures SelectMode(s.rateControl, s.cbr) == Lossless ==>
      && r.bitrate == 0 && r.cqp == 0 && r.context.globalQuality == ctx.globalQuality
      && !r.context.cbr && r.context.preset == LosslessPreset(s.preset)
      && r.context.rcMinRate == ctx.rcMinRate && r.context.rcMaxRate == ctx.rcMaxRate
    // variable bitrate
    ensures SelectMode(s.rateControl, s.cbr) == Vbr ==>
      && r.bitrate == s.bitrate && r.cqp == s.cqp && r.context.globalQuality == ctx.globalQuality
      && !r.context.cbr && r.context.preset == s.preset
      && r.context.rcMinRate == ctx.rcMinRate && r.context.rcMaxRate == ctx.rcMaxRate
    // constant bitrate, the default
    ensures SelectMode(s.rateControl, s.cbr) == Cbr ==>
      && r.bitrate == s.bitrate && r.cqp == 0 && r.context.globalQuality == ctx.globalQuality
      && r.context.cbr && r.context.preset == s.preset
      && r.context.rcMinRate == s.bitrate * 1000 && r.context.rcMaxRate == s.bitrate * 1000
  {
    var format := NegotiateFormat(preferred, voi.format);
    var base := ctx.(cbr := false, profile := s.profile, preset := s.preset);
    var mode := SelectMode(s.rateControl, s.cbr);
    var bitrate := if mode == Cqp || mode == Lossless then 0 else s.bitrate;
    var cqp := if mode == Lossless || mode == Cbr then 0 else s.cqp;
    var adjusted :=
      match mode
      case Cqp => base.(globalQuality := s.cqp)
      case Lossless => base.(preset := LosslessPreset(s.preset))
      case Vbr => base
      case Cbr => base.(cbr := true, rcMaxRate := s.bitrate * 1000, rcMinRate := s.bitrate * 1000);
    var context := adjusted.(
      level := s.level,
      twoPass := s.twoPass,
      gpu := s.gpu,
      bitRate := bitrate * 1000,
      rcBufferSize := bitrate * 1000,
      width := width,
      height := height,
      timeBase := Rational(voi.fpsDen, voi.fpsNum),
      pixFmt := format,
      colorspace := if voi.colorspace == Cs709 then Bt709 else Bt470bg,
      colorRange := if voi.range == RangeFull then RangeJpeg else RangeMpeg,
      maxBFrames := s.bFrames,
      gopSize := GopSize(s.keyintSec, voi.fpsNum, voi.fpsDen));
    Configured(context, height, bitrate, cqp)
  }

  /** `nvenc_defaults`. The deprecated `cbr` flag has no default and reads
      as false. */
  function Defaults(): (s: Settings)
    ensures SelectMode(s.rateControl, s.cbr) == Cbr
    ensures s.bitrate == 850 && s.keyintSec == 0 && s.cqp == 23
    ensures s.preset == "default" && s.profile == "main" && s.level == "auto"
    ensures s.twoPass && s.gpu == 0 && s.bFrames == 2
  {
    CbrNamesNoOtherMode();
    Settings("CBR", 850, 23, 0, "default", "main", "auto", true, 0, false, 2)
  }

  /** With the defaults the encoder runs true CBR at 850 kbit/s with the
      250-frame fallback keyframe interval. */
  lemma DefaultsTranslate(ctx: CodecContext, voi: VideoOutputInfo, preferred: VideoFormat, width: int, height: int)
    requires voi.fpsDen != 0
    ensures var r := Translate(ctx, Defaults(), voi, preferred, width, height).context;
      && r.cbr && r.rcMinRate == 850000 && r.rcMaxRate == 850000
      && r.bitRate == 850000 && r.rcBufferSize == 850000
      && r.gopSize == 250 && r.preset == "default"
  {
  }

  /** Two seconds at 30/1 frames per second is a 60-frame GOP. */
  lemma GopSizeExample()
    ensures GopSize(2, 30, 1) == 60
    ensures GopSize(0, 30, 1) == 250
  {
  }

  /** For a non-zero keyint inside the settings' range (1 to 10 s) and any
      realistic frame rate, the unsigned arithmetic never wraps and the
      interval is the mathematical one. */
  lemma GopSizeInRange(keyintSec: int, fpsNum: uint32, fpsDen: uint32)
    requires fpsDen != 0
    requires 0 < keyintSec <= 10 && fpsNum < 200_000_000
    ensures GopSize(keyintSec, fpsNum, fpsDen) == keyintSec * fpsNum / fpsDen
  {
    MulMonotone(keyintSec, 10, fpsNum);
  }

  /** The deprecated `cbr` flag forces true CBR whatever the mode string
      says. */
  lemma CbrOverrideForcesCbr(ctx: CodecContext, s: Settings, voi: VideoOutputInfo, preferred: VideoFormat,
                             width: int, height: int)
    requires voi.fpsDen != 0
    requires s.cbr
    ensures var r := Translate(ctx, s, voi, preferred, width, height);
      && r.context.cbr && r.cqp == 0
      && r.context.rcMinRate == s.bitrate * 1000 && r.context.rcMaxRate == s.bitrate * 1000
      && r.context.bitRate == s.bitrate * 1000 && r.context.rcBufferSize == s.bitrate * 1000
  {
  }

  /** Translating twice is translating once: every field the first call
      writes is written again with the same value, and the fields a mode
      leaves alone are still left alone. */
  lemma TranslateIdempotent(ctx: CodecContext, s: Settings, voi: VideoOutputInfo, preferred: VideoFormat,
                            width: int, height: int)
    requires voi.fpsDen != 0
    ensures var once := Translate(ctx, s, voi, preferred, width, height);
      Translate(once.context, s, voi, preferred, width, height) == once
  {
  }

  /** The bitrate reaches the device exactly when the mode is CBR or VBR;
      under CQP and lossless both the target and the buffer size are 0. */
  lemma BitrateReachesDevice(ctx: CodecContext, s: Settings, voi: VideoOutputInfo, preferred: VideoFormat,
                             width: int, height: int)
    requires voi.fpsDen != 0
    requires s.bitrate != 0
    ensures var m := SelectMode(s.rateControl, s.cbr);
      var r := Translate(ctx, s, voi, preferred, width, height).context;
      (r.bitRate == s.bitrate * 1000 <==> m == Cbr || m == Vbr)
      && (r.bitRate == 0 <==> m == Cqp || m == Lossless)
  {
  }
}
