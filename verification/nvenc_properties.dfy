/** The NVENC property sheet's visibility rule (`rate_control_modified`),
    which must agree with the settings translator about which fields a
    rate-control mode uses. */
module NvencProperties {
  import opened Text
  import opened NvencFormat
  import opened NvencSettings

  /** One entry of a list property: what the user sees, the value it
      stores, and whether it can be selected. */
  datatype ListItem = ListItem(name: string, value: string, disabled: bool)

  /** The parts of the property sheet the rule touches. */
  datatype RcView = RcView(bitrateVisible: bool, cqpVisible: bool, presets: seq<ListItem>)

  /** The preset list of `nvenc_properties`, in the order it is built;
      display names are the localisation keys. */
  function PresetItems(): (items: seq<ListItem>)
    ensures |items| == 7
    ensures items[0].value == "default" && items[2].value == "hp"
  {
    [ ListItem("NVENC.Preset.default", "default", false),
      ListItem("NVENC.Preset.hq", "hq", false),
      ListItem("NVENC.Preset.hp", "hp", false),
      ListItem("NVENC.Preset.bd", "bd", false),
      ListItem("NVENC.Preset.ll", "ll", false),
      ListItem("NVENC.Preset.llhq", "llhq", false),
      ListItem("NVENC.Preset.llhp", "llhp", false) ]
  }

  /** Presets 0 and 2 stay selectable when lossless is chosen. */
  predicate LosslessCompatible(i: int)
  {
    i == 0 || i == 2
  }

  /** `rate_control_modified`: recomputes the view from the mode string and
      returns true (the sheet must be refreshed). The rule reads only the
      mode string, so it agrees with the translator's mode selection when
      the deprecated `cbr` flag is off; list items are only enabled or
      disabled, never added, removed or reordered. */
  function RateControlModified(rateControl: string, presets: seq<ListItem>): (r: (RcView, bool))
    ensures r.1
    ensures var m := SelectMode(rateControl, false);
      && (r.0.bitrateVisible <==> m == Cbr || m == Vbr)
      && (r.0.cqpVisible <==> m == Cqp)
    ensures |r.0.presets| == |presets|
    ensures forall i :: 0 <= i < |presets| ==>
      && r.0.presets[i].name == presets[i].name
      && r.0.presets[i].value == presets[i].value
      && (r.0.presets[i].disabled <==> SelectMode(rateControl, false) == Lossless && !LosslessCompatible(i))
  {
    var cqp := EqualsIgnoreCase(rateControl, "CQP");
    var lossless := EqualsIgnoreCase(rateControl, "lossless");
    assert cqp <==> EqualsIgnoreCase(rateControl, "cqp") by {
      assert forall i :: 0 <= i < 3 ==> Lower("CQP"[i]) == Lower("cqp"[i]);
    }
    var items := seq(|presets|, i requires 0 <= i < |presets| =>
      presets[i].(disabled := lossless && !LosslessCompatible(i)));
    (RcView(!cqp && !lossless, cqp, items), true)
  }

  /** What the sheet shows is what the translator uses: the bitrate field
      is shown exactly when the bitrate reaches the device, and the cqp
      field exactly when the cqp becomes the global quality. */
  lemma VisibilityAgreesWithTranslator(ctx: CodecContext, s: Settings, voi: VideoOutputInfo,
                                       preferred: VideoFormat, width: int, height: int,
                                       presets: seq<ListItem>)
    requires voi.fpsDen != 0
    requires !s.cbr
    ensures var view := RateControlModified(s.rateControl, presets).0;
      var r := Translate(ctx, s, voi, preferred, width, height);
      && (view.bitrateVisible ==> r.context.bitRate == s.bitrate * 1000)
      && (!view.bitrateVisible ==> r.context.bitRate == 0 && r.context.rcBufferSize == 0)
      && (view.cqpVisible ==> r.context.globalQuality == s.cqp)
      && (!view.cqpVisible ==> r.context.globalQuality == ctx.globalQuality)
  {
  }

  /** Under lossless the two presets left selectable are "default" and
      "hp", and the translator sends them to the two distinct lossless
      presets: nothing the user can pick is collapsed. */
  lemma LosslessPresetsSelectable(rateControl: string)
    requires SelectMode(rateControl, false) == Lossless
    ensures var items := RateControlModified(rateControl, PresetItems()).0.presets;
      forall i :: 0 <= i < |items| ==> (!items[i].disabled <==> items[i].value in {"default", "hp"})
    ensures LosslessPreset("default") == "lossless" && LosslessPreset("hp") == "losslesshp"
  {
    var items := RateControlModified(rateControl, PresetItems()).0.presets;
    assert !EqualsIgnoreCase("default", "hp") && !EqualsIgnoreCase("default", "llhp");
    forall i | 0 <= i < |items|
      ensures !items[i].disabled <==> items[i].value in {"default", "hp"}
    {
      assert items[i].value == PresetItems()[i].value;
    }
  }

  /** The deprecated `cbr` flag is not consulted by the rule: whenever the
      mode string names CQP or lossless and the flag is set, the sheet
      hides a bitrate that the translator then uses for true CBR. */
  lemma DeprecatedCbrNotShown(ctx: CodecContext, s: Settings, voi: VideoOutputInfo,
                              preferred: VideoFormat, width: int, height: int,
                              presets: seq<ListItem>)
    requires voi.fpsDen != 0
    requires s.cbr && s.bitrate != 0
    requires SelectMode(s.rateControl, false) == Cqp || SelectMode(s.rateControl, false) == Lossless
    ensures !RateControlModified(s.rateControl, presets).0.bitrateVisible
    ensures var r := Translate(ctx, s, voi, preferred, width, height);
      r.context.cbr && r.context.bitRate == s.bitrate * 1000 && r.context.bitRate != 0
  {
  }

  /** The same on a concrete sheet: "CQP" with the flag and 2500 kbit/s. */
  lemma DeprecatedCbrExample(ctx: CodecContext, s: Settings, voi: VideoOutputInfo,
                             preferred: VideoFormat, width: int, height: int)
    requires voi.fpsDen != 0
    requires s.cbr && s.rateControl == "CQP" && s.bitrate == 2500
    ensures !RateControlModified(s.rateControl, PresetItems()).0.bitrateVisible
    ensures Translate(ctx, s, voi, preferred, width, height).context.bitRate == 2500000
  {
    assert EqualsIgnoreCase("CQP", "cqp") by {
      assert forall i :: 0 <= i < 3 ==> Lower("CQP"[i]) == Lower("cqp"[i]);
    }
    DeprecatedCbrNotShown(ctx, s, voi, preferred, width, height, PresetItems());
  }
}
