# NVENC encoder adapter and DaCast service plugin, modelled in Dafny

This project models two plugins of OBS Studio as immutable records and
pure functions, and proves properties of them.

- The **NVENC H.264 encoder adapter** (`obs-ffmpeg-nvenc.c`). This covers:
  - the settings translator that turns the rate-control vocabulary
    (CBR, VBR, CQP, lossless) into codec-context parameters;
  - the pixel-format negotiation;
  - the frame stager (`copy_data`), which copies each plane row by row
    using the smaller of the two strides, with half-height chroma planes;
  - the first-packet state machine of `nvenc_encode`, which splits the
    codec header and SEI off the first non-empty packet only;
  - the header and SEI accessors, the defaults, and the visibility rule
    of the property sheet.
- The **DaCast service plugin** (`rtmp-dacast.c`). This covers:
  - trailing-slash normalisation and the channel-list request URL;
  - acceptance of the HTTP status and the choice of error message;
  - how a channel's id is derived, the channel list shown to the user,
    and the first-match channel selection;
  - copying the selected channel's configuration into the settings;
  - the service object and its credential getters, which only hand out
    credentials when authentication is on.

Files and modules:

| file | module | contents |
|---|---|---|
| `common.dfy` | `Common` | `Option` (C's NULL), `byte`, `uint32`, C integer conversions |
| `text.dfy` | `Text` | `astrcmpi` as ASCII case-insensitive equality; `"%lld"` rendering and its inverse |
| `nvenc_format.dfy` | `NvencFormat` | `valid_format`, `nvenc_video_info` |
| `nvenc_settings.dfy` | `NvencSettings` | rate-control and GOP logic of `nvenc_update`, `nvenc_defaults` |
| `nvenc_properties.dfy` | `NvencProperties` | `rate_control_modified`, the preset list |
| `nvenc_stager.dfy` | `NvencStager` | `copy_data` (methods with loop invariants) |
| `nvenc_session.dfy` | `NvencSession` | `nvenc_create`, `nvenc_encode`, `nvenc_extra_data`, `nvenc_sei_data` |
| `dacast_channels.dfy` | `DacastChannels` | channel id, channel list, selection, `update_settings_for_channel` |
| `dacast_http.dfy` | `DacastHttp` | `add_slash`, the URL, `http_request_send`'s verdict, `fetch_channels` |
| `dacast_service.dfy` | `DacastService` | `rtmp_dacast_update`, getters, refresh button |

Some collaborators are not modelled and are passed in as values instead:

- **libavcodec** is not modelled. Its answers are inputs:
  - `DeviceSetup` holds what happens when the codec is found, allocated
    and opened;
  - `DeviceOutput` holds the status of one encode call, whether a packet
    came out, the packet's bytes and its timestamps.
- **The H.264 Annex B splitter and the keyframe test** are
  `obs_extract_avc_headers` and `obs_avc_keyframe`. They are not part of
  this model. They are uninterpreted function parameters of type
  `seq<byte> -> AvcSplit` and `seq<byte> -> bool`.
- **The HTTP exchange** is a function from the URL to an `HttpExchange`.
  It says how the transfer ended.
- **The JSON parser** is a function from the wrapped response text to a
  `ParsedRoot`.
- **The DaCast API base URL** (`RTMP_DACAST_API_URL`) is a parameter.
  `lookup-config.h` is not part of this model.

Assumptions about libobs headers that are not part of this model:

- `MAX_AV_PLANES` is 8.
- `video_output_info.fps_num` and `fps_den` are `uint32_t`, and `fps_den`
  is never 0. The translator therefore requires `fpsDen != 0`, since C
  division by zero is undefined.
- `dstr_copy` of an empty text leaves the string unallocated, and
  `dstr_end` of an empty string is 0. So `add_slash` appends '/' to an
  allocated empty string and leaves an unallocated one alone.
- `astrcmpi` compares byte by byte after case-folding ASCII letters.

Points where the code does less than one might expect, and the model
follows it:

- **Keyframe flag.** The code leaves the keyframe decision to
  `obs_avc_keyframe`, applied to the packet's bytes. The model only says
  the flag is that function of the packet's data.
- **Frame resolution and chroma height.** The code checks neither the
  frame's resolution nor a 4:2:0 layout. The model copies `height/2`
  chroma rows for every format, I444 included. `RowsBelowUntouched`
  states that the lower rows of a chroma plane are never written.
- **Encoder lifetime.** There is no encoder until `nvenc_create`
  succeeds. `Create` returns `None` on every failure path.
- **Quantizer under CBR and lossless.** `global_quality` is written only
  under CQP. The `cqp = 0` under CBR and lossless only changes the
  logged local variable. `Translate` states exactly that.
- **Channel titles.** A channel's title is read with
  `obs_data_get_string`, which never answers NULL, so the "no title" test
  of `build_channel_list` cannot fire. A channel without a title is
  listed with an empty title.

## Model

| member | source | states |
|---|---|---|
| `NvencFormat.ValidFormat` | plugins/obs-ffmpeg/obs-ffmpeg-nvenc.c:66-71 | the encoder takes I420, NV12 and I444, which are exactly the formats stored in two or more planes |
| `NvencFormat.NegotiateFormat` | plugins/obs-ffmpeg/obs-ffmpeg-nvenc.c:66-86 | the result is always I420, NV12 or I444; it is the preferred format when that is valid, else the proposed format when that is valid, else NV12 |
| `NvencFormat.VideoInfo` | plugins/obs-ffmpeg/obs-ffmpeg-nvenc.c:73-86 | only the format of the scale info changes; it becomes the negotiated format: the preferred one when that is valid, else the source format when that is valid, else NV12 |
| `NvencFormat.NegotiateIdempotent` | plugins/obs-ffmpeg/obs-ffmpeg-nvenc.c:73-86 | negotiating again from the negotiated format changes nothing, so applying `nvenc_video_info` twice to any scale info equals applying it once |
| `NvencSettings.SelectMode` | plugins/obs-ffmpeg/obs-ffmpeg-nvenc.c:150-188 | the deprecated cbr flag forces CBR; otherwise CQP, lossless and VBR are selected exactly when the string equals "cqp", "lossless" or "vbr" up to case; anything else is CBR |
| `NvencSettings.LosslessPreset` | plugins/obs-ffmpeg/obs-ffmpeg-nvenc.c:177-181 | the lossless preset is "losslesshp" exactly when the preset is "hp" or "llhp" up to case, else "lossless" |
| `NvencSettings.GopSize` | plugins/obs-ffmpeg/obs-ffmpeg-nvenc.c:207-211 | a keyint of 0 gives 250; otherwise, when the product does not overflow, the interval is keyint*fps_num/fps_den with the unsigned arithmetic C uses |
| `NvencSettings.GopSizeInRange` | plugins/obs-ffmpeg/obs-ffmpeg-nvenc.c:207-211 | within the 1-10 s keyint range and realistic frame rates the interval is exactly keyint*fps_num/fps_den |
| `NvencSettings.GopSizeExample` | plugins/obs-ffmpeg/obs-ffmpeg-nvenc.c:207-211 | 2 s at 30/1 is 60 frames; 0 s is 250 |
| `NvencSettings.Translate` | plugins/obs-ffmpeg/obs-ffmpeg-nvenc.c:130-213 | CQP: bitrate 0, global quality cqp. Lossless: bitrate and cqp 0, lossless preset substituted. VBR: bitrate kept, no min/max. CBR: cbr option set, min = max = bitrate*1000, cqp 0. Always: bit_rate = rc_buffer_size = adjusted bitrate*1000; profile, level, 2-pass, GPU and B-frames passed through; negotiated format, colour mapping, time base and GOP size set. Fields a mode does not write keep their previous value |
| `NvencSettings.Defaults` | plugins/obs-ffmpeg/obs-ffmpeg-nvenc.c:374-386 | defaults: 850 kbit/s, keyint 0, cqp 23, CBR, preset "default", profile "main", level "auto", 2-pass on, GPU 0, 2 B-frames |
| `NvencSettings.DefaultsTranslate` | plugins/obs-ffmpeg/obs-ffmpeg-nvenc.c:374-386 | the defaults configure true CBR at 850000 bit/s with min = max = buffer = 850000 and a 250-frame GOP |
| `NvencSettings.CbrOverrideForcesCbr` | plugins/obs-ffmpeg/obs-ffmpeg-nvenc.c:143-158 | with the deprecated cbr flag set, the device gets true CBR whatever the mode string says |
| `NvencSettings.TranslateIdempotent` | plugins/obs-ffmpeg/obs-ffmpeg-nvenc.c:165-211 | applying the same settings twice gives the same context as applying them once |
| `NvencSettings.BitrateReachesDevice` | plugins/obs-ffmpeg/obs-ffmpeg-nvenc.c:195-196 | for a non-zero bitrate, bit_rate is bitrate*1000 exactly under CBR and VBR, and 0 exactly under CQP and lossless |
| `NvencProperties.PresetItems` | plugins/obs-ffmpeg/obs-ffmpeg-nvenc.c:439-452 | seven presets; item 0 is "default" and item 2 is "hp" |
| `NvencProperties.RateControlModified` | plugins/obs-ffmpeg/obs-ffmpeg-nvenc.c:388-410 | bitrate visible iff the mode is CBR or VBR; cqp visible iff CQP; preset i disabled iff lossless and i is not 0 or 2; items keep their names, values and order; returns true |
| `NvencProperties.VisibilityAgreesWithTranslator` | plugins/obs-ffmpeg/obs-ffmpeg-nvenc.c:388-399 | without the deprecated flag, the bitrate field is shown iff the device gets the bitrate, and the cqp field iff the device gets the cqp |
| `NvencProperties.LosslessPresetsSelectable` | plugins/obs-ffmpeg/obs-ffmpeg-nvenc.c:401-407 | under lossless the selectable presets are exactly "default" and "hp", which the translator maps to "lossless" and "losslesshp" |
| `NvencProperties.DeprecatedCbrNotShown` | plugins/obs-ffmpeg/obs-ffmpeg-nvenc.c:391-397 | the rule ignores the deprecated cbr flag: whenever the mode string names CQP or lossless and the flag is set with a non-zero bitrate, the sheet hides the bitrate while the device gets true CBR at bitrate*1000 |
| `NvencProperties.DeprecatedCbrExample` | plugins/obs-ffmpeg/obs-ffmpeg-nvenc.c:391-397 | "CQP" with the flag and 2500 kbit/s: bitrate hidden, 2500000 bit/s sent to the device |
| `NvencStager.Memcpy` | plugins/obs-ffmpeg/obs-ffmpeg-nvenc.c:315-317 | the n bytes at the destination offset become the source bytes; every other byte is kept |
| `NvencStager.PlaneRows` | plugins/obs-ffmpeg/obs-ffmpeg-nvenc.c:309 | plane 0 copies height rows; other planes copy height/2 rows, truncated |
| `NvencStager.CopyPlane` | plugins/obs-ffmpeg/obs-ffmpeg-nvenc.c:305-318 | for each row y below the row count and each i below min(src_stride, dst_stride), dst[y*dst_stride+i] = src[y*src_stride+i]; every other byte is unchanged |
| `NvencStager.StageNextRow` | plugins/obs-ffmpeg/obs-ffmpeg-nvenc.c:311-318 | copying row y onto a plane with y rows staged gives y+1 rows staged, without disturbing earlier rows |
| `NvencStager.CopyData` | plugins/obs-ffmpeg/obs-ffmpeg-nvenc.c:298-320 | every plane the frame has is staged with its row count; absent planes and all strides are unchanged |
| `NvencStager.PlaneStagedUnique` | plugins/obs-ffmpeg/obs-ffmpeg-nvenc.c:298-320 | the staging contract determines the staged plane completely |
| `NvencStager.StagingIdempotent` | plugins/obs-ffmpeg/obs-ffmpeg-nvenc.c:298-320 | staging the same frame plane again onto an already staged plane changes nothing, for any strides |
| `NvencStager.EqualStridesLossless` | plugins/obs-ffmpeg/obs-ffmpeg-nvenc.c:305-318 | with equal strides and exactly rows*stride bytes, the staged plane equals the frame plane |
| `NvencStager.RowsBelowUntouched` | plugins/obs-ffmpeg/obs-ffmpeg-nvenc.c:309-311 | rows at or below the row count are never written, so the lower half of an I444 chroma plane is left as it was |
| `NvencSession.InitCodec` | plugins/obs-ffmpeg/obs-ffmpeg-nvenc.c:88-121 | the codec is ready iff avcodec_open2 returns >= 0, the frame is allocated and avpicture_alloc returns >= 0; the frame then carries the context's pixel format, size, colour space and range |
| `NvencSession.Create` | plugins/obs-ffmpeg/obs-ffmpeg-nvenc.c:264-296 | an encoder exists iff the codec is found, the context is allocated, and open, frame and picture allocation succeed; it starts in the first-packet state with empty header, SEI and buffer and the translated context, and its device frame has the negotiated format and the encoder's size |
| `NvencSession.Encode` | plugins/obs-ffmpeg/obs-ffmpeg-nvenc.c:335-371 | a negative status fails and changes nothing; a missing or empty packet gives no output and changes nothing; the first non-empty packet sets header, SEI and buffer from the splitter and clears the first-packet flag; later packets replace the buffer verbatim; a produced packet is video, with the buffer as data, the device's pts/dts, and the keyframe test of the buffer |
| `NvencSession.NvencEncode` | plugins/obs-ffmpeg/obs-ffmpeg-nvenc.c:322-372 | the frame is staged before the device answers, even when the call then fails; the encoder and outcome are those of `Encode` for the device's answer (so a first packet splits off header and SEI and clears the flag); returns false iff the device status is negative; a packet is received iff the output is present and non-empty |
| `NvencSession.ExtraData` | plugins/obs-ffmpeg/obs-ffmpeg-nvenc.c:502-509 | always succeeds; hands out the header, which is empty before the first packet |
| `NvencSession.SeiData` | plugins/obs-ffmpeg/obs-ffmpeg-nvenc.c:511-518 | always succeeds; hands out the SEI, which is empty before the first packet |
| `NvencSession.AfterFirstPacketVerbatim` | plugins/obs-ffmpeg/obs-ffmpeg-nvenc.c:342-357 | after the first packet, header and SEI never change, and the packets delivered are exactly the device's non-empty outputs before the first failure, byte for byte |
| `NvencSession.FirstPacketSplitOnce` | plugins/obs-ffmpeg/obs-ffmpeg-nvenc.c:342-354 | from a fresh encoder, the first-packet flag clears iff some call before the first failure produces a packet; then header, SEI and the first payload are the splitter's answer for that packet |
| `Text.NatToDecimal` | plugins/rtmp-dacast/rtmp-dacast.c:274-275 | the decimal digits of a natural number, at least one, with no leading zero |
| `Text.DecimalString` | plugins/rtmp-dacast/rtmp-dacast.c:274-275 | "%lld": a minus sign exactly for negative values; "0" exactly for 0 |
| `Text.ParseNatToDecimal` | plugins/rtmp-dacast/rtmp-dacast.c:274-275 | reading the digits back gives the number |
| `Text.DecimalRoundTrip` | plugins/rtmp-dacast/rtmp-dacast.c:274-275 | reading a "%lld" rendering back gives the number, sign included |
| `Text.DecimalStringInjective` | plugins/rtmp-dacast/rtmp-dacast.c:274-275 | distinct integer ids render to distinct strings |
| `DacastHttp.AddSlash` | plugins/rtmp-dacast/rtmp-dacast.c:38-43 | an unallocated string is untouched; otherwise the result ends with '/', a string ending in '/' is unchanged, and any other gets one '/' appended |
| `DacastHttp.AddSlashIdempotent` | plugins/rtmp-dacast/rtmp-dacast.c:38-43 | adding the slash twice is adding it once |
| `DacastHttp.ChannelListUrl` | plugins/rtmp-dacast/rtmp-dacast.c:173-178 | the URL is the base, a '/' if the base lacks one, "external/obs/channel?apikey=" and the key |
| `DacastHttp.ChannelListUrlSlashInsensitive` | plugins/rtmp-dacast/rtmp-dacast.c:173-178 | a base with and without its trailing slash request the same URL |
| `DacastHttp.SendRequest` | plugins/rtmp-dacast/rtmp-dacast.c:95-144 | the request succeeds iff the server answered with 200 <= status < 400; the status stays 0 when it was never read; curl's error text is kept |
| `DacastHttp.FailureMessage` | plugins/rtmp-dacast/rtmp-dacast.c:184-197 | the message is the prefix, then the access-denied text for status 403 (and only then, unless curl's text is that text), else curl's text if non-empty, else "the request has failed." |
| `DacastHttp.WrapBody` | plugins/rtmp-dacast/rtmp-dacast.c:206-209 | the body is wrapped between `{"data":` and `}`, and can be read back from between them |
| `DacastHttp.FetchChannels` | plugins/rtmp-dacast/rtmp-dacast.c:161-233 | with no key: channels erased, error cleared, no request. Otherwise the channel URL is requested. A failed request, a parse failure and a missing array each set their message and keep the old list. Success stores the list and clears the error. Only channels and error ever change |
| `DacastChannels.ChannelId` | plugins/rtmp-dacast/rtmp-dacast.c:267-280 | the string id if non-empty, else the decimal rendering of a non-zero integer id (which reads back as that integer), else empty; empty iff the string id is empty and the integer id is 0 |
| `DacastChannels.ChannelEntries` | plugins/rtmp-dacast/rtmp-dacast.c:290-307 | every entry is the (title, id) of a channel with a non-empty id; no more entries than channels |
| `DacastChannels.BuildChannelList` | plugins/rtmp-dacast/rtmp-dacast.c:282-311 | the list is rebuilt from scratch: empty without a channel array, else the entries of the channels |
| `DacastChannels.ChannelEntriesAppend` | plugins/rtmp-dacast/rtmp-dacast.c:290-307 | the list of a concatenation is the concatenation of the lists, so channel order is kept |
| `DacastChannels.ListedChannelsAppear` | plugins/rtmp-dacast/rtmp-dacast.c:290-307 | every channel with an id has its (title, id) entry in the list, a missing title showing as "" |
| `DacastChannels.FirstMatch` | plugins/rtmp-dacast/rtmp-dacast.c:373-380 | the search returns a channel whose non-empty id equals the selected id, with no match before it, or none when no channel matches |
| `DacastChannels.FirstMatchFindsFirst` | plugins/rtmp-dacast/rtmp-dacast.c:373-380 | whenever a first match exists, the search returns exactly it |
| `DacastChannels.UpdateSettingsForChannel` | plugins/rtmp-dacast/rtmp-dacast.c:235-265 | without a config or with an empty server nothing changes; otherwise server, stream key, username, password and use_auth = html5 are set, even for an empty stream key; key, selection, list and error are never touched |
| `DacastChannels.HandleChannelSelected` | plugins/rtmp-dacast/rtmp-dacast.c:359-390 | an empty selection or no match leaves the settings unchanged; otherwise the first matching channel drives the update; always returns false |
| `DacastService.Update` | plugins/rtmp-dacast/rtmp-dacast.c:319-335 | each service field becomes the setting of the same name |
| `DacastService.Url` | plugins/rtmp-dacast/rtmp-dacast.c:459-463 | the output is given the stored server |
| `DacastService.StreamKey` | plugins/rtmp-dacast/rtmp-dacast.c:465-469 | the output is given the stored stream key |
| `DacastService.Username` | plugins/rtmp-dacast/rtmp-dacast.c:471-478 | NULL iff authentication is off; otherwise the stored username |
| `DacastService.Password` | plugins/rtmp-dacast/rtmp-dacast.c:480-487 | NULL iff authentication is off; otherwise the stored password |
| `DacastService.GettersFollowSettings` | plugins/rtmp-dacast/rtmp-dacast.c:459-487 | after an update the getters hand out the settings' server and stream key, and the settings' credentials iff use_auth is set |
| `DacastService.SelectedChannelReachesService` | plugins/rtmp-dacast/rtmp-dacast.c:359-390 | after selecting a channel with a server and applying the settings, the service uses that channel's server and stream name, and hands out its credentials iff the channel is HTML5 |
| `DacastService.UnmatchedSelectionKeepsService` | plugins/rtmp-dacast/rtmp-dacast.c:364-380 | a selection that matches no channel leaves the service's parameters as they were |
| `DacastService.RefreshChannels` | plugins/rtmp-dacast/rtmp-dacast.c:392-408 | the settings are those of fetching with the settings' key and then re-applying the selected channel; the list is built from them; with no key the list is empty and the error cleared; the key and selection are kept; returns true |
| `DacastService.RefreshShowsFetchedChannels` | plugins/rtmp-dacast/rtmp-dacast.c:392-408 | when the request is accepted and the answer holds a channel array, the refreshed settings hold that array, the error is cleared and the list shows exactly its channels |
| `DacastService.RefreshKeepsChannelsOnFailure` | plugins/rtmp-dacast/rtmp-dacast.c:392-408 | when the request fails, the previous channels stay listed and the error names the cause |

## Left out

- The frame's timestamp (`vframe->pts = frame->pts`) only goes to the device. The packet's pts and dts are taken from the device's answer (`DeviceOutput`), so the model drops the frame's pts.
- Logging, `nvenc_getname`, `rtmp_dacast_getname`, `obs_module_load` and the construction of the property sheets are left out. They are presentation only. The exception is the NVENC preset list, which the visibility rule indexes.
- libavcodec calls are not modelled: `avcodec_open2`, `avcodec_encode_video2`, the `av_opt_set*` calls, `avpicture_alloc`, and frame allocation and release. Their results are inputs (`DeviceSetup`, `DeviceOutput`). The private options they set are fields of `CodecContext`.
- `obs_to_ffmpeg_video_format` is not part of this model. The context's pixel format is recorded as the negotiated libobs format.
- `nvenc_destroy` is left out, including its drain loop. Whether the loop ends depends on the device, and it only releases resources. The encoder's `initialized` flag, which only steers that loop, is left out with it. The same goes for all buffer freeing and obs_data reference counting, including the release of `channel` before its use in `handle_channel_selected`.
- Integer overflow is not modelled for the reads of integer settings. The model does not model the `(int)` casts of 64-bit settings values. It takes the values already in `int` range.
- `NvencSettings.Translate`: does not model overflow of `bitrate * 1000` in C `int` arithmetic (undefined for bitrates above 2147483 kbit/s). The property sheet limits the bitrate to 50..300000, where the product fits.
- `NvencStager.CopyPlane`, `NvencStager.CopyData`: memory safety is required rather than modelled. The strides must not be negative and the copied rows must lie inside both buffers. In C these are callers' obligations whose violation is undefined behaviour.
- `NvencSession.Encode`: the packet's `size` is the length of the buffer. The `int` width of `av_pkt.size` is not modelled.
- Memory ownership of packets is not modelled. The packet's data aliases the reused session buffer, and the model returns the buffer's value.
- The curl transport is not modelled: the timeout, headers, user agent and the write callback that accumulates the body. Only how the exchange ended is an input.
- The JSON parser is not modelled. Its answer for the wrapped body is an input.
- `DacastHttp.FetchChannels`: the error property's visibility is left out. `rtmp_dacast_set_error` shows it exactly when a message is set, so it follows from `error` being `Some`.
- Strings are sequences of characters without an embedded NUL. The C code cannot tell a missing string from an empty one in the places the model merges them. One example is the "channel" selection, which `obs_data_get_string` never returns as NULL.
