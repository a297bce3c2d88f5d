/** The DaCast service plugin's channel logic: deriving a channel's id,
    building the channel list shown to the user, and copying the selected
    channel's publishing configuration into the settings. Channels are the
    entries of the JSON array the DaCast API returns, already parsed. */
module DacastChannels {
  import opened Common
  import opened Text

  /** A channel's "config" object. Missing strings read as "". */
  datatype ChannelConfig = ChannelConfig(
    publishingPoint: string,   // "publishing_point_primary"
    streamName: string,        // "stream_name"
    login: string,
    password: string)

  /** One channel of the API's answer. The "id" item is read both as a
      string (`idText`, "" when it is a number or missing) and as an
      integer (`idNumber`, 0 when it is a string, missing or 0). A missing
      "title" reads as "", as `obs_data_get_string` never answers NULL. */
  datatype Channel = Channel(
    idText: string,
    idNumber: int,
    title: string,
    html5: bool,
    config: Option<ChannelConfig>)

  /** The service's settings object, as far as the plugin reads and writes
      it. `channels` is None when the "channels" item is absent; `error`
      is None when the "error" item was last set to NULL. */
  datatype Settings = Settings(
    apiKey: string,
    channel: string,
    channels: Option<seq<Channel>>,
    error: Option<string>,
    server: string,
    streamKey: string,
    username: string,
    password: string,
    useAuth: bool)

  /** One entry of the channel list property: shown title and stored id. */
  datatype ListEntry = ListEntry(title: string, id: string)

  /** `rtmp_dacast_channel_id`: the string id if there is one, else the
      decimal rendering of a non-zero integer id, else empty. */
  function ChannelId(c: Channel): (id: string)
    ensures id == "" <==> c.idText == "" && c.idNumber == 0
    ensures c.idText != "" ==> id == c.idText
    ensures c.idText == "" && c.idNumber != 0 ==> IsDecimal(id) && ParseDecimal(id) == c.idNumber
  {
    if c.idText != "" then c.idText
    else if c.idNumber != 0 then
      DecimalRoundTrip(c.idNumber);
      DecimalString(c.idNumber)
    else ""
  }

  /** A channel is listed when it has an id. The "no title" test of
      `build_channel_list` can never fire, since the title is read with
      `obs_data_get_string`; a channel without one is listed as "". */
  predicate Listed(c: Channel)
  {
    ChannelId(c) != ""
  }

  function Entry(c: Channel): ListEntry
  {
    ListEntry(c.title, ChannelId(c))
  }

  /** The entries for a sequence of channels: one per listed channel, in
      the order of the channels. */
  function ChannelEntries(cs: seq<Channel>): (r: seq<ListEntry>)
    ensures |r| <= |cs|
    ensures forall e :: e in r ==> exists c :: c in cs && Listed(c) && e == Entry(c)
    ensures forall e :: e in r ==> e.id != ""
    decreases |cs|
  {
    if |cs| == 0 then []
    else
      var rest := ChannelEntries(cs[1..]);
      assert forall c :: c in cs[1..] ==> c in cs;
      if Listed(cs[0]) then [Entry(cs[0])] + rest else rest
  }

  /** `build_channel_list`: the list is cleared, then filled from the
      "channels" item (nothing when it is absent). */
  function BuildChannelList(channels: Option<seq<Channel>>): (r: seq<ListEntry>)
    ensures channels.None? ==> r == []
    ensures channels.Some? ==> r == ChannelEntries(channels.value)
  {
    match channels
    case None => []
    case Some(cs) => ChannelEntries(cs)
  }

  /** Listing distributes over concatenation, so the list keeps the order
      of the channels. */
  lemma {:induction false} ChannelEntriesAppend(a: seq<Channel>, b: seq<Channel>)
    ensures ChannelEntries(a + b) == ChannelEntries(a) + ChannelEntries(b)
    decreases |a|
  {
    if |a| > 0 {
      assert (a + b)[1..] == a[1..] + b;
      ChannelEntriesAppend(a[1..], b);
    } else {
      assert a + b == b;
    }
  }

  /** Every listed channel has its entry in the list. */
  lemma {:induction false} ListedChannelsAppear(cs: seq<Channel>, c: Channel)
    requires c in cs && Listed(c)
    ensures Entry(c) in ChannelEntries(cs)
    decreases |cs|
  {
    if cs[0] != c {
      assert c in cs[1..];
      ListedChannelsAppear(cs[1..], c);
    }
  }

  /** A channel matches a selected id when its derived id is non-empty and
      equal to it. */
  predicate Matches(c: Channel, id: string)
  {
    ChannelId(c) != "" && ChannelId(c) == id
  }

  /** Channel `j` is the first one matching `id`. */
  predicate IsFirstMatch(cs: seq<Channel>, id: string, j: int)
  {
    0 <= j < |cs| && Matches(cs[j], id) && forall i :: 0 <= i < j ==> !Matches(cs[i], id)
  }

  /** The index of the first channel at or after `from` that matches. */
  function FirstMatch(cs: seq<Channel>, id: string, from: nat): (r: Option<nat>)
    requires from <= |cs|
    ensures r.Some? ==> from <= r.value < |cs| && Matches(cs[r.value], id)
    ensures r.Some? ==> forall j :: from <= j < r.value ==> !Matches(cs[j], id)
    ensures r.None? ==> forall j :: from <= j < |cs| ==> !Matches(cs[j], id)
    decreases |cs| - from
  {
    if from == |cs| then None
    else if Matches(cs[from], id) then Some(from)
    else FirstMatch(cs, id, from + 1)
  }

  /** The search finds the first match and nothing else. */
  lemma FirstMatchFindsFirst(cs: seq<Channel>, id: string, j: int)
    requires IsFirstMatch(cs, id, j)
    ensures FirstMatch(cs, id, 0) == Some(j)
  {
  }

  /** `update_settings_for_channel`: nothing happens without a config or
      with an empty publishing point; otherwise server, stream key,
      credentials and the auth flag are taken from the channel, even when
      its stream name is empty. */
  function UpdateSettingsForChannel(s: Settings, c: Channel): (r: Settings)
    ensures c.config.None? || c.config.value.publishingPoint == "" ==> r == s
    ensures c.config.Some? && c.config.value.publishingPoint != "" ==>
      && r.server == c.config.value.publishingPoint
      && r.streamKey == c.config.value.streamName
      && r.username == c.config.value.login
      && r.password == c.config.value.password
      && r.useAuth == c.html5
    ensures r.apiKey == s.apiKey && r.channel == s.channel && r.channels == s.channels && r.error == s.error
  {
    match c.config
    case None => s
    case Some(cfg) =>
      if cfg.publishingPoint == "" then s
      else s.(server := cfg.publishingPoint, streamKey := cfg.streamName,
              username := cfg.login, password := cfg.password, useAuth := c.html5)
  }

  /** `handle_channel_selected`: the first channel whose id is the selected
      one, if any, drives the update; an empty selection or no match leaves
      the settings alone. It always returns false (no refresh). */
  function HandleChannelSelected(s: Settings): (r: (Settings, bool))
    ensures !r.1
    ensures s.channel == "" ==> r.0 == s
    ensures (forall c :: c in ChannelsOf(s) ==> !Matches(c, s.channel)) ==> r.0 == s
    ensures forall j :: IsFirstMatch(ChannelsOf(s), s.channel, j) ==>
      r.0 == UpdateSettingsForChannel(s, ChannelsOf(s)[j])
  {
    if s.channel == "" then (s, false)
    else
      var cs := ChannelsOf(s);
      assert forall j :: IsFirstMatch(cs, s.channel, j) ==> FirstMatch(cs, s.channel, 0) == Some(j) by {
        forall j | IsFirstMatch(cs, s.channel, j) ensures FirstMatch(cs, s.channel, 0) == Some(j) {
          FirstMatchFindsFirst(cs, s.channel, j);
        }
      }
      match FirstMatch(cs, s.channel, 0)
      case None => (s, false)
      case Some(j) => (UpdateSettingsForChannel(s, cs[j]), false)
  }

  /** The "channels" array of the settings; an absent array has no items. */
  function ChannelsOf(s: Settings): seq<Channel>
  {
    match s.channels
    case None => []
    case Some(cs) => cs
  }
}
