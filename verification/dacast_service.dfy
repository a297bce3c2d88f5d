/** The DaCast service object: the connection parameters it keeps from the
    settings and the getters the streaming output calls. Credentials are
    only handed out when the selected channel asks for authentication. */
module DacastService {
  import opened Common
  import opened DacastChannels
  import opened DacastHttp

  /** `struct rtmp_dacast`. */
  datatype Service = Service(
    apiKey: string,
    server: string,
    streamKey: string,
    username: string,
    password: string,
    useAuth: bool)

  /** `rtmp_dacast_update` (and so `rtmp_dacast_create`): every field is
      replaced by a copy of the setting of the same name. */
  function Update(s: Settings): (p: Service)
    ensures p.apiKey == s.apiKey && p.server == s.server && p.streamKey == s.streamKey
    ensures p.username == s.username && p.password == s.password && p.useAuth == s.useAuth
  {
    Service(s.apiKey, s.server, s.streamKey, s.username, s.password, s.useAuth)
  }

  /** `rtmp_dacast_url`: the stored server. */
  function Url(p: Service): (r: string)
    ensures r == p.server
  {
    p.server
  }

  /** `rtmp_dacast_stream_key`: the stored stream key. */
  function StreamKey(p: Service): (r: string)
    ensures r == p.streamKey
  {
    p.streamKey
  }

  /** `rtmp_dacast_username`: NULL unless authentication is on. */
  function Username(p: Service): (r: Option<string>)
    ensures r.Some? <==> p.useAuth
    ensures r.Some? ==> r.value == p.username
  {
    if !p.useAuth then None else Some(p.username)
  }

  /** `rtmp_dacast_password`: NULL unless authentication is on. */
  function Password(p: Service): (r: Option<string>)
    ensures r.Some? <==> p.useAuth
    ensures r.Some? ==> r.value == p.password
  {
    if !p.useAuth then None else Some(p.password)
  }

  /** The getters hand the streaming output what the last update read
      from the settings: server and stream key always, credentials only
      with authentication on. */
  lemma GettersFollowSettings(s: Settings)
    ensures Url(Update(s)) == s.server && StreamKey(Update(s)) == s.streamKey
    ensures Username(Update(s)) == (if s.useAuth then Some(s.username) else None)
    ensures Password(Update(s)) == (if s.useAuth then Some(s.password) else None)
  {
  }

  /** Selecting a channel and applying the settings gives the service that
      channel's publishing point and stream name, and its credentials
      exactly when the channel is an HTML5 one. */
  lemma SelectedChannelReachesService(s: Settings, j: int)
    requires IsFirstMatch(ChannelsOf(s), s.channel, j)
    requires ChannelsOf(s)[j].config.Some? && ChannelsOf(s)[j].config.value.publishingPoint != ""
    ensures var c := ChannelsOf(s)[j];
      var p := Update(HandleChannelSelected(s).0);
      && Url(p) == c.config.value.publishingPoint
      && StreamKey(p) == c.config.value.streamName
      && Username(p) == (if c.html5 then Some(c.config.value.login) else None)
      && Password(p) == (if c.html5 then Some(c.config.value.password) else None)
  {
  }

  /** Selecting nothing, or an id no channel has, leaves the service's
      parameters as they were. */
  lemma UnmatchedSelectionKeepsService(s: Settings)
    requires forall c :: c in ChannelsOf(s) ==> !Matches(c, s.channel)
    ensures Update(HandleChannelSelected(s).0) == Update(s)
  {
  }

  /** What a click on "refresh channels" leaves behind: the settings and
      the channel list property's entries. */
  datatype Refreshed = Refreshed(settings: Settings, entries: seq<ListEntry>, refresh: bool)

  /** `handle_refresh_channels_clicked`: fetch the channels with the
      settings' key, re-apply the selected channel, rebuild the list, and
      ask for the sheet to be refreshed. */
  function RefreshChannels(s: Settings, apiBase: string, exchange: string -> HttpExchange,
                           parse: string -> ParsedRoot): (r: Refreshed)
    ensures r.refresh
    ensures r.entries == BuildChannelList(r.settings.channels)
    ensures s.apiKey == "" ==> r.settings.channels.None? && r.settings.error.None? && r.entries == []
    ensures r.settings.apiKey == s.apiKey && r.settings.channel == s.channel
    ensures r.settings == HandleChannelSelected(FetchChannels(s, Some(s.apiKey), apiBase, exchange, parse).settings).0
  {
    var fetched := FetchChannels(s, Some(s.apiKey), apiBase, exchange, parse).settings;
    var selected := HandleChannelSelected(fetched).0;
    Refreshed(selected, BuildChannelList(selected.channels), true)
  }

  /** A refresh whose request is accepted and whose answer holds a channel
      array shows exactly that array's channels, with the error cleared. */
  lemma RefreshShowsFetchedChannels(s: Settings, apiBase: string, exchange: string -> HttpExchange,
                                    parse: string -> ParsedRoot, cs: seq<Channel>)
    requires s.apiKey != ""
    requires SendRequest(exchange(ChannelListUrl(apiBase, s.apiKey))).ok
    requires parse(WrapBody(SendRequest(exchange(ChannelListUrl(apiBase, s.apiKey))).data)) == Parsed(Some(cs))
    ensures var r := RefreshChannels(s, apiBase, exchange, parse);
      r.settings.channels == Some(cs) && r.settings.error.None? && r.entries == ChannelEntries(cs)
  {
  }

  /** A refresh whose request fails keeps the previous channels on show
      and reports why. */
  lemma RefreshKeepsChannelsOnFailure(s: Settings, apiBase: string, exchange: string -> HttpExchange,
                                      parse: string -> ParsedRoot)
    requires s.apiKey != ""
    requires !SendRequest(exchange(ChannelListUrl(apiBase, s.apiKey))).ok
    ensures var r := RefreshChannels(s, apiBase, exchange, parse);
      var res := SendRequest(exchange(ChannelListUrl(apiBase, s.apiKey)));
      && r.settings.channels == s.channels
      && r.settings.error == Some(FailureMessage(res.status, res.error))
      && r.entries == BuildChannelList(s.channels)
  {
  }
}
