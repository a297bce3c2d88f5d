/** The DaCast plugin's channel fetch: building the request URL, deciding
    whether the HTTP exchange succeeded, choosing the error message, and
    storing the channel list or the error in the settings. The HTTP
    exchange (libcurl) and the JSON parser are collaborators passed in as
    functions. */
module DacastHttp {
  import opened Common
  import opened DacastChannels

  /** The fixed parts of the messages and the request path. */
  const ErrorPrefix: string := "Error retrieving channel list: "
  const AccessDenied: string := "access denied.\n\nPlease make sure the Open Broadcaster Key is valid."
  const RequestFailed: string := "the request has failed."
  const ParseError: string := "Error parsing JSON response."
  const MissingChannels: string := "Missing or invalid channels data in API response."
  const ChannelPath: string := "external/obs/channel?apikey="

  predicate EndsWithSlash(s: string)
  {
    |s| > 0 && s[|s| - 1] == '/'
  }

  /** `add_slash` on a `struct dstr`: an unallocated string (None) is left
      alone; otherwise a '/' is appended unless the text already ends in
      one. */
  function AddSlash(s: Option<string>): (r: Option<string>)
    ensures s.None? ==> r.None?
    ensures s.Some? ==> r.Some? && EndsWithSlash(r.value)
    ensures s.Some? && EndsWithSlash(s.value) ==> r == s
    ensures s.Some? && !EndsWithSlash(s.value) ==> r.value == s.value + "/"
  {
    match s
    case None => None
    case Some(text) => if EndsWithSlash(text) then s else Some(text + "/")
  }

  lemma AddSlashIdempotent(s: Option<string>)
    ensures AddSlash(AddSlash(s)) == AddSlash(s)
  {
  }

  /** `dstr_copy`: copying an empty text leaves the string unallocated. */
  function DstrCopy(text: string): (r: Option<string>)
    ensures r.None? <==> text == ""
    ensures r.Some? ==> r.value == text
  {
    if text == "" then None else Some(text)
  }

  /** `dstr_cat` onto a possibly unallocated string. */
  function DstrText(s: Option<string>): string
  {
    match s
    case None => ""
    case Some(text) => text
  }

  /** The request URL of `fetch_channels`: the API base with a trailing
      slash, the channel path, and the key appended as it is. */
  function ChannelListUrl(apiBase: string, apiKey: string): (url: string)
    ensures apiBase != "" && EndsWithSlash(apiBase) ==> url == apiBase + ChannelPath + apiKey
    ensures apiBase != "" && !EndsWithSlash(apiBase) ==> url == apiBase + "/" + ChannelPath + apiKey
    ensures apiBase == "" ==> url == ChannelPath + apiKey
  {
    DstrText(AddSlash(DstrCopy(apiBase))) + ChannelPath + apiKey
  }

  /** Whether the base carries its trailing slash or not makes no
      difference to the request. */
  lemma ChannelListUrlSlashInsensitive(apiBase: string, apiKey: string)
    requires apiBase != "" && !EndsWithSlash(apiBase)
    ensures ChannelListUrl(apiBase + "/", apiKey) == ChannelListUrl(apiBase, apiKey)
  {
    assert EndsWithSlash(apiBase + "/");
  }

  /** How the HTTP exchange ended: libcurl could not start, the transfer
      failed (with curl's error text), the status could not be read (with
      whatever status and text were left), or the server answered. */
  datatype HttpExchange =
    | CurlUnavailable
    | TransferFailed(error: string)
    | StatusUnavailable(status: int, error: string)
    | Answered(status: int, error: string, body: string)

  /** `struct http_response` after `http_request_send`, with its verdict. */
  datatype HttpResponse = HttpResponse(ok: bool, status: int, error: string, data: string)

  /** A status the plugin accepts. */
  predicate RequestAccepted(status: int)
  {
    200 <= status < 400
  }

  /** `http_request_send`: succeeds only when the server answered with an
      accepted status. The status stays 0 unless it was read. */
  function SendRequest(x: HttpExchange): (r: HttpResponse)
    ensures r.ok <==> x.Answered? && RequestAccepted(x.status)
    ensures x.CurlUnavailable? ==> r.status == 0 && r.error == ""
    ensures x.TransferFailed? ==> r.status == 0 && r.error == x.error
    ensures x.StatusUnavailable? || x.Answered? ==> r.status == x.status && r.error == x.error
    ensures r.ok ==> r.data == x.body
  {
    match x
    case CurlUnavailable => HttpResponse(false, 0, "", "")
    case TransferFailed(e) => HttpResponse(false, 0, e, "")
    case StatusUnavailable(status, e) => HttpResponse(false, status, e, "")
    case Answered(status, e, body) => HttpResponse(RequestAccepted(status), status, e, body)
  }

  /** The message for a failed request names its cause: it always starts
      with the fixed prefix; it is the access-denied text exactly for
      status 403 (or a curl text that happens to be that text); otherwise
      curl's text when there is one, else the generic text. */
  function FailureMessage(status: int, curlError: string): (m: string)
    ensures |ErrorPrefix| <= |m| && m[..|ErrorPrefix|] == ErrorPrefix
    ensures m == ErrorPrefix + AccessDenied <==> status == 403 || curlError == AccessDenied
    ensures status != 403 && curlError != "" ==> m == ErrorPrefix + curlError
    ensures status != 403 && curlError == "" ==> m == ErrorPrefix + RequestFailed
  {
    var m := ErrorPrefix + (if status == 403 then AccessDenied else if curlError != "" then curlError else RequestFailed);
    assert status != 403 && curlError != AccessDenied ==> m != ErrorPrefix + AccessDenied by {
      if status != 403 && curlError != AccessDenied {
        if curlError == "" {
          assert |m| != |ErrorPrefix + AccessDenied|;
        } else {
          assert m[|ErrorPrefix|..] == curlError;
          assert (ErrorPrefix + AccessDenied)[|ErrorPrefix|..] == AccessDenied;
        }
      }
    }
    m
  }

  /** The JSON parser's answer for the wrapped response: no document, or a
      document whose "data" item is an array of channels or not. */
  datatype ParsedRoot = ParseFailed | Parsed(data: Option<seq<Channel>>)

  /** The response body wrapped into an object, since the parser does not
      take an array as the root. */
  function WrapBody(body: string): (w: string)
    ensures |w| == |body| + 9
    ensures w[..8] == "{\"data\":" && w[|w| - 1] == '}'
    ensures w[8..|w| - 1] == body
  {
    "{\"data\":" + body + "}"
  }

  /** What `fetch_channels` did: the settings afterwards and the URL it
      requested, if it made a request. */
  datatype Fetched = Fetched(settings: Settings, request: Option<string>)

  /** `fetch_channels`. Without a key the channel list is erased and the
      error cleared, with no request. Otherwise the channel list URL is
      requested; a failed request, an unparsable answer and an answer
      without a channel array each set their error message and keep the
      previous list; a good answer replaces the list and clears the
      error. Nothing else in the settings changes. */
  function FetchChannels(s: Settings, apiKey: Option<string>, apiBase: string,
                         exchange: string -> HttpExchange, parse: string -> ParsedRoot): (r: Fetched)
    ensures r.settings.(channels := s.channels, error := s.error) == s
    ensures apiKey.None? || apiKey.value == "" ==>
      r.request.None? && r.settings.channels.None? && r.settings.error.None?
    ensures apiKey.Some? && apiKey.value != "" ==> r.request == Some(ChannelListUrl(apiBase, apiKey.value))
    ensures apiKey.Some? && apiKey.value != "" ==>
      var res := SendRequest(exchange(ChannelListUrl(apiBase, apiKey.value)));
      && (!res.ok ==> r.settings.channels == s.channels
                      && r.settings.error == Some(FailureMessage(res.status, res.error)))
      && (res.ok && parse(WrapBody(res.data)).ParseFailed? ==>
            r.settings.channels == s.channels && r.settings.error == Some(ParseError))
      && (res.ok && parse(WrapBody(res.data)).Parsed? && parse(WrapBody(res.data)).data.None? ==>
            r.settings.channels == s.channels && r.settings.error == Some(MissingChannels))
      && (res.ok && parse(WrapBody(res.data)).Parsed? && parse(WrapBody(res.data)).data.Some? ==>
            r.settings.channels == parse(WrapBody(res.data)).data && r.settings.error.None?)
  {
    if apiKey.None? || apiKey.value == "" then
      Fetched(s.(channels := None, error := None), None)
    else
      var url := ChannelListUrl(apiBase, apiKey.value);
      var res := SendRequest(exchange(url));
      if !res.ok then
        Fetched(s.(error := Some(FailureMessage(res.status, res.error))), Some(url))
      else
        match parse(WrapBody(res.data))
        case ParseFailed => Fetched(s.(error := Some(ParseError)), Some(url))
        case Parsed(None) => Fetched(s.(error := Some(MissingChannels)), Some(url))
        case Parsed(Some(channels)) => Fetched(s.(channels := Some(channels), error := None), Some(url))
  }
}
