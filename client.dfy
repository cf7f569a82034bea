/**
  The tracker client (client.go): configuration normalisation and
  validation, request shaping, and the mapping of the tracker's replies to
  outcomes for the two endpoints, acquire (`request`) and report (`done`).

  The network round trip is a parameter `send: Request -> Reply`: the reply
  the transport gives to a request, or its failure. Each call records in
  `sent` the requests it hands to the transport, so "no request is made"
  reads `sent == []`.
 */
module Client {

  import opened Wrappers
  import opened Errors
  import opened Text

  /** Go's `uint64`, the type of the acquire limit. */
  newtype uint64 = x: int | 0 <= x < 0x1_0000_0000_0000_0000

  /** The tracker used when the configuration names none. */
  const DefaultTrackerUrl := "https://legacy-api.arpa.li"

  /** The configuration fields a request is built from. */
  datatype Settings = Settings(
    trackerUrl: string,
    project: string,
    projectVersion: string,
    username: string,
    password: string)

  /** The retrying HTTP client the configuration owns; only its timeout is modelled. */
  datatype HttpClient = HttpClient(timeout: int)

  /** The caller's `TrackerConfig`, which `NewTrackerConfig` normalises in place. */
  class TrackerConfig {
    var project: string
    var projectVersion: string
    var trackerUrl: string
    var username: string
    var password: string
    var httpClient: Option<HttpClient>
    var requestTimeout: int

    /** A struct literal written by the caller: no HTTP client yet. */
    constructor (project: string, projectVersion: string, trackerUrl: string,
                 username: string, password: string, requestTimeout: int)
      ensures this.project == project && this.projectVersion == projectVersion
      ensures this.trackerUrl == trackerUrl && this.username == username
      ensures this.password == password && this.requestTimeout == requestTimeout
      ensures httpClient == None
    {
      this.project := project;
      this.projectVersion := projectVersion;
      this.trackerUrl := trackerUrl;
      this.username := username;
      this.password := password;
      this.requestTimeout := requestTimeout;
      httpClient := None;
    }

    /** The fields a request is built from, as they are now. */
    function Snapshot(): Settings
      reads this
    {
      Settings(trackerUrl, project, projectVersion, username, password)
    }
  }

  // ---------------------------------------------------------------------
  // Configuration normalisation and validation
  // ---------------------------------------------------------------------

  /**
    The tracker URL after normalisation: the default replaces an empty URL,
    and one trailing slash, if any, is dropped.
   */
  function NormalizeUrl(url: string): (r: string)
    ensures url == "" ==> r == DefaultTrackerUrl
    ensures url != "" ==> (r + "/" == url <==> url[|url| - 1] == '/')
    ensures url != "" && url[|url| - 1] != '/' ==> r == url
  {
    var u := if url == "" then DefaultTrackerUrl else url;
    if u[|u| - 1] == '/' then u[..|u| - 1] else u
  }

  /** Exactly one trailing slash is stripped: `x/` gives `x`, `x//` gives `x/`. */
  lemma StripsOneSlash(x: string)
    ensures NormalizeUrl(x + "/") == x
    ensures NormalizeUrl(x + "//") == x + "/"
  {
    assert (x + "//")[..|x| + 1] == x + "/";
  }

  /** The possible causes of a validation failure, in the order the options are checked. */
  const OptionCauses: seq<Error> := [
    EmptyOption("Project"), EmptyOption("ProjectVersion"), EmptyOption("Username")]

  /** The position of a cause in the order the options are checked. */
  function Rank(cause: Error): nat {
    if cause == EmptyOption("Project") then 0
    else if cause == EmptyOption("ProjectVersion") then 1
    else 2
  }

  /**
    The causes for the (trimmed) options: one for each option that is empty
    and no other, in the order of `OptionCauses`.
   */
  function ValidationCauses(project: string, projectVersion: string, username: string): (causes: seq<Error>)
    ensures forall i | 0 <= i < |causes| :: causes[i] in OptionCauses
    ensures EmptyOption("Project") in causes <==> project == ""
    ensures EmptyOption("ProjectVersion") in causes <==> projectVersion == ""
    ensures EmptyOption("Username") in causes <==> username == ""
    ensures forall i, j | 0 <= i < j < |causes| :: Rank(causes[i]) < Rank(causes[j])
  {
    (if project == "" then [EmptyOption("Project")] else [])
    + (if projectVersion == "" then [EmptyOption("ProjectVersion")] else [])
    + (if username == "" then [EmptyOption("Username")] else [])
  }

  /** A list of causes as a Go error: nil when there are none. */
  function CombinedOrNil(causes: seq<Error>): Option<Error> {
    if causes == [] then None else Some(Combined(causes))
  }

  /**
    The outcome of validating trimmed options: no error when every option is
    set, otherwise one combined error listing every missing option.
   */
  function ValidationError(project: string, projectVersion: string, username: string): (err: Option<Error>)
    ensures err.None? <==> project != "" && projectVersion != "" && username != ""
    ensures err.Some? ==> err.value == Combined(ValidationCauses(project, projectVersion, username))
  {
    CombinedOrNil(ValidationCauses(project, projectVersion, username))
  }

  /** With all three options empty, all three are reported, in order. */
  lemma AllMissingReported()
    ensures ValidationError("", "", "") == Some(Combined([
      EmptyOption("Project"), EmptyOption("ProjectVersion"), EmptyOption("Username")]))
  {
    var causes := ValidationCauses("", "", "");
    assert causes == [EmptyOption("Project"), EmptyOption("ProjectVersion"), EmptyOption("Username")];
  }

  /**
    Validation of the trimmed options fails exactly when one of the options
    as the caller wrote it is white space only (or empty).
   */
  lemma ValidationFailsIffBlank(project: string, projectVersion: string, username: string)
    ensures ValidationError(TrimSpace(project), TrimSpace(projectVersion), TrimSpace(username)).Some?
        <==> Blank(project) || Blank(projectVersion) || Blank(username)
  {
    TrimSpaceEmptyIffBlank(project);
    TrimSpaceEmptyIffBlank(projectVersion);
    TrimSpaceEmptyIffBlank(username);
  }

  /** One validation step: an empty value appends its cause to the error so far. */
  function CheckOption(err: Option<Error>, value: string, name: string): (r: Option<Error>)
    ensures value != "" ==> r == err
    ensures value == "" ==> r.Some? && r.value.Combined? && |r.value.causes| >= 1 && r.value.causes[|r.value.causes| - 1] == EmptyOption(name)
    ensures value == "" && err.None? ==> r.value.causes == [EmptyOption(name)]
    ensures value == "" && err.Some? && err.value.Combined?
      ==> r.value.causes == err.value.causes + [EmptyOption(name)]
  {
    if value == "" then Some(AppendError(err, EmptyOption(name))) else err
  }

  /**
    Checking the options one after the other, appending a cause for each empty
    one, yields exactly the combined error `ValidationError` describes.
   */
  lemma ValidationByAppends(project: string, projectVersion: string, username: string)
    ensures CheckOption(CheckOption(CheckOption(None, project, "Project"), projectVersion, "ProjectVersion"), username, "Username")
         == ValidationError(project, projectVersion, username)
  {
    var c1 := if project == "" then [EmptyOption("Project")] else [];
    var c2 := if projectVersion == "" then [EmptyOption("ProjectVersion")] else [];
    var c3 := if username == "" then [EmptyOption("Username")] else [];
    CheckOptionExtends([], project, "Project");
    assert [] + c1 == c1;
    CheckOptionExtends(c1, projectVersion, "ProjectVersion");
    CheckOptionExtends(c1 + c2, username, "Username");
  }

  /** A check appends at most its own cause to the causes so far. */
  lemma CheckOptionExtends(causes: seq<Error>, value: string, name: string)
    ensures CheckOption(CombinedOrNil(causes), value, name)
         == CombinedOrNil(causes + if value == "" then [EmptyOption(name)] else [])
  {
    assert causes + [] == causes;
    assert [] + [EmptyOption(name)] == [EmptyOption(name)];
  }

  /**
    The URL part of `NewTrackerConfig`: an empty URL becomes the default, then
    one trailing slash is dropped. No other field changes.
   */
  method SetTrackerUrl(trackerConfig: TrackerConfig)
    modifies trackerConfig
    ensures trackerConfig.trackerUrl == NormalizeUrl(old(trackerConfig.trackerUrl))
    ensures trackerConfig.project == old(trackerConfig.project)
    ensures trackerConfig.projectVersion == old(trackerConfig.projectVersion)
    ensures trackerConfig.username == old(trackerConfig.username)
    ensures trackerConfig.password == old(trackerConfig.password)
    ensures trackerConfig.httpClient == old(trackerConfig.httpClient)
    ensures trackerConfig.requestTimeout == old(trackerConfig.requestTimeout)
  {
    if trackerConfig.trackerUrl == "" {
      trackerConfig.trackerUrl := DefaultTrackerUrl;
    }
    // The URL is not empty here (the default is not), so its last character exists.
    if trackerConfig.trackerUrl[|trackerConfig.trackerUrl| - 1] == '/' {
      trackerConfig.trackerUrl := trackerConfig.trackerUrl[..|trackerConfig.trackerUrl| - 1];
    }
  }

  /**
    The trimming part of `NewTrackerConfig`: the three identity options lose
    their surrounding white space. The checks read only the trimmed values,
    so trimming all three before checking any gives the state and the error
    that trimming and checking one option at a time gives.
   */
  method TrimOptions(trackerConfig: TrackerConfig)
    modifies trackerConfig
    ensures trackerConfig.project == TrimSpace(old(trackerConfig.project))
    ensures trackerConfig.projectVersion == TrimSpace(old(trackerConfig.projectVersion))
    ensures trackerConfig.username == TrimSpace(old(trackerConfig.username))
    ensures trackerConfig.trackerUrl == old(trackerConfig.trackerUrl)
    ensures trackerConfig.password == old(trackerConfig.password)
    ensures trackerConfig.httpClient == old(trackerConfig.httpClient)
    ensures trackerConfig.requestTimeout == old(trackerConfig.requestTimeout)
  {
    var project, projectVersion, username := trackerConfig.project, trackerConfig.projectVersion, trackerConfig.username;
    trackerConfig.project := TrimSpace(project);
    trackerConfig.projectVersion := TrimSpace(projectVersion);
    trackerConfig.username := TrimSpace(username);
  }

  /**
    `NewTrackerConfig`: installs the HTTP client, normalises the URL and trims
    the three identity options of the caller's own configuration (whether or
    not validation then fails), and returns a client sharing that
    configuration exactly when every option is set.
   */
  method NewTrackerConfig(trackerConfig: TrackerConfig) returns (client: TrackerClient?, err: Option<Error>)
    modifies trackerConfig
    ensures trackerConfig.httpClient == Some(HttpClient(old(trackerConfig.requestTimeout)))
    ensures trackerConfig.trackerUrl == NormalizeUrl(old(trackerConfig.trackerUrl))
    ensures trackerConfig.project == TrimSpace(old(trackerConfig.project))
    ensures trackerConfig.projectVersion == TrimSpace(old(trackerConfig.projectVersion))
    ensures trackerConfig.username == TrimSpace(old(trackerConfig.username))
    ensures trackerConfig.password == old(trackerConfig.password)
    ensures trackerConfig.requestTimeout == old(trackerConfig.requestTimeout)
    ensures err == ValidationError(trackerConfig.project, trackerConfig.projectVersion, trackerConfig.username)
    ensures client == null <==> err.Some?
    ensures client != null ==> fresh(client) && client.trackerConfig == trackerConfig
  {
    trackerConfig.httpClient := Some(HttpClient(trackerConfig.requestTimeout));
    SetTrackerUrl(trackerConfig);
    TrimOptions(trackerConfig);
    err := None;
    err := CheckOption(err, trackerConfig.project, "Project");
    err := CheckOption(err, trackerConfig.projectVersion, "ProjectVersion");
    err := CheckOption(err, trackerConfig.username, "Username");
    ValidationByAppends(trackerConfig.project, trackerConfig.projectVersion, trackerConfig.username);
    if err.Some? {
      return null, err;
    }
    client := new TrackerClient(trackerConfig);
  }

  // ---------------------------------------------------------------------
  // Payloads and requests
  // ---------------------------------------------------------------------

  /** The acquire request body. */
  datatype RequestItemsRequest = RequestItemsRequest(downloader: string, apiVersion: string, version: string)

  /** The acquire reply body, as the JSON decoder yields it. */
  datatype RequestItemsResponse = RequestItemsResponse(items: seq<string>, queues: seq<string>)

  /** The completion request body; `bytes` is `None` for a nil map. */
  datatype ItemsDoneRequest = ItemsDoneRequest(
    downloader: string,
    version: string,
    items: seq<string>,
    bytes: Option<map<string, uint64>>)

  /** The body a request carries, before JSON encoding. */
  datatype Payload = AcquireBody(work: RequestItemsRequest) | DoneBody(done: ItemsDoneRequest)

  /**
    An outbound request: headers by lower-case name, and Basic
    authentication as the (user, password) pair if it is set.
   */
  datatype Request = Request(
    verb: string,
    url: string,
    header: map<string, string>,
    basicAuth: Option<(string, string)>,
    body: Payload)

  /** What the transport gives back: a failure, or a status code with the decoded body. */
  datatype Reply =
    | TransportError(cause: string)
    | Response(status: int, body: Decoded)

  /** The acquire reply body after JSON decoding, or the decoder's error. */
  datatype Decoded = Decoded(response: RequestItemsResponse) | Undecodable(cause: string)

  /** The result of one client call: the requests handed to the transport, the value and the error. */
  datatype Exchange<T> = Exchange(sent: seq<Request>, value: T, err: Option<Error>)

  /** The five headers every request carries. */
  const HeaderNames: set<string> :=
    {"content-type", "user-agent", "ateam-tracker-project", "ateam-tracker-user", "ateam-tracker-version"}

  /**
    The request `newRequest` builds: it goes to `<url>/<project>/<path>`,
    carries the five identity headers, and uses Basic authentication exactly
    when a password is configured.
   */
  function RequestFor(s: Settings, verb: string, path: string, body: Payload): (r: Request)
    ensures r.verb == verb && r.body == body
    ensures r.url == s.trackerUrl + "/" + s.project + "/" + path
    ensures r.header.Keys == HeaderNames
    ensures r.header["content-type"] == "application/json"
    ensures r.header["user-agent"] == "go-trackerclient " + s.project + "/" + s.projectVersion
    ensures r.header["ateam-tracker-project"] == s.project
    ensures r.header["ateam-tracker-user"] == s.username
    ensures r.header["ateam-tracker-version"] == s.projectVersion
    ensures r.basicAuth.Some? <==> s.password != ""
    ensures r.basicAuth.Some? ==> r.basicAuth.value == (s.username, s.password)
  {
    Request(
      verb,
      s.trackerUrl + "/" + s.project + "/" + path,
      map[
        "content-type" := "application/json",
        "user-agent" := "go-trackerclient " + s.project + "/" + s.projectVersion,
        "ateam-tracker-project" := s.project,
        "ateam-tracker-user" := s.username,
        "ateam-tracker-version" := s.projectVersion],
      if s.password != "" then Some((s.username, s.password)) else None,
      body)
  }

  // ---------------------------------------------------------------------
  // Status codes to outcomes
  // ---------------------------------------------------------------------

  /** The acquire path for a positive limit: `request` for one item, `multi=<n>/request` for more. */
  function AcquirePath(limit: uint64): (p: string)
    requires limit >= 1
    ensures limit == 1 ==> p == "request"
    ensures limit > 1 ==> p == "multi=" + Decimal(limit as nat) + "/request"
  {
    if limit > 1 then "multi=" + Decimal(limit as nat) + "/request" else "request"
  }

  /** The path tells the limit: different limits select different paths. */
  lemma AcquirePathInjective(a: uint64, b: uint64)
    requires a >= 1 && b >= 1
    requires AcquirePath(a) == AcquirePath(b)
    ensures a == b
  {
    if a > 1 && b > 1 {
      var pa, pb := AcquirePath(a), AcquirePath(b);
      assert |pa| == 6 + |Decimal(a as nat)| + 8;
      assert pa[6..|pa| - 8] == Decimal(a as nat);
      assert pb[6..|pb| - 8] == Decimal(b as nat);
      DecimalInjective(a as nat, b as nat);
    }
  }

  /**
    The outcome of an acquire reply: 204 and 404 mean no work, any other
    status of 300 or more is an invalid response, and otherwise the decoded
    items come back unchanged. The later check of 404 for an unknown project
    can never fire, so this endpoint never reports `ErrNoSuchProject`.
   */
  function AcquireOutcome(reply: Reply): (r: (seq<string>, Option<Error>))
    ensures r.1.Some? ==> r.0 == []
    ensures r.1 != Some(Sentinel(ErrNoSuchProject))
    ensures reply.TransportError? ==> r.1 == Some(Foreign(reply.cause))
    ensures reply.Response? && (reply.status == 204 || reply.status == 404)
      ==> r.1 == Some(Sentinel(ErrNoTasksAvailable))
    ensures reply.Response? && reply.status >= 300 && reply.status != 404
      ==> r.1 == Some(InvalidResponse(reply.status))
    ensures r.1.None? <==> reply.Response? && reply.status < 300 && reply.status != 204 && reply.body.Decoded?
    ensures r.1.None? ==> r.0 == reply.body.response.items
    ensures reply.Response? && reply.status < 300 && reply.status != 204 && reply.body.Undecodable?
      ==> r.1 == Some(Foreign(reply.body.cause))
  {
    match reply
    case TransportError(cause) => ([], Some(Foreign(cause)))
    case Response(status, body) =>
      if status == 404 || status == 204 then ([], Some(Sentinel(ErrNoTasksAvailable)))
      else if status == 404 then ([], Some(Sentinel(ErrNoSuchProject)))
      else if status >= 300 then ([], Some(InvalidResponse(status)))
      else match body
        case Decoded(response) => (response.items, None)
        case Undecodable(cause) => ([], Some(Foreign(cause)))
  }

  /**
    The outcome of a completion reply: 404 means an unknown project, any
    other status of 300 or more is an invalid response, anything else is
    success; the body is not read.
   */
  function DoneOutcome(reply: Reply): (err: Option<Error>)
    ensures reply.TransportError? ==> err == Some(Foreign(reply.cause))
    ensures reply.Response? && reply.status == 404 ==> err == Some(Sentinel(ErrNoSuchProject))
    ensures reply.Response? && reply.status >= 300 && reply.status != 404
      ==> err == Some(InvalidResponse(reply.status))
    ensures err.None? <==> reply.Response? && reply.status < 300
    ensures err != Some(Sentinel(ErrNoTasksAvailable))
  {
    match reply
    case TransportError(cause) => Some(Foreign(cause))
    case Response(status, _) =>
      if status == 404 then Some(Sentinel(ErrNoSuchProject))
      else if status >= 300 then Some(InvalidResponse(status))
      else None
  }

  // ---------------------------------------------------------------------
  // The client
  // ---------------------------------------------------------------------

  /** A validated client; it shares the caller's configuration rather than copying it. */
  class TrackerClient {
    const trackerConfig: TrackerConfig

    constructor (trackerConfig: TrackerConfig)
      ensures this.trackerConfig == trackerConfig
    {
      this.trackerConfig := trackerConfig;
    }

    /** `newRequest`: the request is built and its headers set one at a time. */
    method NewRequest(verb: string, path: string, body: Payload) returns (req: Request)
      ensures req == RequestFor(trackerConfig.Snapshot(), verb, path, body)
    {
      var cfg := trackerConfig;
      req := Request(verb, cfg.trackerUrl + "/" + cfg.project + "/" + path, map[], None, body);
      req := req.(header := req.header["content-type" := "application/json"]);
      req := req.(header := req.header["user-agent" := "go-trackerclient " + cfg.project + "/" + cfg.projectVersion]);
      req := req.(header := req.header["ateam-tracker-project" := cfg.project]);
      req := req.(header := req.header["ateam-tracker-user" := cfg.username]);
      req := req.(header := req.header["ateam-tracker-version" := cfg.projectVersion]);
      if cfg.password != "" {
        req := req.(basicAuth := Some((cfg.username, cfg.password)));
      }
    }

    /** The acquire request for a positive limit. */
    function AcquireRequest(limit: uint64): (r: Request)
      requires limit >= 1
      reads trackerConfig
      ensures r.verb == "POST"
      ensures r.url == trackerConfig.trackerUrl + "/" + trackerConfig.project + "/" + AcquirePath(limit)
      ensures r.body == AcquireBody(RequestItemsRequest(trackerConfig.username, "2", trackerConfig.projectVersion))
      ensures r.header.Keys == HeaderNames
      ensures r.header["content-type"] == "application/json"
      ensures r.header["user-agent"] == "go-trackerclient " + trackerConfig.project + "/" + trackerConfig.projectVersion
      ensures r.header["ateam-tracker-project"] == trackerConfig.project
      ensures r.header["ateam-tracker-user"] == trackerConfig.username
      ensures r.header["ateam-tracker-version"] == trackerConfig.projectVersion
      ensures r.basicAuth.Some? <==> trackerConfig.password != ""
      ensures r.basicAuth.Some? ==> r.basicAuth.value == (trackerConfig.username, trackerConfig.password)
    {
      RequestFor(trackerConfig.Snapshot(), "POST", AcquirePath(limit),
        AcquireBody(RequestItemsRequest(trackerConfig.username, "2", trackerConfig.projectVersion)))
    }

    /**
      `RequestItemsContext`: a zero limit is refused with no request made;
      otherwise exactly one acquire request is sent and its reply mapped by
      `AcquireOutcome`.
     */
    function RequestItemsContext(limit: uint64, send: Request -> Reply): (x: Exchange<seq<string>>)
      reads trackerConfig
      ensures |x.sent| <= 1
      ensures x.err.Some? ==> x.value == []
      ensures limit == 0 ==> x.sent == [] && x.err == Some(ZeroLimit)
      ensures limit >= 1 ==> x.sent == [AcquireRequest(limit)]
      ensures limit >= 1 ==> (x.value, x.err) == AcquireOutcome(send(AcquireRequest(limit)))
    {
      if limit < 1 then Exchange([], [], Some(ZeroLimit))
      else
        var req := AcquireRequest(limit);
        var (items, err) := AcquireOutcome(send(req));
        Exchange([req], items, err)
    }

    /**
      `RequestItemContext`: one item is asked for; an error is passed on
      with an empty item, an empty list gives the empty item and no error,
      and otherwise the first item is returned.
     */
    function RequestItemContext(send: Request -> Reply): (x: Exchange<string>)
      reads trackerConfig
      ensures var a := RequestItemsContext(1, send);
        && x.sent == a.sent
        && x.err == a.err
        && (x.err.Some? ==> x.value == "")
        && (x.err.None? && a.value == [] ==> x.value == "")
        && (x.err.None? && a.value != [] ==> x.value == a.value[0])
    {
      var a := RequestItemsContext(1, send);
      if a.err.Some? then Exchange(a.sent, "", a.err)
      else if |a.value| == 0 then Exchange(a.sent, "", None)
      else Exchange(a.sent, a.value[0], None)
    }

    /** The completion request for a list of items and an optional byte map. */
    function DoneRequest(items: seq<string>, bytes: Option<map<string, uint64>>): (r: Request)
      reads trackerConfig
      ensures r.verb == "POST"
      ensures r.url == trackerConfig.trackerUrl + "/" + trackerConfig.project + "/done"
      ensures r.body == DoneBody(ItemsDoneRequest(trackerConfig.username, trackerConfig.projectVersion, items, bytes))
      ensures r.header.Keys == HeaderNames
      ensures r.header["content-type"] == "application/json"
      ensures r.header["user-agent"] == "go-trackerclient " + trackerConfig.project + "/" + trackerConfig.projectVersion
      ensures r.header["ateam-tracker-project"] == trackerConfig.project
      ensures r.header["ateam-tracker-user"] == trackerConfig.username
      ensures r.header["ateam-tracker-version"] == trackerConfig.projectVersion
      ensures r.basicAuth.Some? <==> trackerConfig.password != ""
      ensures r.basicAuth.Some? ==> r.basicAuth.value == (trackerConfig.username, trackerConfig.password)
    {
      RequestFor(trackerConfig.Snapshot(), "POST", "done",
        DoneBody(ItemsDoneRequest(trackerConfig.username, trackerConfig.projectVersion, items, bytes)))
    }

    /**
      `ItemsDoneContext`: an empty list succeeds with no request made;
      otherwise exactly one completion request is sent and its reply mapped by
      `DoneOutcome`.
     */
    function ItemsDoneContext(items: seq<string>, bytes: Option<map<string, uint64>>, send: Request -> Reply): (x: Exchange<()>)
      reads trackerConfig
      ensures items == [] ==> x.sent == [] && x.err == None
      ensures items != [] ==> x.sent == [DoneRequest(items, bytes)] && x.err == DoneOutcome(send(x.sent[0]))
    {
      if |items| == 0 then Exchange([], (), None)
      else
        var req := DoneRequest(items, bytes);
        Exchange([req], (), DoneOutcome(send(req)))
    }

    /** `ItemDoneContext`: always exactly one request, reporting that one item with no byte map. */
    function ItemDoneContext(item: string, send: Request -> Reply): (x: Exchange<()>)
      reads trackerConfig
      ensures x == ItemsDoneContext([item], None, send)
      ensures x.sent == [DoneRequest([item], None)]
      ensures x.sent[0].body == DoneBody(ItemsDoneRequest(trackerConfig.username, trackerConfig.projectVersion, [item], None))
      ensures x.err == DoneOutcome(send(x.sent[0]))
    {
      ItemsDoneContext([item], None, send)
    }
  }

  /**
    The acquire endpoints: one item is asked for at `<url>/<project>/request`,
    five at `<url>/<project>/multi=5/request`.
   */
  lemma AcquireUrls(client: TrackerClient, send: Request -> Reply)
    ensures var base := client.trackerConfig.trackerUrl + "/" + client.trackerConfig.project + "/";
      && client.RequestItemsContext(1, send).sent[0].url == base + "request"
      && client.RequestItemsContext(5, send).sent[0].url == base + "multi=5/request"
  {
    assert Decimal(5) == "5";
  }
}
