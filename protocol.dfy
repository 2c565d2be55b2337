/// The text the controller exchanges with the time tracker: the toggle URL a
/// button press requests, the `/running` URL of the periodic fetch, the HTTP
/// request line block written to the socket, and the quoted project name that
/// is searched for in the fetched response.
module Protocol {
  import opened Text

  datatype Option<T> = None | Some(value: T)

  /** What a toggle URL asks the time tracker to do. */
  datatype Action = Start(project: string) | Stop(project: string)

  const STOP_QUERY: string := "/stop?project="
  const START_QUERY: string := "/start?project="

  /** The endpoint chosen from the project's flag before the press: a running
      project is stopped, a stopped one is started. */
  function Endpoint(running: bool): string {
    if running then "/stop" else "/start"
  }

  function BaseUrl(host: string, port: string): string {
    "http://" + host + ":" + port
  }

  /** The URL requested when the button of `project` is pressed. */
  function ToggleUrl(host: string, port: string, running: bool, project: string): string {
    BaseUrl(host, port) + Endpoint(running) + "?project=" + project
  }

  /** The URL of the periodic fetch of the running projects. */
  function RunningUrl(host: string, port: string): string {
    BaseUrl(host, port) + "/running"
  }

  /** The request written to the socket for a GET of `url`. */
  function HttpGet(host: string, url: string): string {
    "GET " + url + " HTTP/1.1\r\n" + "Host: " + host + "\r\n" + "Connection: close\r\n" + "\r\n"
  }

  /** A GET request the controller sends to the time tracker: the toggle of
      a project, built on a press from the project's flag before the press,
      or the periodic fetch of the running projects. */
  datatype Request = Toggle(running: bool, project: string) | Running
  {
    function Url(host: string, port: string): string {
      match this
      case Toggle(running, project) => ToggleUrl(host, port, running, project)
      case Running => RunningUrl(host, port)
    }

    /** The text written to the socket. */
    function Text(host: string, port: string): string {
      HttpGet(host, Url(host, port))
    }
  }

  /** A GET request for `url` opens with the request line for `url` and
      then names the host in a `Host` header. */
  lemma HttpGetLayout(host: string, url: string)
    ensures var text := HttpGet(host, url);
      |text| > 4 + |url| && text[..4] == "GET " && text[4..4 + |url|] == url &&
      text[4 + |url|..4 + |url| + 11] == " HTTP/1.1\r\n" &&
      text[4 + |url| + 11..4 + |url| + 17 + |host|] == "Host: " + host
  {
    var head, line, hostHeader := "GET " + url, " HTTP/1.1\r\n", "Host: " + host;
    var text := head + line + hostHeader + ("\r\n" + "Connection: close\r\n" + "\r\n");
    assert HttpGet(host, url) == text;
    assert text[..4] == head[..4];
    assert text[4..4 + |url|] == head[4..];
    assert text[|head|..|head| + 11] == line;
    assert text[|head| + 11..|head| + 11 + |hostHeader|] == hostHeader;
  }

  /** The request written to the socket opens with a GET request line for
      the request's URL and names the host in a `Host` header. */
  lemma RequestLineCarriesUrl(r: Request, host: string, port: string)
    ensures var text, url := r.Text(host, port), r.Url(host, port);
      |text| > 4 + |url| && text[..4] == "GET " && text[4..4 + |url|] == url &&
      text[4 + |url|..4 + |url| + 11] == " HTTP/1.1\r\n" &&
      text[4 + |url| + 11..4 + |url| + 17 + |host|] == "Host: " + host
  {
    HttpGetLayout(host, r.Url(host, port));
  }

  /** A project name as it appears, quoted, in the fetched response. */
  function Quoted(name: string): string {
    "\"" + name + "\""
  }

  /** How the time tracker reads a URL of this host and port: the action and
      project of a toggle URL, or None for any other URL. */
  function ParseToggleUrl(host: string, port: string, url: string): Option<Action> {
    var stop := BaseUrl(host, port) + STOP_QUERY;
    var start := BaseUrl(host, port) + START_QUERY;
    if |stop| <= |url| && url[..|stop|] == stop then Some(Stop(url[|stop|..]))
    else if |start| <= |url| && url[..|start|] == start then Some(Start(url[|start|..]))
    else None
  }

  /** The URL built on a press asks to stop the project exactly when it was
      running before the press, and to start it otherwise, and it names the
      pressed project. */
  lemma ToggleUrlRoundTrip(host: string, port: string, running: bool, project: string)
    ensures ParseToggleUrl(host, port, Toggle(running, project).Url(host, port))
         == Some(if running then Stop(project) else Start(project))
  {
    var base := BaseUrl(host, port);
    var url := Toggle(running, project).Url(host, port);
    if running {
      assert url == (base + STOP_QUERY) + project;
    } else {
      assert url == (base + START_QUERY) + project;
      assert url[|base| + 3] == 'a' != (base + STOP_QUERY)[|base| + 3];
    }
  }

  /** The fetch URL is never read as a toggle. */
  lemma RunningUrlIsNoToggle(host: string, port: string)
    ensures ParseToggleUrl(host, port, Running.Url(host, port)) == None
  {
  }

  /** The name contains no double quote. */
  predicate Unquoted(name: string) {
    forall i :: 0 <= i < |name| ==> name[i] != '"'
  }

  /** Searching for the quoted name cannot mistake one project for another
      whose name merely contains it (such as "Bank" in "KraftBank"). */
  lemma QuotedNamesDistinct(a: string, b: string)
    requires Unquoted(a) && Unquoted(b) && a != b
    ensures !Contains(Quoted(b), Quoted(a))
  {
    forall k: nat | k <= |Quoted(b)|
      ensures !OccursAt(Quoted(b), Quoted(a), k)
    {
      QuotedNameNotAt(a, b, k);
    }
  }

  lemma QuotedNameNotAt(a: string, b: string, k: nat)
    requires Unquoted(a) && Unquoted(b) && a != b
    ensures !OccursAt(Quoted(b), Quoted(a), k)
  {
    var qa, qb := Quoted(a), Quoted(b);
    if k + |qa| <= |qb| {
      if k == 0 && |a| < |b| {
        // the closing quote of `a` faces a character of `b`
        assert qb[..|qa|][|a| + 1] == b[|a|] != qa[|a| + 1];
      } else if k == 0 {
        assert qa[1..|a| + 1] == a && qb[1..|b| + 1] == b;
      } else {
        // the opening quote of `a` faces a character of `b`
        assert qb[k..k + |qa|][0] == b[k - 1] != qa[0];
      }
    }
  }
}
