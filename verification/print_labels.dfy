/** `PrintLabelsView.get_base_url`: the `scheme://host/` prefix of the label
    URLs, built from the request's META dictionary. */
module PrintLabels {
  import opened Wrappers
  import opened Strings

  const ServerProtocolKey := "SERVER_PROTOCOL"
  const HostKey := "HTTP_HOST"
  const DefaultServerProtocol := "HTTP/1.1"

  /** `meta.get(key)` / `meta.get(key, default)`. */
  function Lookup(meta: map<string, string>, key: string): Option<string> {
    if key in meta then Some(meta[key]) else None
  }

  /** The scheme: the lower-cased text before the first '/' of the protocol. */
  function Scheme(meta: map<string, string>): (r: string)
    ensures '/' !in r
    ensures var protocol := Lookup(meta, ServerProtocolKey).GetOr(DefaultServerProtocol);
      |r| <= |protocol| && r == Lower(protocol[..|r|])
      && (|r| == |protocol| || protocol[|r|] == '/')
  {
    var protocol := Lookup(meta, ServerProtocolKey).GetOr(DefaultServerProtocol);
    var before := BeforeFirst(protocol, '/');
    assert forall i :: 0 <= i < |before| ==> Lower(before)[i] != '/';
    Lower(before)
  }

  /** The host as the f-string renders it: a missing `HTTP_HOST` prints as
      "None". */
  function HostText(meta: map<string, string>): string {
    match Lookup(meta, HostKey)
    case Some(h) => h
    case None => "None"
  }

  function BaseUrl(meta: map<string, string>): (r: string)
    ensures |r| > 0 && r[|r| - 1] == '/'
    ensures StartsWith(r, Scheme(meta) + "://")
    ensures |Scheme(meta)| + 4 <= |r| && r[|Scheme(meta)| + 3 .. |r| - 1] == HostText(meta)
  {
    Scheme(meta) + "://" + HostText(meta) + "/"
  }

  /** Splitting the URL at its first '/' gives back the scheme and its colon:
      the scheme can contain no '/' of its own. */
  lemma BaseUrlSchemeRecoverable(meta: map<string, string>)
    ensures BeforeFirst(BaseUrl(meta), '/') == Scheme(meta) + ":"
  {
    var s := Scheme(meta);
    var rest := "/" + HostText(meta) + "/";
    assert BaseUrl(meta) == (s + ":") + ['/'] + rest;
    BeforeFirstStopsAtSeparator(s + ":", '/', rest);
  }

  /** Without `SERVER_PROTOCOL` the scheme is "http". */
  lemma BaseUrlDefaultsToHttp(meta: map<string, string>)
    requires ServerProtocolKey !in meta
    ensures BaseUrl(meta) == "http://" + HostText(meta) + "/"
  {
  }

  /** "HTTPS/2" gives the scheme "https". */
  lemma SchemeOfHttps()
    ensures Scheme(map[ServerProtocolKey := "HTTPS/2"]) == "https"
  {
  }

  /** A protocol with no '/' is used whole, lower-cased. */
  lemma SchemeWithoutSlash()
    ensures Scheme(map[ServerProtocolKey := "Http"]) == "http"
  {
  }

  /** With `HTTP_HOST` present, its value sits between "://" and the final '/'. */
  lemma BaseUrlWithHost(meta: map<string, string>)
    requires HostKey in meta
    ensures BaseUrl(meta) == Scheme(meta) + "://" + meta[HostKey] + "/"
  {
  }

  /** A missing `HTTP_HOST` is rendered into the URL as the text "None". */
  lemma BaseUrlMissingHost(meta: map<string, string>)
    requires HostKey !in meta
    ensures BaseUrl(meta) == Scheme(meta) + "://None/"
  {
  }
}
