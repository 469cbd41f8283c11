/** The parts of a `net/url.URL` the replicator reads and writes. The query
    is kept as the ordered list of `url.Values.Add` calls. */
module Urls {
  import opened Text

  datatype Url = Url(scheme: string, host: string, path: string, query: seq<(string, string)>)

  /** `URL.JoinPath` with one plain path element (no `/`, `.` or `..`
      segment): the element becomes the last path segment, with exactly
      one `/` in front of it when the path is not empty. */
  function JoinPath(u: Url, elem: string): (r: Url)
    ensures r.scheme == u.scheme && r.host == u.host && r.query == u.query
    ensures HasSuffix(r.path, elem)
    ensures HasPrefix(r.path, u.path)
  {
    var p :=
      if u.path == "" then elem
      else if HasSuffix(u.path, "/") then u.path + elem
      else u.path + "/" + elem;
    assert p[|p| - |elem|..] == elem;
    u.(path := p)
  }
}
