/**
 * Platform URLs as the plugin uses them: an opaque route (what
 * `Request::url` builds from the page, operation and path) followed by a
 * query string of name=value pairs. Percent-encoding is not modelled.
 */
module Urls {
  import opened Optional

  datatype Url = Url(route: string, query: seq<(string, string)>)

  function Pair(p: (string, string)): string {
    p.0 + "=" + p.1
  }

  /** The pairs joined by '&'. */
  function JoinQuery(q: seq<(string, string)>): string
    requires q != []
  {
    if |q| == 1 then Pair(q[0]) else JoinQuery(q[..|q| - 1]) + "&" + Pair(q[|q| - 1])
  }

  /** The URL as text: the route, then '?' and the query when there is one. */
  function Render(u: Url): string {
    u.route + if u.query == [] then "" else "?" + JoinQuery(u.query)
  }

  /** The same URL with one more query parameter at the end. */
  function WithParam(u: Url, name: string, value: string): Url {
    Url(u.route, u.query + [(name, value)])
  }

  /**
   * Appending "&name=value" to the text of a URL that already has a query
   * gives the text of that URL with one more parameter.
   */
  lemma AppendParam(u: Url, name: string, value: string)
    requires u.query != []
    ensures Render(u) + "&" + name + "=" + value == Render(WithParam(u, name, value))
  {
    var q := u.query + [(name, value)];
    assert q[..|q| - 1] == u.query;
  }

  /**
   * The request variables the platform exposes for a URL's query (`getUserVar`):
   * each name maps to the value of its last occurrence.
   */
  function QueryVars(q: seq<(string, string)>): map<string, string> {
    if q == [] then map[] else QueryVars(q[..|q| - 1])[q[|q| - 1].0 := q[|q| - 1].1]
  }

  /** `getUserVar`: the value of a request variable, or null. */
  function UserVar(vars: map<string, string>, name: string): Option<string> {
    if name in vars then Some(vars[name]) else None
  }
}
