/** The strings the handlers build: the registry key of a tunnel client, the
    path carried in a request envelope, and the outbound URL the proxy calls.
    Each comes with a lemma that splitting the string again recovers its parts. */
module Envelope {
  import opened Details
  import opened Strings

  /** Registry key of the client `component` of `user`. */
  function ClientKey(user: string, component: string): string {
    user + "-" + component
  }

  /** The key splits back into user and component at its first '-',
      provided the user name holds no '-'. */
  lemma ClientKeySplits(user: string, component: string)
    requires '-' !in user
    ensures Split(ClientKey(user, component), '-') == Some((user, component))
  {
    SplitJoin(user, '-', component);
  }

  /** Without that proviso two different clients can share one key. */
  lemma ClientKeyAmbiguous()
    ensures ClientKey("a-b", "c") == ClientKey("a", "b-c")
    ensures ("a-b", "c") != ("a", "b-c")
  {
  }

  /** The envelope path: "/" then the routed sub-path, then "?" and the raw
      query when the raw query is not empty. */
  function FullPath(subPath: string, rawQuery: string): string {
    var p := "/" + subPath;
    if rawQuery != "" then p + "?" + rawQuery else p
  }

  /** The path is exactly "/" + subPath if and only if there is no raw query. */
  lemma FullPathQueryIff(subPath: string, rawQuery: string)
    ensures FullPath(subPath, rawQuery) == "/" + subPath <==> rawQuery == ""
  {
    if rawQuery != "" {
      assert |FullPath(subPath, rawQuery)| > |"/" + subPath|;
    }
  }

  /** After the leading '/', the first '?' separates sub-path and raw query;
      there is none when the raw query is empty. This needs a sub-path without
      '?': the router hands over the decoded path, so a request for "/a%3Fb"
      yields the sub-path "a?b" (see `FullPathAmbiguous`). */
  lemma FullPathSplits(subPath: string, rawQuery: string)
    requires '?' !in subPath
    ensures FullPath(subPath, rawQuery)[0] == '/'
    ensures var rest := FullPath(subPath, rawQuery)[1..];
      Split(rest, '?') == if rawQuery == "" then None else Some((subPath, rawQuery))
  {
    var f := FullPath(subPath, rawQuery);
    if rawQuery == "" {
      assert f[1..] == subPath;
    } else {
      assert f[1..] == subPath + ['?'] + rawQuery;
      SplitJoin(subPath, '?', rawQuery);
    }
  }

  /** A decoded sub-path holding '?' makes the envelope path ambiguous: the
      sub-path "a?b" with no raw query and the sub-path "a" with the raw query
      "b" give the same path, so the tunnel client cannot tell them apart. */
  lemma FullPathAmbiguous()
    ensures FullPath("a?b", "") == FullPath("a", "b")
    ensures ("a?b", "") != ("a", "b")
  {
  }

  /** Host and optional port of the outbound URL. */
  function Authority(env: RequestDetails): string {
    if env.port != "" then env.domain + ":" + env.port else env.domain
  }

  /** "http://" + domain [+ ":" + port] + path, the port part only when a port is given. */
  function BaseUrl(env: RequestDetails): string {
    if env.port != "" then "http://" + env.domain + ":" + env.port + env.path
    else "http://" + env.domain + env.path
  }

  /** The base URL, then "?" and the encoded query when the query map is not empty. */
  function OutboundUrl(env: RequestDetails, encodedQuery: string): string {
    if |env.query| > 0 then BaseUrl(env) + "?" + encodedQuery else BaseUrl(env)
  }

  /** The URL parses back into its parts: the scheme, then the authority up to
      the first '/', which splits at its first ':' into domain and port (no ':'
      at all when no port was given). */
  lemma BaseUrlSplits(env: RequestDetails)
    requires ':' !in env.domain && '/' !in env.domain && '/' !in env.port
    requires env.path == "" || env.path[0] == '/'
    ensures BaseUrl(env) == "http://" + Authority(env) + env.path
    ensures Split(Authority(env), ':') == if env.port == "" then None else Some((env.domain, env.port))
    ensures Split(Authority(env) + env.path, '/') ==
      if env.path == "" then None else Some((Authority(env), env.path[1..]))
  {
    var a := Authority(env);
    if env.port != "" {
      assert BaseUrl(env) == "http://" + a + env.path;
    }
    AuthoritySplits(env);
    if env.path != "" {
      assert env.path == [env.path[0]] + env.path[1..];
      assert a + env.path == a + ['/'] + env.path[1..];
      SplitJoin(a, '/', env.path[1..]);
    }
  }

  /** The authority holds no '/', and it splits at ':' exactly when a port is given. */
  lemma AuthoritySplits(env: RequestDetails)
    requires ':' !in env.domain && '/' !in env.domain && '/' !in env.port
    ensures '/' !in Authority(env)
    ensures Split(Authority(env), ':') == if env.port == "" then None else Some((env.domain, env.port))
  {
    if env.port != "" {
      var a := Authority(env);
      assert a == env.domain + [':'] + env.port;
      SplitJoin(env.domain, ':', env.port);
      assert forall i :: 0 <= i < |a| ==> a[i] == (if i < |env.domain| then env.domain[i]
        else if i == |env.domain| then ':' else env.port[i - |env.domain| - 1]);
    }
  }

  /** The query suffix is present if and only if the query map is not empty. */
  lemma OutboundUrlQueryIff(env: RequestDetails, encodedQuery: string)
    ensures OutboundUrl(env, encodedQuery) == BaseUrl(env) <==> |env.query| == 0
    ensures |env.query| > 0 ==>
      OutboundUrl(env, encodedQuery)[|BaseUrl(env)|..] == "?" + encodedQuery
  {
    if |env.query| > 0 {
      assert |OutboundUrl(env, encodedQuery)| > |BaseUrl(env)|;
    }
  }
}
