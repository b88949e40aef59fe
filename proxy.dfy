/** The URL handling of the server proxy (ObjectiveFunction_client/proxy.py):
    the base URL is given a trailing '/' when it lacks one, and every end
    point is the base followed by the end point's path. */
module Proxies {
  import opened Common

  predicate EndsWithSlash(s: string)
  {
    |s| > 0 && s[|s| - 1] == '/'
  }

  /** The constructor's normalisation of `url_base`. Indexing `[-1]` of an
      empty string raises IndexError. */
  function NormaliseBase(base: string): (r: Result<string, Error>)
    ensures base == [] <==> r == Failure(IndexError)
    ensures r.Success? ==> EndsWithSlash(r.value)
    ensures r.Success? && EndsWithSlash(base) ==> r.value == base
    ensures r.Success? && !EndsWithSlash(base) ==> r.value == base + "/"
  {
    if base == [] then Failure(IndexError)
    else if base[|base| - 1] != '/' then Success(base + "/")
    else Success(base)
  }

  /** Normalising a normalised base changes nothing. */
  lemma NormaliseIdempotent(base: string)
    requires NormaliseBase(base).Success?
    ensures NormaliseBase(NormaliseBase(base).value) == NormaliseBase(base)
  {
  }

  class Proxy {
    const urlBase: string

    ghost predicate Valid()
    {
      EndsWithSlash(urlBase)
    }

    constructor (urlBase: string)
      requires EndsWithSlash(urlBase)
      ensures Valid() && this.urlBase == urlBase
    {
      this.urlBase := urlBase;
    }

    /** `url(u)`: the base followed by the end point. */
    function Url(u: string): (r: string)
      ensures |r| == |urlBase| + |u|
      ensures r[..|urlBase|] == urlBase
      ensures r[|urlBase|..] == u
    {
      urlBase + u
    }
  }

  /** `Proxy(appname, secret, url_base)`, as far as the URL goes. */
  method NewProxy(base: string) returns (r: Result<Proxy, Error>)
    ensures r.Failure? <==> base == []
    ensures r.Failure? ==> r.error == IndexError
    ensures r.Success? ==> fresh(r.value) && r.value.Valid() &&
                           Success(r.value.urlBase) == NormaliseBase(base)
  {
    var normalised := NormaliseBase(base);
    if normalised.Failure? {
      return Failure(normalised.error);
    }
    var p := new Proxy(normalised.value);
    r := Success(p);
  }

  /** Whether or not the caller wrote the trailing '/', the end points come
      out the same. */
  lemma UrlIgnoresTrailingSlash(base: string, u: string)
    requires base != [] && !EndsWithSlash(base)
    ensures NormaliseBase(base).value + u == NormaliseBase(base + "/").value + u
  {
    assert EndsWithSlash(base + "/");
  }
}
