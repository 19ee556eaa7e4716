/** The configuration captured by `createRequestDecorator` / `asRequest`
    and the argument record that every provider call receives.

    The type parameter `V` stands for "any JavaScript value": request
    parameters, `extraData`, provider payloads and rejection values are all
    untyped in the TypeScript code. `undefined` is one of those values, so
    `fetch()` is `fetch(undefined)` and a left-out `extraData` is
    `undefined`. */
module Request {

  /** A slot that may hold no value: a left-out option, or `null`. */
  datatype Option<+T> = None | Some(value: T)

  /** `HTTPMethod` */
  datatype HttpMethod = POST | GET | PATCH | PUT | DELETE | HEAD

  /** The object literal passed to `asRequest`. Its declared type makes
      `method` mandatory, but the destructuring default means it may be
      left out at run time. */
  datatype RequestOptions<V> = RequestOptions(url: string, httpMethod: Option<HttpMethod>, extraData: V)

  /** What one `asRequest(...)` call closes over, shared read-only by every
      container the resulting decorator creates. */
  datatype Config<V> = Config(url: string, httpMethod: HttpMethod, extraData: V)

  /** `ProviderParameter`: the single argument of a provider call. */
  datatype ProviderParameter<V> =
    ProviderParameter(url: string, httpMethod: HttpMethod, body: V, query: V, extraData: V)

  /** `asRequest({url, method = 'GET', extraData})` */
  function AsRequest<V>(opts: RequestOptions<V>): (cfg: Config<V>)
    ensures cfg.url == opts.url && cfg.extraData == opts.extraData
    ensures opts.httpMethod.None? ==> cfg.httpMethod == GET
    ensures opts.httpMethod.Some? ==> cfg.httpMethod == opts.httpMethod.value
  {
    match opts.httpMethod
    case None => Config(opts.url, GET, opts.extraData)
    case Some(m) => Config(opts.url, m, opts.extraData)
  }

  /** The argument `fetch(params)` hands to the provider. */
  function ProviderArgs<V>(cfg: Config<V>, params: V): (a: ProviderParameter<V>)
    ensures a.url == cfg.url && a.httpMethod == cfg.httpMethod && a.extraData == cfg.extraData
    ensures a.body == params && a.query == params
  {
    ProviderParameter(cfg.url, cfg.httpMethod, params, params, cfg.extraData)
  }

  /** The provider sees exactly the captured configuration plus the call's
      parameters: nothing of the configuration is lost and the parameters
      can be read back from either `body` or `query`. */
  lemma ProviderArgsDetermined<V>(cfg: Config<V>, p: V, q: V)
    ensures ProviderArgs(cfg, p) == ProviderArgs(cfg, q) <==> p == q
    ensures ProviderArgs(cfg, p).body == ProviderArgs(cfg, p).query
  {
    if ProviderArgs(cfg, p) == ProviderArgs(cfg, q) {
      assert ProviderArgs(cfg, p).body == ProviderArgs(cfg, q).body;
    }
  }

  /** Leaving out `method` is the same as asking for `GET`. */
  lemma DefaultMethodIsGet<V>(url: string, extra: V, params: V)
    ensures AsRequest(RequestOptions(url, None, extra)) == AsRequest(RequestOptions(url, Some(GET), extra))
    ensures ProviderArgs(AsRequest(RequestOptions(url, None, extra)), params).httpMethod == GET
  {
  }
}
