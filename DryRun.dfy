/** The dry-run request builder (connector/dry_run.py): a description of the POST that
    would deliver the payload to everstox; nothing is sent. */
module DryRun {
  import opened Common

  const EndpointPrefix: string := "https://api.demo.everstox.com/shops/"
  const EndpointSuffix: string := "/orders"

  /** The prepared request. The payload type is a parameter: the builder never looks
      inside it. */
  datatype Request<T> = Request(httpMethod: string, url: string, headers: map<string, string>, json: seq<T>)

  /** The shop id a request URL is addressed to, if it has the endpoint's shape. */
  function ShopIdOfUrl(url: string): Option<string>
  {
    if |url| >= |EndpointPrefix| + |EndpointSuffix|
       && url[..|EndpointPrefix|] == EndpointPrefix
       && url[|url| - |EndpointSuffix|..] == EndpointSuffix
    then Some(url[|EndpointPrefix|..|url| - |EndpointSuffix|])
    else None
  }

  /** `build_request`: a JSON POST to the shop's orders endpoint carrying the payload as is. */
  function BuildRequest<T>(shopId: string, payload: seq<T>): (r: Request<T>)
    ensures r.httpMethod == "POST"
    ensures r.headers == map["Content-Type" := "application/json"] && |r.headers| == 1
    ensures r.json == payload
    ensures ShopIdOfUrl(r.url) == Some(shopId)
  {
    var url := EndpointPrefix + shopId + EndpointSuffix;
    assert url[..|EndpointPrefix|] == EndpointPrefix;
    assert url[|url| - |EndpointSuffix|..] == EndpointSuffix;
    assert url[|EndpointPrefix|..|url| - |EndpointSuffix|] == shopId;
    Request("POST", url, map["Content-Type" := "application/json"], payload)
  }

  /** Requests for different shops go to different URLs. */
  lemma UrlIdentifiesShop<T>(a: string, b: string, p: seq<T>, q: seq<T>)
    requires BuildRequest(a, p).url == BuildRequest(b, q).url
    ensures a == b
  {
    assert ShopIdOfUrl(BuildRequest(a, p).url) == Some(a);
    assert ShopIdOfUrl(BuildRequest(b, q).url) == Some(b);
  }
}
