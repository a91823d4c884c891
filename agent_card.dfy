/**
 * The agent-card endpoint: it serves a copy of the agent's card whose service
 * URL and single JSON-RPC interface point at the host the card was requested
 * from. The base URL is the request URL cut at the last occurrence of the
 * well-known card path.
 *
 * Card serialization is the parameter `serialize`; `None` stands for any
 * exception raised while building the reply.
 */
module AgentCard {
  import opened Wrappers

  const WellKnownPath := "/.well-known/agent-card.json"
  const EndpointSuffix := "/v1"
  const JsonRpcBinding := "JSON-RPC"
  const ErrorBody := "Error generating AgentCard JSON."
  const JsonMimetype := "application/json"

  /** One transport the agent can be reached by. */
  datatype AgentInterface = AgentInterface(protocolBinding: string, url: string)

  /** The card's content. `others` stands for the fields the endpoint never
      touches (provider, capabilities, skills, input and output modes, security,
      icon and documentation URLs), keyed by their JSON names. */
  datatype CardValue = CardValue(
    protocolVersion: string,
    name: string,
    description: string,
    version: Option<string>,
    url: Option<string>,
    supportedInterfaces: Option<seq<AgentInterface>>,
    others: map<string, string>)

  /** An HTTP reply; a `None` mimetype is the library's default one. */
  datatype HttpResponse = HttpResponse(status: int, mimetype: Option<string>, body: string)

  // ---------------------------------------------------------------------------
  // The base URL
  // ---------------------------------------------------------------------------

  predicate OccursAt(s: string, sep: string, i: int) {
    0 <= i && i + |sep| <= |s| && s[i..i + |sep|] == sep
  }

  /** The largest index at most `i` where `sep` occurs in `s`. */
  function LastOccurrenceAtOrBelow(s: string, sep: string, i: int): (r: Option<nat>)
    ensures r.Some? ==> r.value <= i && OccursAt(s, sep, r.value)
    ensures r.Some? ==> forall j :: r.value < j <= i ==> !OccursAt(s, sep, j)
    ensures r.None? ==> forall j :: j <= i ==> !OccursAt(s, sep, j)
    decreases i + 1
  {
    if i < 0 then None
    else if OccursAt(s, sep, i) then Some(i)
    else LastOccurrenceAtOrBelow(s, sep, i - 1)
  }

  /** `url.rsplit(WellKnownPath, 1)[0]`: the URL up to the last occurrence of the
      well-known path, or the whole URL when the path does not occur. */
  function BaseUrl(url: string): (r: string)
    ensures r <= url
    ensures r == url <==> forall j :: !OccursAt(url, WellKnownPath, j)
    ensures r != url ==> OccursAt(url, WellKnownPath, |r|)
    ensures r != url ==> forall j :: |r| < j ==> !OccursAt(url, WellKnownPath, j)
  {
    match LastOccurrenceAtOrBelow(url, WellKnownPath, |url| - |WellKnownPath|)
    case None => url
    case Some(k) => url[..k]
  }

  /** A card requested at `b` followed by the well-known path gets `b` as its base,
      whatever `b` holds (even another copy of the path). */
  lemma BaseUrlOfWellKnown(b: string)
    ensures BaseUrl(b + WellKnownPath) == b
  {
    var url := b + WellKnownPath;
    assert url[|b|..|b| + |WellKnownPath|] == WellKnownPath;
    assert OccursAt(url, WellKnownPath, |b|);
    var r := BaseUrl(url);
    assert r != url;
    assert |r| == |b|;
  }

  // ---------------------------------------------------------------------------
  // The card and its rewrite
  // ---------------------------------------------------------------------------

  /** The service endpoint below a base URL. */
  function Endpoint(base: string): string {
    base + EndpointSuffix
  }

  /** The card after the rewrite: one JSON-RPC interface and the service URL,
      both at the endpoint below `base`; every other field as before. */
  function Rewritten(v: CardValue, base: string): CardValue {
    v.(supportedInterfaces := Some([AgentInterface(JsonRpcBinding, Endpoint(base))]),
       url := Some(Endpoint(base)))
  }

  /** A card object whose fields the endpoint assigns in place. */
  class Card {
    var protocolVersion: string
    var name: string
    var description: string
    var version: Option<string>
    var url: Option<string>
    var supportedInterfaces: Option<seq<AgentInterface>>
    var others: map<string, string>

    function Value(): CardValue
      reads this
    {
      CardValue(protocolVersion, name, description, version, url, supportedInterfaces, others)
    }

    constructor (v: CardValue)
      ensures Value() == v
    {
      protocolVersion := v.protocolVersion;
      name := v.name;
      description := v.description;
      version := v.version;
      url := v.url;
      supportedInterfaces := v.supportedInterfaces;
      others := v.others;
    }

    /** `model_copy(deep=True)`: a new card with the same content. */
    method DeepCopy() returns (c: Card)
      ensures fresh(c) && c.Value() == Value()
    {
      c := new Card(Value());
    }

    /** Points the card at the endpoint below `base`. */
    method PointAt(base: string)
      modifies this
      ensures Value() == Rewritten(old(Value()), base)
    {
      if supportedInterfaces.None? || supportedInterfaces.value == [] {
        supportedInterfaces := Some([]);
      }
      supportedInterfaces := Some([AgentInterface(JsonRpcBinding, Endpoint(base))]);
      url := Some(Endpoint(base));
    }
  }

  /** `main`: copy the template, point the copy at the request's base URL and
      serialize it; any failure is a 500 with a fixed text. The template is left
      as it was. */
  method Serve(template: Card, requestUrl: string, serialize: CardValue -> Option<string>)
    returns (r: HttpResponse)
    ensures unchanged(template)
    ensures match serialize(Rewritten(template.Value(), BaseUrl(requestUrl)))
      case Some(json) => r == HttpResponse(200, Some(JsonMimetype), json)
      case None => r == HttpResponse(500, None, ErrorBody)
  {
    var modifiedCard := template.DeepCopy();
    var baseUrl := BaseUrl(requestUrl);
    modifiedCard.PointAt(baseUrl);
    var agentCardJson := serialize(modifiedCard.Value());
    match agentCardJson
    case Some(json) =>
      r := HttpResponse(200, Some(JsonMimetype), json);
    case None =>
      r := HttpResponse(500, None, ErrorBody);
  }

  // ---------------------------------------------------------------------------
  // Properties of the rewrite
  // ---------------------------------------------------------------------------

  /** After the rewrite the card lists exactly one interface, a JSON-RPC one, and
      its URL is the card's service URL, the base followed by "/v1". */
  lemma RewrittenEndpoints(v: CardValue, base: string)
    ensures var w := Rewritten(v, base);
      && w.supportedInterfaces.Some? && |w.supportedInterfaces.value| == 1
      && w.supportedInterfaces.value[0].protocolBinding == JsonRpcBinding
      && w.url == Some(w.supportedInterfaces.value[0].url)
      && w.url == Some(base + "/v1")
  {
  }

  /** Every field other than the interfaces and the service URL is carried over,
      and the result does not depend on what those two held before. */
  lemma RewrittenKeepsOtherFields(v: CardValue, v': CardValue, base: string)
    ensures var w := Rewritten(v, base);
      w.protocolVersion == v.protocolVersion && w.name == v.name &&
      w.description == v.description && w.version == v.version && w.others == v.others
    ensures v'.(url := v.url, supportedInterfaces := v.supportedInterfaces) == v ==>
      Rewritten(v', base) == Rewritten(v, base)
  {
  }

  /** A card requested at `b` + the well-known path points at `b` + "/v1". */
  lemma ServedFromWellKnown(v: CardValue, b: string)
    ensures Rewritten(v, BaseUrl(b + WellKnownPath)).url == Some(b + "/v1")
    ensures Rewritten(v, BaseUrl(b + WellKnownPath)).supportedInterfaces ==
            Some([AgentInterface(JsonRpcBinding, b + "/v1")])
  {
    BaseUrlOfWellKnown(b);
  }
}
