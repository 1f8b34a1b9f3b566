/** Turning the parsed command line into the lookup request: the list of DNS
    servers to query (a fixed default, or the `--dns-servers` value split on
    commas), the request record, and the JSON object posted to the API. */
module Request {
  import opened Types
  import Text

  /** The resolvers queried when `--dns-servers` is not given. */
  const DEFAULT_SERVERS: seq<string> := ["8.8.8.8", "1.1.1.1"]

  /** The resolver list: the default pair, or the override split on `,` with
      no trimming and no deduplication. */
  function ResolveServers(list: Option<string>): (servers: seq<string>)
    ensures list.None? ==> servers == ["8.8.8.8", "1.1.1.1"]
    ensures list.Some? ==> |servers| == Text.Count(list.value, ',') + 1
    ensures list.Some? ==> forall k :: 0 <= k < |servers| ==> ',' !in servers[k]
    ensures list.Some? ==> Text.Join(servers, ',') == list.value
  {
    match list
    case None => DEFAULT_SERVERS
    case Some(s) => Text.Split(s, ',')
  }

  /** The override list is the only comma-free list that joins back to the
      flag's value: any other reading of the flag loses or invents a server. */
  lemma OverrideIsUnique(s: string, servers: seq<string>)
    requires |servers| >= 1
    requires forall k :: 0 <= k < |servers| ==> ',' !in servers[k]
    ensures Text.Join(servers, ',') == s <==> ResolveServers(Some(s)) == servers
  {
    Text.SplitJoin(servers, ',');
  }

  /** The override example `9.9.9.9,4.4.4.4`: both servers, in order. */
  lemma OverrideExample()
    ensures ResolveServers(Some("9.9.9.9,4.4.4.4")) == ["9.9.9.9", "4.4.4.4"]
  {
    var servers := ["9.9.9.9", "4.4.4.4"];
    assert Text.Join(servers, ',') == "9.9.9.9,4.4.4.4";
    OverrideIsUnique("9.9.9.9,4.4.4.4", servers);
  }

  /** Nothing is trimmed or merged: a repeated server with a leading space
      stays two distinct entries. */
  lemma OverrideKeepsSpaces()
    ensures ResolveServers(Some("1.1.1.1, 1.1.1.1")) == ["1.1.1.1", " 1.1.1.1"]
  {
    var servers := ["1.1.1.1", " 1.1.1.1"];
    assert Text.Join(servers, ',') == "1.1.1.1, 1.1.1.1";
    OverrideIsUnique("1.1.1.1, 1.1.1.1", servers);
  }

  /** An empty value gives one empty server name, not an empty list. */
  lemma OverrideEmpty()
    ensures ResolveServers(Some("")) == [""]
  {
    OverrideIsUnique("", [""]);
  }

  /** The request the client sends, with the fields of the JSON body. */
  datatype LookupRequest = LookupRequest(
    dnsName: string,
    dnsType: string,
    dnsServers: seq<string>,
    protocol: string,
    advanced: bool)

  /** The request for a lookup invocation: DOMAIN, TYPE and `--advanced`
      passed through, the resolver list resolved, and the protocol fixed. */
  function BuildRequest(args: Args): (request: LookupRequest)
    requires args.domain.Some? && args.recordType.Some?
    ensures request.protocol == "UDP"
    ensures request.dnsName == args.domain.value && request.dnsType == args.recordType.value
    ensures request.advanced == args.advanced
    ensures args.dnsServers.None? ==> request.dnsServers == ["8.8.8.8", "1.1.1.1"]
    ensures args.dnsServers.Some? ==>
      && |request.dnsServers| == Text.Count(args.dnsServers.value, ',') + 1
      && Text.Join(request.dnsServers, ',') == args.dnsServers.value
      && forall k :: 0 <= k < |request.dnsServers| ==> ',' !in request.dnsServers[k]
  {
    LookupRequest(args.domain.value, args.recordType.value, ResolveServers(args.dnsServers), "UDP", args.advanced)
  }

  /** A JSON value, as far as the request body needs one. */
  datatype Json =
    | JString(str: string)
    | JBool(flag: bool)
    | JArray(items: seq<Json>)
    | JObject(fields: map<string, Json>)

  const REQUEST_KEYS: set<string> := {"dns_name", "dns_type", "dns_servers", "protocol", "advanced"}

  function StringArray(ss: seq<string>): (j: Json)
    ensures j.JArray? && |j.items| == |ss|
  {
    JArray(seq(|ss|, k requires 0 <= k < |ss| => JString(ss[k])))
  }

  /** The JSON object posted to the API: exactly the five wire field names. */
  function Body(request: LookupRequest): (body: Json)
    ensures body.JObject? && body.fields.Keys == REQUEST_KEYS
    ensures body.fields["protocol"] == JString(request.protocol)
  {
    JObject(map[
      "dns_name" := JString(request.dnsName),
      "dns_type" := JString(request.dnsType),
      "dns_servers" := StringArray(request.dnsServers),
      "protocol" := JString(request.protocol),
      "advanced" := JBool(request.advanced)])
  }

  /** The strings of a JSON array of strings, if it is one. */
  function ReadStrings(items: seq<Json>): Option<seq<string>>
  {
    if items == [] then Some([])
    else if !items[0].JString? then None
    else match ReadStrings(items[1..])
      case None => None
      case Some(rest) => Some([items[0].str] + rest)
  }

  /** How the API reads a request body according to the wire contract: the
      five fields, with their JSON types. */
  function ReadBody(body: Json): Option<LookupRequest>
  {
    if !body.JObject? || !(REQUEST_KEYS <= body.fields.Keys) then None
    else
      var f := body.fields;
      if !(f["dns_name"].JString? && f["dns_type"].JString? && f["dns_servers"].JArray?
           && f["protocol"].JString? && f["advanced"].JBool?) then None
      else match ReadStrings(f["dns_servers"].items)
        case None => None
        case Some(servers) =>
          Some(LookupRequest(f["dns_name"].str, f["dns_type"].str, servers, f["protocol"].str, f["advanced"].flag))
  }

  lemma {:induction false} ReadStringArray(ss: seq<string>)
    ensures ReadStrings(StringArray(ss).items) == Some(ss)
  {
    if ss != [] {
      assert StringArray(ss).items[1..] == StringArray(ss[1..]).items;
      ReadStringArray(ss[1..]);
      assert ss == [ss[0]] + ss[1..];
    }
  }

  /** The body carries the whole request: the API reads back exactly what
      the client built, for every request. */
  lemma BodyRoundTrip(request: LookupRequest)
    ensures ReadBody(Body(request)) == Some(request)
  {
    ReadStringArray(request.dnsServers);
  }

  /** What a lookup invocation posts: the default or split resolver list, the
      DOMAIN and TYPE unchanged, `protocol` "UDP" and the `--advanced` flag. */
  lemma PostedBody(args: Args)
    requires args.domain.Some? && args.recordType.Some?
    ensures ReadBody(Body(BuildRequest(args))) ==
      Some(LookupRequest(args.domain.value, args.recordType.value, ResolveServers(args.dnsServers), "UDP", args.advanced))
  {
    BodyRoundTrip(BuildRequest(args));
  }
}
