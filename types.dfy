/** The data the client handles: its one persisted setting, the parsed command
    line, and the three nested records of the lookup reply. */
module Types {

  datatype Option<+T> = None | Some(value: T)

  /** Rust's `u32`. */
  newtype U32 = x: int | 0 <= x < 0x1_0000_0000

  /** The persisted setting: the endpoint that receives lookup requests. */
  datatype Config = Config(apiUrl: string)

  /** One answer record as one DNS server returned it. The reply also carries
      an `authoritative` flag, which nothing reads, so it is not modelled. */
  datatype RecordResult = RecordResult(queryName: string, record: string, recordType: string, ttl: U32)

  /** The answers of one queried DNS server. */
  datatype ServerResult = ServerResult(friendlyName: string, server: string, results: seq<RecordResult>)

  /** The whole reply of the lookup API. */
  datatype DnsResult = DnsResult(dnsName: string, dnsType: string, results: seq<ServerResult>)

  /** The command line once parsed: `--setup <URL>`, `--config`, the two
      positionals DOMAIN and TYPE, `--advanced` and `--dns-servers <list>`. */
  datatype Args = Args(
    setup: Option<string>,
    showConfig: bool,
    domain: Option<string>,
    recordType: Option<string>,
    advanced: bool,
    dnsServers: Option<string>)

  /** What the argument parser lets through: DOMAIN and TYPE are required
      unless `--setup` or `--config` is given. */
  predicate Accepted(args: Args)
  {
    args.setup.Some? || args.showConfig || (args.domain.Some? && args.recordType.Some?)
  }
}
