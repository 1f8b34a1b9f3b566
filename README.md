# digger, modelled in Dafny

`digger` is a command-line DNS lookup client. It posts a lookup request to a
remote HTTP API and prints the structured JSON reply. It persists one setting,
the API endpoint URL. An invocation runs one of three modes:

- `--setup <URL>` stores the endpoint.
- `--config` shows the stored endpoint.
- `DOMAIN TYPE [--advanced] [--dns-servers a,b,...]` runs a lookup.

A lookup:

1. builds a JSON request with the domain, the record type, the list of DNS
   servers (default `8.8.8.8`, `1.1.1.1`), `"protocol": "UDP"` and the
   advanced flag;
2. posts it to the endpoint;
3. prints the reply, either as a summary (`- <record>`) or as zone-file style,
   tab-separated resource-record lines.

The model covers the deterministic core of `src/main.rs`. It is split into
these modules:

- `Text` (`text.dfy`): Rust's `str::split` on a character, the matching
  `join`, and the decimal rendering of an unsigned integer. Each has its
  partner: `join` for `split`, and reading the digits back for the rendering.
- `Types` (`types.dfy`): the config record, the parsed command line, the
  reply records `DnsResult` / `ServerResult` / `RecordResult`, `u32` as a
  newtype, and the argument parser's acceptance rule (DOMAIN and TYPE are
  required unless `--setup` or `--config` is given).
- `Request` (`request.dfy`): how the resolver list is chosen, the request
  record, and the JSON object posted to the API. The object has a reader, so
  that the round trip states that the body carries the whole request.
- `Render` (`render.dfy`): the printing loops. `println!` is modelled as
  appending one entry to a `seq<string>`. `Render` and `PrintServer` are the
  nested loops, proved against the specification function `RenderLines`.
  Lemmas about `RenderLines` state the line count, the order and the shape of
  each line.
- `Digger` (`digger.dfy`): the entry point `Run`, with its early returns in
  source order, and a `ConfigStore` class for the config file that setup
  overwrites in place. The HTTP call and the decoding of the reply are a
  function parameter `api` that maps the endpoint and the request to a
  `Reply`. Three client methods run whole scenarios against a fresh store.

A reply that does not parse aborts the process with `Failed to parse response
JSON` (src/main.rs:132). Nothing falls back to printing the raw reply text. In
the model, `Reply.Received(None)` gives status `ParseFailed` and prints
nothing.

The help text of `--dns-servers` calls its value "additional" DNS servers.
The code replaces the default pair with that value, and the model does the
same (`ResolveServers`).

## Model

| member | source | states |
|---|---|---|
| Text.Split | src/main.rs:111-112 | splitting on a separator yields count-of-separators + 1 pieces, none containing the separator, whose join with the separator is the input (so `""` gives `[""]` and nothing is trimmed or dropped) |
| Text.SplitJoin | src/main.rs:111-112 | splitting undoes joining for any non-empty list of separator-free pieces: the other direction of the split/join round trip |
| Text.NatToString | src/main.rs:141-143 | the `{}` rendering of the TTL is non-empty, all decimal digits, and starts with `0` exactly when the number is zero (no leading zeros) |
| Text.DecimalRoundTrip | src/main.rs:141-143 | reading the decimal rendering back gives the number again, so the printed TTL loses nothing |
| Request.ResolveServers | src/main.rs:110-113 | with no `--dns-servers` the list is exactly `["8.8.8.8", "1.1.1.1"]`; otherwise it is count-of-commas + 1 comma-free entries that join back to the flag's value |
| Request.OverrideIsUnique | src/main.rs:111-112 | a comma-free list joins back to the flag's value if and only if it is the resolved list, so no other reading of the flag exists |
| Request.OverrideExample | src/main.rs:111-112 | `9.9.9.9,4.4.4.4` gives `["9.9.9.9", "4.4.4.4"]`, in that order |
| Request.OverrideKeepsSpaces | src/main.rs:111-112 | `1.1.1.1, 1.1.1.1` gives `["1.1.1.1", " 1.1.1.1"]`: no trimming, no deduplication |
| Request.OverrideEmpty | src/main.rs:111-112 | an empty flag value gives one empty server name |
| Request.BuildRequest | src/main.rs:106-122 | the request has protocol `UDP`, DOMAIN, TYPE and the advanced flag unchanged, and the resolver list is the default pair, or count-of-commas + 1 comma-free entries that join back to the flag's value |
| Request.Body | src/main.rs:116-122 | the posted JSON object has exactly the five keys `dns_name`, `dns_type`, `dns_servers`, `protocol`, `advanced`, with `protocol` the request's protocol string |
| Request.BodyRoundTrip | src/main.rs:116-122 | reading the posted object by the wire field names gives back exactly the request it was built from, for every request |
| Request.PostedBody | src/main.rs:110-122 | what a lookup posts reads back as DOMAIN, TYPE, the resolved server list, `UDP` and the `--advanced` flag |
| Render.RecordLine | src/main.rs:145-147 | a summary entry is `- ` followed by exactly the record value |
| Render.AdvancedLineIsJoin | src/main.rs:141-144 | the advanced entry is query name, TTL, `IN`, type and record joined by tabs |
| Render.AdvancedLineFields | src/main.rs:141-144 | when the reply's strings hold no tab, an advanced entry splits on tabs into exactly 5 fields: query name, digits denoting the TTL, `IN`, type, record |
| Render.ServerLinesLength | src/main.rs:137-149 | the server loop prints one entry per server plus one per record |
| Render.ServerLinesAt | src/main.rs:137-149 | server `i`'s header comes right after the entries of the servers before it, followed by its records in input order |
| Render.RenderLinesAt | src/main.rs:134-149 | the same position statement for the whole output, after the three header lines |
| Render.RenderLayout | src/main.rs:134-149 | the output has 3 + #servers + #records entries; it starts with `DNS Lookup Results:`, `DNS Name: <name>`, `DNS Type: <type>`; every server's header `\nResults from DNS Server: <friendly> (<server>)` is followed by its record entries, in input order |
| Render.Render | src/main.rs:134-149 | the nested loops print exactly `RenderLines` of the reply, 3 + #servers + #records entries |
| Render.PrintServer | src/main.rs:138-148 | one pass of the outer loop appends the server's header and then one entry per record, in order, to what was printed before |
| Digger.ConfigStore.Load | src/main.rs:15-23 | a config comes back exactly when the file holds one; a missing file and an unreadable or unparsable file both give `None` |
| Digger.ConfigStore.Save | src/main.rs:25-30 | saving overwrites the file, and a later load returns exactly the saved config |
| Digger.Diagnostic | src/main.rs:99-132 | the process aborts, with the source's message, exactly when the config is missing or a lookup's send, read or parse fails |
| Digger.ExitCode | src/main.rs:91-132 | the exit status is 0 exactly after a stored config, a shown config or a printed lookup, and 101 (Rust's panic status) after every abort |
| Digger.Run | src/main.rs:91-149 | setup wins: it stores `Some(url)`, prints only `API URL set to <url>` and runs nothing else; otherwise the store is unchanged; show-config and lookup both end in `ConfigMissing` with no output and no request when nothing is stored; show-config prints the two configuration lines; a lookup posts the built request to the stored URL and prints the rendering of a parsed reply, or nothing on a send, read or parse failure |
| Digger.SetupThenShow | src/main.rs:91-103 | `--setup url` followed by `--config` shows `url`: the config round trip |
| Digger.SetupThenLookup | src/main.rs:91-149 | `--setup url` followed by `DOMAIN TYPE` posts to `url` with the default resolvers, protocol `UDP` and advanced off, and prints the summary rendering of a parsed reply |
| Digger.WithoutConfig | src/main.rs:98-105 | with the config file missing or corrupt, every non-setup invocation ends in `ConfigMissing` with no output, the `Configuration not found` message and exit status 101 |

## Left out

- HTTP: the POST, awaiting the response and reading its text (src/main.rs:115, 124-130) are network I/O in an async runtime. They are the parameter `api`, whose `NotSent` and `NotRead` replies stand for the two failures.
- JSON decoding of the reply with serde (src/main.rs:132) is a foreign library. `api` delivers the reply already parsed, with `Received(None)` for a body that does not parse.
- The config file (src/main.rs:14-34) is replaced by `ConfigStore.file`, which is `Missing`, `Corrupt` or `Holds(config)`. `Corrupt` covers both a file that cannot be read (src/main.rs:18) and a file that does not parse as a config (src/main.rs:19). `Load` gives `None` for both, as it does for a missing file. The home directory lookup, directory creation, serde's pretty printing and the file I/O itself are not modelled.
- Home-directory and write panics are not modelled. `config_path` unwraps the home directory (src/main.rs:33) for `load` as well as for `save`. So when no home directory exists, `--config`, a lookup and `--setup` all abort with an unwrap panic, not with `Configuration not found`. The panics of `save` when directory creation or the write fails (src/main.rs:28-29) are not modelled either: `Save` always succeeds.
- Argument parsing with clap (src/main.rs:62-89), including usage errors, `--help` and `--version`, is library behaviour. The parsed arguments are the `Args` datatype, and clap's `required_unless_one` rule is the precondition `Accepted` of `Run`.
- The `authoritative` field of a record (src/main.rs:57) is never read, so `RecordResult` does not carry it.
- Render.AdvancedLineFields: holds only when the query name, type and record contain no tab. The source does not check this, and a tab inside one of them yields more than five fields.
- Digger.Diagnostic: gives the text passed to `expect`. For `Result::expect` Rust appends `: <error>`, and that error text is not modelled. Diagnostics go to standard error, which is not part of `out`.
- Each `println!` is one entry of `out`. The server header's leading `\n` stays inside its entry, so on a terminal each server header also shows a blank line.
- The JSON value type `Json` has only the variants the request body uses: no numbers and no null.
