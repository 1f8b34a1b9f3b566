/** One invocation of the client: the persisted setting, the three modes
    (store the endpoint, show it, or look a domain up) and the order in which
    the entry point tries them. The HTTP call and the decoding of its JSON
    reply are a parameter, `api`, that maps the endpoint and the request to
    what came back. */
module Digger {
  import opened Types
  import Request
  import Render

  /** What the per-user config file holds: no file, a file that cannot be
      read or does not parse as a config, or a config. */
  datatype ConfigFile = Missing | Corrupt | Holds(config: Config)

  /** The per-user config file, which setup overwrites in place. */
  class ConfigStore {
    var file: ConfigFile

    constructor (file: ConfigFile)
      ensures this.file == file
    {
      this.file := file;
    }

    /** Reads the config. A missing file and an unreadable or unparsable one
        both come back as `None`: the caller cannot tell them apart. */
    function Load(): (config: Option<Config>)
      reads this
      ensures config.Some? <==> file.Holds?
      ensures config.Some? ==> file == Holds(config.value)
      ensures file == Corrupt ==> config == None
    {
      match file
      case Missing => None
      case Corrupt => None
      case Holds(c) => Some(c)
    }

    /** Overwrites the file with the given config. */
    method Save(config: Config)
      modifies this
      ensures file == Holds(config)
      ensures Load() == Some(config)
    {
      file := Holds(config);
    }
  }

  /** What the API call produced: the request could not be sent, the reply
      body could not be read, or a body that did (`Some`) or did not (`None`)
      parse as a `DnsResult`. */
  datatype Reply = NotSent | NotRead | Received(parsed: Option<DnsResult>)

  /** How a lookup ended: printed, or aborted at one of the three failures. */
  datatype Status = Printed | SendFailed | ReadFailed | ParseFailed

  /** The mode that ran and how it ended. */
  datatype Outcome =
    | Stored(url: string)
    | Shown(config: Config)
    | Lookup(url: string, request: Request.LookupRequest, status: Status)
    | ConfigMissing

  const CONFIG_MISSING: string := "Configuration not found. Run 'digger --setup <URL>' first."

  /** The message the process aborts with, if it aborts. */
  function Diagnostic(outcome: Outcome): (message: Option<string>)
    ensures message.None? <==> !outcome.ConfigMissing? && !(outcome.Lookup? && outcome.status != Printed)
  {
    match outcome
    case ConfigMissing => Some(CONFIG_MISSING)
    case Lookup(_, _, SendFailed) => Some("Failed to send request")
    case Lookup(_, _, ReadFailed) => Some("Failed to read response text")
    case Lookup(_, _, ParseFailed) => Some("Failed to parse response JSON")
    case _ => None
  }

  /** The process exit status: 0 after a stored or shown config or a printed
      lookup, 101 (the status of a Rust panic) after an abort. */
  function ExitCode(outcome: Outcome): (code: int)
    ensures code == 0 <==> outcome.Stored? || outcome.Shown? || (outcome.Lookup? && outcome.status == Printed)
    ensures code == 0 || code == 101
  {
    if Diagnostic(outcome).None? then 0 else 101
  }

  /** The entry point after argument parsing. `--setup` wins and returns right
      after storing the endpoint; `--config` comes next; otherwise a lookup
      runs. Both of the latter abort when no config is stored, the lookup
      before any request is built. `out` holds the printed lines. */
  method Run(args: Args, store: ConfigStore, api: (string, Request.LookupRequest) -> Reply)
    returns (outcome: Outcome, out: seq<string>)
    requires Accepted(args)
    modifies store
    ensures args.setup.Some? ==>
      && store.file == Holds(Config(args.setup.value))
      && outcome == Stored(args.setup.value)
      && out == ["API URL set to " + args.setup.value]
    ensures args.setup.None? ==> store.file == old(store.file)
    ensures args.setup.None? && old(store.Load()).None? ==> outcome == ConfigMissing && out == []
    ensures args.setup.None? && args.showConfig && old(store.Load()).Some? ==>
      && outcome == Shown(old(store.Load()).value)
      && out == ["Current configuration:", "API URL: " + old(store.Load()).value.apiUrl]
    ensures args.setup.None? && !args.showConfig && old(store.Load()).Some? ==>
      var url := old(store.Load()).value.apiUrl;
      var request := Request.BuildRequest(args);
      && outcome.Lookup? && outcome.url == url && outcome.request == request
      && match api(url, request)
         case NotSent => outcome.status == SendFailed && out == []
         case NotRead => outcome.status == ReadFailed && out == []
         case Received(None) => outcome.status == ParseFailed && out == []
         case Received(Some(d)) => outcome.status == Printed && out == Render.RenderLines(d, args.advanced)
  {
    out := [];
    if args.setup.Some? {
      var url := args.setup.value;
      store.Save(Config(url));
      out := out + ["API URL set to " + url];
      return Stored(url), out;
    }

    if args.showConfig {
      var loaded := store.Load();
      if loaded.None? {
        return ConfigMissing, out;
      }
      out := out + ["Current configuration:"];
      out := out + ["API URL: " + loaded.value.apiUrl];
      return Shown(loaded.value), out;
    }

    var loaded := store.Load();
    if loaded.None? {
      return ConfigMissing, out;
    }
    var config := loaded.value;
    var request := Request.BuildRequest(args);
    var reply := api(config.apiUrl, request);
    match reply
    case NotSent =>
      return Lookup(config.apiUrl, request, SendFailed), out;
    case NotRead =>
      return Lookup(config.apiUrl, request, ReadFailed), out;
    case Received(None) =>
      return Lookup(config.apiUrl, request, ParseFailed), out;
    case Received(Some(result)) =>
      out := Render.Render(result, args.advanced);
      return Lookup(config.apiUrl, request, Printed), out;
  }

  /** Two invocations sharing one config file: `--setup <url>`, then
      `--config`. The second shows what the first stored. */
  method SetupThenShow(url: string) returns (first: seq<string>, second: seq<string>, outcome: Outcome)
    ensures first == ["API URL set to " + url]
    ensures outcome == Shown(Config(url))
    ensures second == ["Current configuration:", "API URL: " + url]
  {
    var store := new ConfigStore(Missing);
    var stored;
    stored, first := Run(Args(Some(url), false, None, None, false, None), store, (_, _) => NotSent);
    outcome, second := Run(Args(None, true, None, None, false, None), store, (_, _) => NotSent);
  }

  /** Two invocations sharing one config file: `--setup <url>`, then a plain
      `<domain> <type>` lookup. The lookup posts to the stored endpoint with
      the default resolvers and prints the reply in summary form. */
  method SetupThenLookup(url: string, domain: string, recordType: string, api: (string, Request.LookupRequest) -> Reply)
    returns (first: seq<string>, second: seq<string>, outcome: Outcome)
    ensures first == ["API URL set to " + url]
    ensures outcome.Lookup? && outcome.url == url
    ensures outcome.request == Request.LookupRequest(domain, recordType, ["8.8.8.8", "1.1.1.1"], "UDP", false)
    ensures api(url, outcome.request).Received? && api(url, outcome.request).parsed.Some? ==>
      && outcome.status == Printed
      && second == Render.RenderLines(api(url, outcome.request).parsed.value, false)
  {
    var store := new ConfigStore(Missing);
    var stored;
    stored, first := Run(Args(Some(url), false, None, None, false, None), store, api);
    outcome, second := Run(Args(None, false, Some(domain), Some(recordType), false, None), store, api);
  }

  /** Without a stored config, whether the file is missing or corrupt, every
      invocation but `--setup` aborts with the missing-config message and
      prints nothing. */
  method WithoutConfig(args: Args, file: ConfigFile, api: (string, Request.LookupRequest) -> Reply)
    returns (out: seq<string>, outcome: Outcome)
    requires Accepted(args) && args.setup.None? && !file.Holds?
    ensures outcome == ConfigMissing && out == []
    ensures Diagnostic(outcome) == Some(CONFIG_MISSING) && ExitCode(outcome) == 101
  {
    var store := new ConfigStore(file);
    outcome, out := Run(args, store, api);
  }
}
