/** `createDriver`: resolve the capabilities, screen `console.log` and `console.info` while
    the remote session is requested, and restore the console however the request ends. */
module Session {
  import opened Wrappers
  import opened Capabilities
  import opened LogFilter
  import opened ConsoleChannel

  /** The connection settings passed to `remote` beside the capabilities. */
  const Protocol: string := "https"
  const Hostname: string := "hub.browserstack.com"
  const Port: nat := 443
  const Path: string := "/wd/hub"
  const LogLevel: string := "error"

  /** The options object given to `remote`. */
  datatype RemoteOptions = RemoteOptions(
    protocol: string,
    hostname: string,
    port: nat,
    path: string,
    capabilities: CapabilityRecord,
    logLevel: string)

  /** What one `remote` call does, as far as this module can see: the console calls it makes
      while connecting, then a session id, or the error it rejects with. */
  datatype RemoteBehaviour = RemoteBehaviour(messages: seq<Message>, outcome: Result<string, string>)

  /** The driver `createDriver` resolves with. */
  datatype Driver = Driver(sessionId: string, options: RemoteOptions)

  /** The three console methods saved before the override. */
  datatype Saved = Saved(log: Sink, info: Sink, error: Sink)

  /** The options object built for a resolved capability record. */
  function Request(capabilities: CapabilityRecord): (r: RemoteOptions)
    ensures r.capabilities == capabilities
    ensures r.hostname == "hub.browserstack.com" && r.port == 443 && r.protocol == "https"
  {
    RemoteOptions(Protocol, Hostname, Port, Path, capabilities, LogLevel)
  }

  /** Save `log`, `info` and `error`, then wrap `log` and `info` in the screening filter. */
  method Install(console: Console) returns (saved: Saved)
    modifies console`log, console`info
    ensures saved == Saved(old(console.log), old(console.info), old(console.error))
    ensures console.log == Screened(old(console.log)) && console.info == Screened(old(console.info))
  {
    saved := Saved(console.log, console.info, console.error);
    console.log := Screened(saved.log);
    console.info := Screened(saved.info);
  }

  /** The `finally` block: put all three saved methods back. */
  method Restore(console: Console, saved: Saved)
    modifies console`log, console`info, console`error
    ensures console.log == saved.log && console.info == saved.info && console.error == saved.error
  {
    console.log := saved.log;
    console.info := saved.info;
    console.error := saved.error;
  }

  /** `createDriver(platformType)`. The catalog and the two credential variables are inputs,
      and `remote` is any behaviour of the remote library for the options it is given. */
  method CreateDriver(console: Console, config: Config, creds: Credentials,
                      remote: RemoteOptions -> RemoteBehaviour,
                      platformType: string := DefaultPlatform)
    returns (r: Result<Driver, string>)
    modifies console
    ensures console.log == old(console.log) && console.info == old(console.info)
    ensures console.error == old(console.error)
    ensures Resolve(config, platformType, creds).Failure? ==>
      && r == Failure(NotFoundMessage(platformType))
      && console.written == old(console.written)
    ensures Resolve(config, platformType, creds).Success? ==>
      var options := Request(Resolve(config, platformType, creds).value);
      var behaviour := remote(options);
      && (behaviour.outcome.Success? ==> r == Success(Driver(behaviour.outcome.value, options)))
      && (behaviour.outcome.Failure? ==> r == Failure(behaviour.outcome.error))
      && console.written == old(console.written) +
           Replay(Screened(old(console.log)), Screened(old(console.info)), old(console.error), behaviour.messages)
  {
    var resolved := Resolve(config, platformType, creds);
    if resolved.Failure? {
      return Failure(resolved.error);
    }
    var options := Request(resolved.value);
    var saved := Install(console);
    var behaviour := remote(options);
    console.WriteAll(behaviour.messages);
    match behaviour.outcome {
      case Success(id) => r := Success(Driver(id, options));
      case Failure(e) => r := Failure(e);
    }
    Restore(console, saved);
  }

  /** No call forwarded through `log` or `info` while the session is requested has a marker
      in its space-joined arguments; `error` is not screened. */
  lemma ConnectionOutputScreened(log: Sink, info: Sink, error: Sink, messages: seq<Message>)
    ensures forall e :: e in Replay(Screened(log), Screened(info), error, messages) && e.channel != Error ==>
      forall k :: 0 <= k < |Markers| ==> !Occurs(Join(e.args, Separator), Markers[k])
  {
  }

  /** `console.error` is saved and restored but never wrapped: a call on it during the
      request reaches its stream even when it carries a marker. */
  lemma ErrorChannelNotScreened(log: Sink, info: Sink, stderr: string, args: seq<string>)
    ensures Replay(Screened(log), Screened(info), Stream(stderr), [Message(Error, args)])
         == [Entry(Error, stderr, args)]
  {
  }

  /** The screening looks for the three marker words, not for the credential values: a
      `console.log` call during the request whose only argument is the raw access key (or
      any text without the marker words' upper-case letters) reaches standard output. */
  lemma AccessKeyValueNotScreened(stdout: string, info: Sink, error: Sink, key: string)
    requires 'B' !in key && 'K' !in key && 'N' !in key
    ensures Replay(Screened(Stream(stdout)), info, error, [Message(Log, [key])]) == [Entry(Log, stdout, [key])]
  {
    LowerCaseSpellingsPass([key]);
    assert [Message(Log, [key])][..0] == [];
  }

  /** Two `createDriver` calls whose requests overlap, where the EARLIER request settles
      first (save A, save B, restore A, restore B): the second call saved the console while
      the first still had it screened, so `log` and `info` stay screened for good. Nothing
      counts how many overrides are outstanding. */
  method OverlappingCreateDrivers(console: Console)
    modifies console
    ensures console.log == Screened(old(console.log))
    ensures console.info == Screened(old(console.info))
  {
    var first := Install(console);
    var second := Install(console);
    Restore(console, first);
    Restore(console, second);
  }

  /** Two overlapping calls where the LATER request settles first (save A, save B,
      restore B, restore A): the restores nest, and the original methods come back. */
  method NestedCreateDrivers(console: Console)
    modifies console
    ensures console.log == old(console.log) && console.info == old(console.info)
    ensures console.error == old(console.error)
  {
    var first := Install(console);
    var second := Install(console);
    Restore(console, second);
    Restore(console, first);
  }
}
