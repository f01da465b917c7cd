/** The process-wide `console` object, reduced to what `createDriver` touches: the three
    methods `log`, `info` and `error`, each of which may be replaced by a screening wrapper
    around whatever it was before, and the lines that reach the output streams. */
module ConsoleChannel {
  import opened LogFilter

  datatype Channel = Log | Info | Error

  /** The function a console method currently holds: a write to a named output stream, or
      the arrow function installed by `createDriver`, which calls `inner` only when the
      screening decision forwards the call. */
  datatype Sink = Stream(name: string) | Screened(inner: Sink)

  /** One call that reached an output stream: the console method used, the stream, the arguments. */
  datatype Entry = Entry(channel: Channel, stream: string, args: seq<string>)

  /** One call made on the console by code running meanwhile. */
  datatype Message = Message(channel: Channel, args: seq<string>)

  /** The stream a sink ends in, under any number of screening wrappers. */
  function Target(sink: Sink): (r: string)
  {
    match sink
    case Stream(name) => name
    case Screened(inner) => Target(inner)
  }

  /** What one call with `args` on `channel` writes when that method is `sink`: a stream
      writes the call unchanged; a screening wrapper writes it through exactly when the
      screening decision forwards it, and nothing otherwise. */
  function Deliver(sink: Sink, channel: Channel, args: seq<string>): (out: seq<Entry>)
    ensures out == [] || out == [Entry(channel, Target(sink), args)]
    ensures out != [] <==> (sink.Screened? ==> Forwards(args))
  {
    match sink
    case Stream(name) => [Entry(channel, name, args)]
    case Screened(inner) => if Forwards(args) then Deliver(inner, channel, args) else []
  }

  /** What a sequence of calls writes while the three methods stay `log`, `info`, `error`. */
  function Replay(log: Sink, info: Sink, error: Sink, messages: seq<Message>): (r: seq<Entry>)
  {
    if messages == [] then []
    else
      var last := messages[|messages| - 1];
      var sink := match last.channel case Log => log case Info => info case Error => error;
      Replay(log, info, error, messages[..|messages| - 1]) + Deliver(sink, last.channel, last.args)
  }

  /** While `log` and `info` are screened, no call forwarded through either of them has a
      marker in its space-joined arguments, and every line written comes from one of the calls. */
  lemma {:induction false} ScreenedReplayClean(log: Sink, info: Sink, error: Sink, messages: seq<Message>)
    requires log.Screened? && info.Screened?
    ensures forall e :: e in Replay(log, info, error, messages) && e.channel != Error ==> Forwards(e.args)
    ensures forall e :: e in Replay(log, info, error, messages) ==> Message(e.channel, e.args) in messages
  {
    if messages != [] {
      var front := messages[..|messages| - 1];
      ScreenedReplayClean(log, info, error, front);
      assert forall m :: m in front ==> m in messages;
    }
  }

  /** With no screening installed, every call is written, in order and unchanged. */
  lemma {:induction false} UnscreenedReplayComplete(log: string, info: string, error: string, messages: seq<Message>)
    ensures |Replay(Stream(log), Stream(info), Stream(error), messages)| == |messages|
    ensures forall k :: 0 <= k < |messages| ==>
      Replay(Stream(log), Stream(info), Stream(error), messages)[k].args == messages[k].args &&
      Replay(Stream(log), Stream(info), Stream(error), messages)[k].channel == messages[k].channel
  {
    if messages != [] {
      UnscreenedReplayComplete(log, info, error, messages[..|messages| - 1]);
    }
  }

  /** The `console` object. */
  class Console {
    var log: Sink
    var info: Sink
    var error: Sink
    /** Every call that has reached an output stream, oldest first. */
    var written: seq<Entry>

    /** Node's console: `log` and `info` write to standard output, `error` to standard error. */
    constructor (stdout: string, stderr: string)
      ensures log == Stream(stdout) && info == Stream(stdout) && error == Stream(stderr)
      ensures written == []
    {
      log, info, error := Stream(stdout), Stream(stdout), Stream(stderr);
      written := [];
    }

    function SinkOf(channel: Channel): (r: Sink)
      reads this
    {
      match channel
      case Log => log
      case Info => info
      case Error => error
    }

    /** `console.log(...args)`, `console.info(...args)` or `console.error(...args)`. */
    method Write(channel: Channel, args: seq<string>)
      modifies this`written
      ensures written == old(written) + Deliver(SinkOf(channel), channel, args)
    {
      written := written + Deliver(SinkOf(channel), channel, args);
    }

    /** The calls made on the console, one after another, by code that leaves the three
        methods alone. */
    method WriteAll(messages: seq<Message>)
      modifies this`written
      ensures written == old(written) + Replay(log, info, error, messages)
    {
      var i := 0;
      while i < |messages|
        invariant 0 <= i <= |messages|
        invariant written == old(written) + Replay(log, info, error, messages[..i])
      {
        assert messages[..i + 1][..i] == messages[..i];
        Write(messages[i].channel, messages[i].args);
        i := i + 1;
      }
      assert messages[..i] == messages;
    }
  }
}
