/**
 * Handler selection and the decision logic of the three handlers. Process
 * spawning, text transcoding, HTTP networking and the SSH primitive are
 * opaque collaborators passed in as functions.
 */
module Handlers {
  import opened Wrappers
  import opened TaskModel

  /** The closed set of handler variants. */
  datatype Handler = HTTPHandler | SSHCommandHandler | LocalCommandHandler

  /** `createHandler`: a handler exactly for the three known protocols, nil otherwise. */
  function CreateHandler(p: Protocol): (h: Option<Handler>)
    ensures h.None? <==> p.Other?
    ensures p == HTTP ==> h == Some(HTTPHandler)
    ensures p == SSH ==> h == Some(SSHCommandHandler)
    ensures p == LocalCommand ==> h == Some(LocalCommandHandler)
  {
    match p
    case HTTP => Some(HTTPHandler)
    case SSH => Some(SSHCommandHandler)
    case LocalCommand => Some(LocalCommandHandler)
    case Other(_) => None
  }

  /** The protocol a handler variant serves. */
  function HandlerProtocol(h: Handler): Protocol
  {
    match h
    case HTTPHandler => HTTP
    case SSHCommandHandler => SSH
    case LocalCommandHandler => LocalCommand
  }

  /** Selection is a bijection between the known protocols and the handler variants. */
  lemma CreateHandlerInverse(p: Protocol, h: Handler)
    ensures CreateHandler(HandlerProtocol(h)) == Some(h)
    ensures CreateHandler(p) == Some(h) <==> p == HandlerProtocol(h)
  {
    match h
    case HTTPHandler =>
    case SSHCommandHandler =>
    case LocalCommandHandler =>
  }

  // ---------------------------------------------------------------- local command

  /** One call of the platform's shell-with-timeout primitive. */
  datatype ShellCall = ShellCall(timeout: int, shell: string, args: seq<string>)

  const InvalidCommand: Error := Error("invalid command")

  /** Output text returned when the legacy-encoded output of the Windows shell cannot be transcoded. */
  const TranscodeFailed: string := "命令输出转换编码失败(gbk to utf8)"

  /** The shell invocation the local handler makes, or None when it refuses the command. */
  function LocalShellCall(task: Task, windows: bool): (c: Option<ShellCall>)
    ensures c.None? <==> task.command == ""
    ensures c.Some? ==> c.value.timeout == task.timeout && |c.value.args| == 2 && c.value.args[1] == task.command
    ensures c.Some? ==> c.value.shell == (if windows then "cmd" else "/bin/bash")
                        && c.value.args[0] == (if windows then "/C" else "-c")
  {
    if task.command == "" then None
    else if windows then Some(ShellCall(task.timeout, "cmd", ["/C", task.command]))
    else Some(ShellCall(task.timeout, "/bin/bash", ["-c", task.command]))
  }

  /**
   * `LocalCommandHandler.Run`, with `runOnWindows` and `runOnUnix`. An empty
   * command is refused with "invalid command", whatever the executor would have
   * done. Otherwise the executor's error is always what the handler returns,
   * also when transcoding fails; on Unix its outcome is returned as is.
   */
  function LocalRun(task: Task, windows: bool, shell: ShellCall -> Outcome,
                    gbkToUtf8: string -> Option<string>): (r: Outcome)
    ensures task.command == "" ==> r == Outcome("", Some(InvalidCommand))
    ensures task.command != "" ==>
      var raw := shell(LocalShellCall(task, windows).value);
      && r.err == raw.err
      && (!windows ==> r == raw)
      && (windows && gbkToUtf8(raw.output).None? ==> r.output == TranscodeFailed)
      && (windows && gbkToUtf8(raw.output).Some? ==> r.output == gbkToUtf8(raw.output).value)
  {
    match LocalShellCall(task, windows)
    case None => Outcome("", Some(InvalidCommand))
    case Some(call) =>
      var raw := shell(call);
      if !windows then raw
      else match gbkToUtf8(raw.output)
        case Some(text) => Outcome(text, raw.err)
        case None => Outcome(TranscodeFailed, raw.err)
  }

  // ---------------------------------------------------------------- HTTP

  /** The request the HTTP handler builds; `timeout` None means the client's default. */
  datatype HttpRequest = HttpRequest(httpMethod: string, url: string,
                                     headers: seq<(string, string)>, timeout: Option<int>)

  /** What the HTTP collaborator reports for one request. */
  datatype HttpExchange =
    | RequestError(e: Error)       // the request could not be built
    | TransportError(e: Error)     // the client failed to get a response
    | ReadError(e: Error)          // the response body could not be read
    | Response(statusCode: int, body: string)

  function HttpRequestFor(task: Task): (req: HttpRequest)
    ensures req.httpMethod == "GET" && req.url == task.command
    ensures req.timeout.Some? <==> task.timeout > 0
    ensures req.timeout.Some? ==> req.timeout.value == task.timeout
    ensures req.headers == [("Content-type", "application/x-www-form-urlencoded"), ("User-Agent", "golang/gocron")]
  {
    HttpRequest("GET", task.command,
                [("Content-type", "application/x-www-form-urlencoded"), ("User-Agent", "golang/gocron")],
                if task.timeout > 0 then Some(task.timeout) else None)
  }

  const StatusErrorPrefix: string := "HTTP状态码非200-->"

  /** The error synthesised for a non-200 response: the prefix and the code in decimal. */
  function StatusError(code: int): Error
  {
    Error(StatusErrorPrefix + FormatInt(code))
  }

  /**
   * `HTTPHandler.Run`: a failure before a complete response is returned
   * unchanged with empty output; a response yields its body, with no error
   * exactly for status 200 and the status error otherwise.
   */
  function HttpRun(task: Task, http: HttpRequest -> HttpExchange): (r: Outcome)
    ensures var ex := http(HttpRequestFor(task));
            && (!ex.Response? ==> r == Outcome("", Some(ex.e)))
            && (ex.Response? ==> r.output == ex.body)
            && (ex.Response? ==> (r.err.None? <==> ex.statusCode == 200))
            && (ex.Response? && ex.statusCode != 200 ==> r.err == Some(StatusError(ex.statusCode)))
  {
    match http(HttpRequestFor(task))
    case RequestError(e) => Outcome("", Some(e))
    case TransportError(e) => Outcome("", Some(e))
    case ReadError(e) => Outcome("", Some(e))
    case Response(code, body) =>
      if code != 200 then Outcome(body, Some(StatusError(code))) else Outcome(body, None)
  }

  /**
   * A response is classified by its status code alone: the body is the output,
   * and the error is nil exactly for 200; otherwise its text carries the code,
   * which can be read back from it.
   */
  lemma HttpStatusClassification(task: Task, http: HttpRequest -> HttpExchange)
    requires http(HttpRequestFor(task)).Response?
    ensures var ex := http(HttpRequestFor(task));
            var r := HttpRun(task, http);
            && r.output == ex.body
            && (r.err.None? <==> ex.statusCode == 200)
            && (r.err.Some? ==> |StatusErrorPrefix| <= |r.err.value.message|
                                && r.err.value.message[..|StatusErrorPrefix|] == StatusErrorPrefix
                                && ParseInt(r.err.value.message[|StatusErrorPrefix|..]) == ex.statusCode)
  {
    var ex := http(HttpRequestFor(task));
    if ex.statusCode != 200 {
      var m := StatusErrorPrefix + FormatInt(ex.statusCode);
      assert m[..|StatusErrorPrefix|] == StatusErrorPrefix;
      assert m[|StatusErrorPrefix|..] == FormatInt(ex.statusCode);
      ParseFormatInt(ex.statusCode);
    }
  }

  // ---------------------------------------------------------------- decimal text of %d

  function DigitChar(d: nat): (c: char)
    requires d < 10
    ensures '0' <= c <= '9'
  {
    ('0' as int + d) as char
  }

  /** Decimal digits of a natural number, most significant first, without leading zeros. */
  function Digits(n: nat): (s: string)
    ensures |s| >= 1
    ensures forall k :: 0 <= k < |s| ==> '0' <= s[k] <= '9'
    decreases n
  {
    if n < 10 then [DigitChar(n)] else Digits(n / 10) + [DigitChar(n % 10)]
  }

  /** `fmt`'s `%d` of an int. */
  function FormatInt(n: int): string
  {
    if n < 0 then "-" + Digits(-n) else Digits(n)
  }

  /** The value of a string of decimal digits. */
  function ParseDigits(s: string): nat
  {
    if s == [] then 0
    else
      var c := s[|s| - 1];
      var d := if '0' <= c <= '9' then c as int - '0' as int else 0;
      10 * ParseDigits(s[..|s| - 1]) + d
  }

  function ParseInt(s: string): int
  {
    if |s| > 0 && s[0] == '-' then -(ParseDigits(s[1..]) as int) else ParseDigits(s)
  }

  lemma {:induction false} ParseDigitsOfDigits(n: nat)
    ensures ParseDigits(Digits(n)) == n
    decreases n
  {
    if n >= 10 {
      var s := Digits(n);
      assert s[..|s| - 1] == Digits(n / 10);
      ParseDigitsOfDigits(n / 10);
    }
  }

  /** Reading back `%d` gives the number. */
  lemma ParseFormatInt(n: int)
    ensures ParseInt(FormatInt(n)) == n
  {
    if n < 0 {
      var d := Digits(-n);
      var s := "-" + d;
      assert s[0] == '-' && s[1..] == d;
      ParseDigitsOfDigits(-n);
      assert ParseInt(s) == -(ParseDigits(d) as int);
    } else {
      var d := Digits(n);
      assert '0' <= d[0] <= '9';
      ParseDigitsOfDigits(n);
      assert ParseInt(d) == ParseDigits(d);
    }
  }

  // ---------------------------------------------------------------- SSH

  /** The configuration handed to the SSH primitive. */
  datatype SshConfig = SshConfig(user: string, password: string, host: string, port: int,
                                 execTimeout: int, authType: int, privateKey: string)

  /** The `ssh.SSHConfig` built from the task: host name, credentials, port and timeout. */
  function SshConfigFor(task: Task): (c: SshConfig)
    ensures c.host == task.hostName && c.port == task.port && c.execTimeout == task.timeout
    ensures c.user == task.username && c.password == task.password
    ensures c.authType == task.authType && c.privateKey == task.privateKey
  {
    SshConfig(task.username, task.password, task.hostName, task.port,
              task.timeout, task.authType, task.privateKey)
  }

  // ---------------------------------------------------------------- dispatch

  /** The collaborators one attempt of a handler talks to; `windows` is fixed for the whole process. */
  datatype Env = Env(
    windows: bool,
    shell: ShellCall -> Outcome,
    gbkToUtf8: string -> Option<string>,
    http: HttpRequest -> HttpExchange,
    ssh: (SshConfig, string) -> Outcome)

  /** `Handler.Run` for each variant. */
  function RunHandler(h: Handler, task: Task, env: Env): (r: Outcome)
    ensures h == SSHCommandHandler ==> r == env.ssh(SshConfigFor(task), task.command)
    ensures h == HTTPHandler ==> r == HttpRun(task, env.http)
    ensures h == LocalCommandHandler ==> r == LocalRun(task, env.windows, env.shell, env.gbkToUtf8)
  {
    match h
    case HTTPHandler => HttpRun(task, env.http)
    case SSHCommandHandler => env.ssh(SshConfigFor(task), task.command)
    case LocalCommandHandler => LocalRun(task, env.windows, env.shell, env.gbkToUtf8)
  }
}
