/** The kryocache client library: a connection state machine over one TCP
    socket, a bounded connect-retry loop with exponential backoff, a guarded
    send/receive exchange, and the key/value operations built on it.

    Everything the operating system decides (address parsing, socket
    creation, each connect attempt and its poll, the counts `send` and `recv`
    return, the text of `strerror`, the clock) is an explicit input, the
    `Environment`. The mutex that serialises calls is not modelled: every
    call runs to completion before the next. */
module Client {
  import opened CTypes

  // ---------------------------------------------------------------------
  // Constants

  const DEFAULT_HOST: CString := "::1"
  const DEFAULT_PORT: nat := 6898
  const DEFAULT_TIMEOUT_MS: nat := 5000
  const DEFAULT_MAX_RETRIES: nat := 3
  const MAX_COMMAND_LENGTH: nat := 4096
  const BUFFER_SIZE: nat := 4096
  const MAX_KEY_LENGTH: nat := 256
  const MAX_VALUE_LENGTH: nat := 1048576
  const LAST_ERROR_SIZE: nat := 256
  const BASE_DELAY_US: nat := 100000
  const INT_MAX: int := 0x7fff_ffff

  // The fixed leads of the `last_error` texts.
  const BAD_ADDRESS: CString := "Invalid IPv6 address: "
  const SOCKET_FAILED: CString := "Socket creation failed: "
  const BAD_COMMAND_LENGTH: CString := "Invalid command length: "
  const SEND_FAILED: CString := "Send failed: "
  const RECEIVE_FAILED: CString := "Receive failed: "
  const CRITICAL_ERROR: CString := "Critical connection error: "
  const KEY_TOO_LONG: CString := "Key too long: "
  const VALUE_TOO_LONG: CString := "Value too long: "
  const FAILED_AFTER: CString := "Connection failed after "

  // ---------------------------------------------------------------------
  // Data model

  datatype Status = Disconnected | Connecting | Connected | Error

  /** The result enum, plus the one raw integer the connect path can return
      outside it. */
  datatype ClientResult =
    | Success | ErrConnection | ErrTimeout | ErrProtocol | ErrServer | ErrMemory | ErrInvalidParam
    | Unlisted(code: int)

  datatype Config = Config(host: Option<CString>, port: uint32, timeoutMs: uint32,
                           maxRetries: uint32, autoReconnect: bool)

  datatype Stats = Stats(operationsTotal: uint64, operationsFailed: uint64,
                         bytesSent: uint64, bytesReceived: uint64, reconnectCount: uint32)

  /** The mutable fields of a client instance, as one value. */
  datatype ClientState = ClientState(status: Status, sockfd: int, stats: Stats,
                                     lastError: CString, connectTime: int, lastActivity: int)

  /** The errno values the connect loop tells apart; any other is `OtherErrno`. */
  datatype Errno =
    | EInProgress | EAlready | EIsConn | EConnRefused | ETimedOut | ENetUnreach | EHostUnreach
    | OtherErrno(code: int)

  /** What the completion wait observed: poll's return value, whether revents
      held POLLERR, POLLHUP or POLLNVAL, whether it held POLLOUT, and the
      `getsockopt(SO_ERROR)` call. */
  datatype PollOutcome = PollOutcome(ready: int, errorEvents: bool, writable: bool,
                                     getsockoptOk: bool, soError: int)

  /** One `connect` call: it returned 0, or failed with an errno (the poll is
      consulted only for EINPROGRESS and EALREADY). */
  datatype ConnectAttempt = ConnectReturnedZero | ConnectFailed(errno: Errno, poll: PollOutcome)

  datatype SendOutcome = SendFailed | Sent(count: nat)
  datatype RecvOutcome = RecvFailed | Received(data: string)

  /** Everything the operating system contributes to one library call:
      `inet_pton`, `socket`, `fcntl(F_GETFL)`, one outcome per connect attempt
      the loop may make, `send`, `recv`, the `strerror` text of the errno
      that is reported last, and `time(NULL)`. */
  datatype Environment = Environment(addressValid: bool, socketResult: int, flagsOk: bool,
                                     attempts: seq<ConnectAttempt>, send: SendOutcome,
                                     recv: RecvOutcome, osText: CString, now: nat)

  /** The effect of one call: its result, the new state, the `usleep`
      arguments in order, and the bytes written into the response buffer
      before its terminator. */
  datatype Outcome = Outcome(result: ClientResult, after: ClientState, delays: seq<nat>, reply: string)

  /** How the retry loop treats one connect attempt. */
  datatype Verdict = Establishes | Retries | Aborts

  /** The retry loop's run: whether it connected, how many attempts it made,
      and the sleeps between them. */
  datatype Run = Run(established: bool, made: nat, delays: seq<nat>)

  datatype Validation = Validation(ok: bool, written: Option<string>)

  /** A client whose host can be handed to `inet_pton`, with an outcome for
      every attempt the loop may make. */
  predicate Ready(cfg: Config, env: Environment) {
    cfg.host.Some? && cfg.maxRetries <= |env.attempts|
  }

  /** The invariant every operation keeps: a connected client holds an open
      socket, the connection time is a clock reading or 0, and the error text
      fits `last_error[256]` with its terminator. */
  predicate Valid(s: ClientState) {
    (s.status == Connected ==> s.sockfd >= 0) && s.connectTime >= 0 && |s.lastError| < LAST_ERROR_SIZE
  }

  function InitialState(): (s: ClientState)
    ensures Valid(s) && s.status == Disconnected && s.sockfd == -1
  {
    ClientState(Disconnected, -1, Stats(0, 0, 0, 0, 0), "", 0, 0)
  }

  // ---------------------------------------------------------------------
  // C arithmetic and formatting

  /** `x++` on a `uint64_t`. */
  function Inc(x: uint64): (r: uint64)
    ensures x < TWO_64 - 1 ==> r == x + 1
    ensures x == TWO_64 - 1 ==> r == 0
  {
    (x + 1) % TWO_64
  }

  /** `x += n` on a `uint64_t`. */
  function AddU64(x: uint64, n: nat): (r: uint64)
    ensures x + n < TWO_64 ==> r == x + n
  {
    (x + n) % TWO_64
  }

  /** A `uint32_t` passed to `%d`: read as a two's-complement `int`. */
  function AsInt32(x: uint32): (r: int)
    ensures -0x8000_0000 <= r <= INT_MAX
    ensures r == x || r == x - TWO_32
  {
    if x <= INT_MAX then x else x - TWO_32
  }

  /** `snprintf` of a text into a buffer of `size` bytes. */
  function Format(text: CString, size: nat): (r: CString)
    requires size > 0
    ensures |r| < size && r <= text
    ensures |text| < size ==> r == text
  {
    var t := Truncate(text, size);
    assert forall i | 0 <= i < |t| :: t[i] == text[i];
    t
  }

  /** An error text, a fixed lead followed by a detail, stored into
      `last_error`. */
  function Message(lead: CString, detail: CString): (m: CString)
    ensures |m| < LAST_ERROR_SIZE && m <= lead + detail
  {
    Format(lead + detail, LAST_ERROR_SIZE)
  }

  function KeyTooLong(key: CString): CString {
    Message(KEY_TOO_LONG, NatToDecimal(|key|) + " bytes (max: " + NatToDecimal(MAX_KEY_LENGTH) + ")")
  }

  function ValueTooLong(value: CString): CString {
    Message(VALUE_TOO_LONG, NatToDecimal(|value|) + " bytes (max: " + NatToDecimal(MAX_VALUE_LENGTH) + ")")
  }

  function FailedAfter(maxRetries: uint32, osText: CString): CString {
    Message(FAILED_AFTER, IntToDecimal(AsInt32(maxRetries)) + " attempts: " + osText)
  }

  // ---------------------------------------------------------------------
  // Connect attempts and the retry loop

  /** `check_connection_complete_poll`: the socket is connected only when poll
      reported it writable without an error condition and the pending socket
      error reads 0. */
  function ConnectionComplete(p: PollOutcome): (ok: bool)
    ensures ok ==> p.ready > 0 && p.writable && p.soError == 0
    ensures p.ready <= 0 || p.errorEvents || !p.getsockoptOk ==> !ok
  {
    if p.ready <= 0 then false
    else if p.errorEvents then false
    else if p.writable then p.getsockoptOk && p.soError == 0
    else false
  }

  /** The errors the loop treats as temporary. */
  predicate Transient(e: Errno) {
    e == EConnRefused || e == ETimedOut || e == ENetUnreach || e == EHostUnreach
  }

  /** The classification of one attempt by the loop body's if/else chain. */
  function Classify(a: ConnectAttempt): (v: Verdict)
    ensures v == Aborts <==> a.ConnectFailed? && a.errno.OtherErrno?
    ensures v == Establishes <==>
      a.ConnectReturnedZero? || a.errno == EIsConn ||
      ((a.errno == EInProgress || a.errno == EAlready) && ConnectionComplete(a.poll))
    ensures a.ConnectFailed? && Transient(a.errno) ==> v == Retries
  {
    match a
    case ConnectReturnedZero => Establishes
    case ConnectFailed(errno, poll) =>
      if errno == EInProgress || errno == EAlready then
        (if ConnectionComplete(poll) then Establishes else Retries)
      else if errno == EIsConn then Establishes
      else if Transient(errno) then Retries
      else Aborts
  }

  /** The sleep before the attempt after attempt k, in microseconds. */
  function Backoff(k: nat): nat {
    BASE_DELAY_US * Pow2(k)
  }

  /** The loop from attempt k on: it stops at the first attempt that
      connects or aborts, or after `maxRetries` attempts, and sleeps after
      every retried attempt except the last one allowed. */
  function RetryLoop(attempts: seq<ConnectAttempt>, maxRetries: nat, k: nat): (r: Run)
    requires k <= maxRetries <= |attempts|
    ensures k <= r.made <= maxRetries
    decreases maxRetries - k
  {
    if k == maxRetries then Run(false, k, [])
    else
      match Classify(attempts[k])
      case Establishes => Run(true, k + 1, [])
      case Aborts => Run(false, k + 1, [])
      case Retries =>
        var rest := RetryLoop(attempts, maxRetries, k + 1);
        Run(rest.established, rest.made, (if k + 1 < maxRetries then [Backoff(k)] else []) + rest.delays)
  }

  /** What a run of the loop from attempt k is: every attempt before the
      last one made was retried; the loop connected exactly when the last
      attempt connected; it stopped early only at an attempt it does not
      retry; and it slept `made - 1` times, 100000·2^i µs after attempt i. */
  lemma {:induction false} RetryLoopRun(attempts: seq<ConnectAttempt>, maxRetries: nat, k: nat)
    requires k <= maxRetries <= |attempts|
    ensures var r := RetryLoop(attempts, maxRetries, k);
      && (forall j | k <= j && j + 1 < r.made :: Classify(attempts[j]) == Retries)
      && (r.made > k ==> (r.established <==> Classify(attempts[r.made - 1]) == Establishes))
      && (r.made < maxRetries ==> r.made > k && Classify(attempts[r.made - 1]) != Retries)
      && (r.made == k ==> !r.established)
      && |r.delays| == (if r.made > k then r.made - 1 - k else 0)
      && (forall i | 0 <= i < |r.delays| :: r.delays[i] == Backoff(k + i))
    decreases maxRetries - k
  {
    if k < maxRetries && Classify(attempts[k]) == Retries {
      RetryLoopRun(attempts, maxRetries, k + 1);
    }
  }

  /** The sleeps start at 100 ms and double each time. */
  lemma DelaysDouble(attempts: seq<ConnectAttempt>, maxRetries: nat)
    requires maxRetries <= |attempts|
    ensures var d := RetryLoop(attempts, maxRetries, 0).delays;
      (|d| > 0 ==> d[0] == 100000) && forall i | 0 <= i && i + 1 < |d| :: d[i + 1] == 2 * d[i]
  {
    var d := RetryLoop(attempts, maxRetries, 0).delays;
    RetryLoopRun(attempts, maxRetries, 0);
    forall i | 0 <= i && i + 1 < |d|
      ensures d[i + 1] == 2 * d[i]
    {
      assert d[i + 1] == Backoff(i + 1) && d[i] == Backoff(i);
    }
  }

  /** With every attempt retried, the loop makes exactly `maxRetries`
      attempts and sleeps `maxRetries - 1` times. */
  lemma AllRetriedExhausts(attempts: seq<ConnectAttempt>, maxRetries: nat)
    requires maxRetries <= |attempts|
    requires forall j | 0 <= j < maxRetries :: Classify(attempts[j]) == Retries
    ensures var r := RetryLoop(attempts, maxRetries, 0);
      !r.established && r.made == maxRetries && |r.delays| == if maxRetries > 0 then maxRetries - 1 else 0
  {
    RetryLoopRun(attempts, maxRetries, 0);
  }

  /** `100000 * (1 << attempt)` evaluated in C `int`: None where the shift or
      the product is undefined. */
  function BackoffInC(attempt: nat): (r: Option<int>)
    ensures r.Some? ==> r.value == Backoff(attempt) && r.value <= INT_MAX
  {
    if attempt >= 31 then None
    else if BASE_DELAY_US * Pow2(attempt) > INT_MAX then None
    else Some(BASE_DELAY_US * Pow2(attempt))
  }

  /** The sleep computed after attempt 15 (reached when `max_retries` is 17
      or more) overflows `int`; up to attempt 14 it is exact. */
  lemma BackoffOverflowsAt15()
    ensures BackoffInC(14) == Some(1638400000)
    ensures BackoffInC(15) == None
  {
    assert Pow2(14) == 16384;
    assert Pow2(15) == 32768;
  }

  // ---------------------------------------------------------------------
  // Connection establishment

  /** `client_establish_connection`. */
  function Establish(s: ClientState, cfg: Config, env: Environment): (o: Outcome)
    requires Ready(cfg, env)
    ensures var run := RetryLoop(env.attempts, cfg.maxRetries, 0);
      (o.result == Success <==> env.addressValid && env.socketResult >= 0 && env.flagsOk && run.established)
    ensures o.result in {Success, ErrConnection, ErrProtocol, Unlisted(-1)}
    ensures o.result == ErrProtocol <==> !env.addressValid
    ensures o.result == Success ==>
      o.after == s.(status := Connected, sockfd := env.socketResult, connectTime := env.now, lastActivity := env.now)
    ensures o.result != Success ==> o.after.status == s.status && o.after.stats == s.stats
    ensures o.result == ErrConnection && env.socketResult >= 0 ==> o.after.sockfd == -1
    ensures o.result == Unlisted(-1) ==> o.after == s.(sockfd := env.socketResult) && o.after.sockfd >= 0
    ensures cfg.maxRetries == 0 && o.result != ErrProtocol ==> o.result != Success && o.delays == []
    ensures o.reply == [] && |o.delays| < Max(cfg.maxRetries, 1)
    ensures Valid(s) && s.status != Connected ==> Valid(o.after)
  {
    if !env.addressValid then
      Outcome(ErrProtocol, s.(lastError := Message(BAD_ADDRESS, cfg.host.value)), [], [])
    else if env.socketResult < 0 then
      Outcome(ErrConnection, s.(sockfd := env.socketResult,
                                lastError := Message(SOCKET_FAILED, env.osText)), [], [])
    else if !env.flagsOk then
      Outcome(Unlisted(-1), s.(sockfd := env.socketResult), [], [])
    else
      var run := RetryLoop(env.attempts, cfg.maxRetries, 0);
      RetryLoopRun(env.attempts, cfg.maxRetries, 0);
      if run.established then
        Outcome(Success, s.(status := Connected, sockfd := env.socketResult,
                            connectTime := env.now, lastActivity := env.now), run.delays, [])
      else
        Outcome(ErrConnection, s.(sockfd := -1, lastError := FailedAfter(cfg.maxRetries, env.osText)),
                run.delays, [])
  }

  /** `client_connect`: a connected client is left alone; otherwise the
      client is marked CONNECTING, and a failed establishment leaves it in
      ERROR with one more failed operation. */
  function ConnectSpec(s: ClientState, cfg: Config, env: Environment): (o: Outcome)
    requires Ready(cfg, env)
    ensures s.status == Connected ==> o == Outcome(Success, s, [], [])
    ensures s.status != Connected ==> (o.result == Success <==> o.after.status == Connected)
    ensures s.status != Connected && o.result != Success ==>
      o.after.status == Error && o.after.stats == s.stats.(operationsFailed := Inc(s.stats.operationsFailed))
    ensures o.result == Success ==>
      o.after.stats == s.stats && o.after.status == Connected && o.after.lastError == s.lastError
    ensures o.reply == []
    ensures Valid(s) ==> Valid(o.after)
  {
    if s.status == Connected then Outcome(Success, s, [], [])
    else
      var e := Establish(s.(status := Connecting), cfg, env);
      if e.result == Success then e
      else e.(after := e.after.(status := Error,
                                stats := e.after.stats.(operationsFailed := Inc(e.after.stats.operationsFailed))))
  }

  /** `client_disconnect`. */
  function DisconnectSpec(s: ClientState): (o: Outcome)
    ensures o.result == Success && o.delays == [] && o.reply == []
    ensures s.status != Connected ==> o.after == s
    ensures s.status == Connected ==> o.after.status == Disconnected && o.after.sockfd < 0 && o.after.connectTime <= 0
    ensures o.after.stats == s.stats && o.after.lastError == s.lastError && o.after.lastActivity == s.lastActivity
    ensures Valid(s) ==> Valid(o.after)
    ensures Valid(s) && s.status == Connected ==> o.after.sockfd == -1 && o.after.connectTime == 0
  {
    if s.status != Connected then Outcome(Success, s, [], [])
    else
      var closed := if s.sockfd >= 0 then s.(sockfd := -1) else s;
      var timed := if closed.connectTime > 0 then closed.(connectTime := 0) else closed;
      Outcome(Success, timed.(status := Disconnected), [], [])
  }

  /** Disconnecting twice is disconnecting once. */
  lemma DisconnectIdempotent(s: ClientState)
    ensures var once := DisconnectSpec(s).after;
      DisconnectSpec(once) == Outcome(Success, once, [], [])
  {
  }

  /** A successful connect followed by a disconnect closes the socket and
      clears the connection time; the counters are untouched. */
  lemma ConnectThenDisconnect(s: ClientState, cfg: Config, env: Environment)
    requires Ready(cfg, env) && Valid(s) && s.status != Connected
    requires ConnectSpec(s, cfg, env).result == Success
    ensures var d := DisconnectSpec(ConnectSpec(s, cfg, env).after).after;
      d.status == Disconnected && d.sockfd == -1 && d.connectTime == 0 && d.stats == s.stats
  {
    var c := ConnectSpec(s, cfg, env).after;
    assert Valid(c) && c.status == Connected;
  }

  /** Once connected, connecting again changes nothing and makes no attempt. */
  lemma ConnectTwice(s: ClientState, cfg: Config, env1: Environment, env2: Environment)
    requires Ready(cfg, env1) && Ready(cfg, env2)
    requires ConnectSpec(s, cfg, env1).result == Success
    ensures var c := ConnectSpec(s, cfg, env1).after;
      ConnectSpec(c, cfg, env2) == Outcome(Success, c, [], [])
  {
  }

  // ---------------------------------------------------------------------
  // The command exchange

  /** `client_send_command`: argument checks in order, then one `send` and one
      `recv` of at most `responseSize - 1` bytes. */
  function SendCommandSpec(s: ClientState, command: Option<CString>, responseSize: nat,
                           bufferPresent: bool, env: Environment): (o: Outcome)
    ensures o.result in {Success, ErrConnection, ErrInvalidParam}
    ensures command.None? || !bufferPresent ==> o.result == ErrConnection && o.after == s
    ensures command.Some? && bufferPresent && (responseSize == 0 || responseSize > BUFFER_SIZE) ==>
      o.result == ErrInvalidParam && o.after == s
    ensures s.status != Connected ==> o.result != Success && o.after == s
    ensures (command.Some? && bufferPresent && 0 < responseSize <= BUFFER_SIZE && s.status == Connected &&
             (|command.value| == 0 || |command.value| > MAX_COMMAND_LENGTH)) ==>
      o.result == ErrInvalidParam && o.after == s.(lastError := Message(BAD_COMMAND_LENGTH, NatToDecimal(|command.value|)))
    ensures o.result == Success ==>
      command.Some? && 0 < |command.value| <= MAX_COMMAND_LENGTH && env.send.Sent? && env.recv.Received? &&
      |o.reply| <= responseSize - 1 && o.reply <= env.recv.data &&
      o.after == s.(stats := s.stats.(bytesSent := AddU64(s.stats.bytesSent, Min(env.send.count, |command.value|)),
                                      bytesReceived := AddU64(s.stats.bytesReceived, |o.reply|)),
                    lastActivity := env.now)
    ensures o.result != Success ==> o.reply == [] && o.after.lastActivity == s.lastActivity
    ensures o.after.status == s.status && o.after.sockfd == s.sockfd && o.after.connectTime == s.connectTime
    ensures o.after.stats.operationsTotal == s.stats.operationsTotal
    ensures o.after.stats.operationsFailed == s.stats.operationsFailed
    ensures o.delays == []
    ensures Valid(s) ==> Valid(o.after)
  {
    if command.None? || !bufferPresent then Outcome(ErrConnection, s, [], [])
    else if responseSize == 0 || responseSize > BUFFER_SIZE then Outcome(ErrInvalidParam, s, [], [])
    else if s.status != Connected then Outcome(ErrConnection, s, [], [])
    else if |command.value| == 0 || |command.value| > MAX_COMMAND_LENGTH then
      Outcome(ErrInvalidParam, s.(lastError := Message(BAD_COMMAND_LENGTH, NatToDecimal(|command.value|))), [], [])
    else
      match env.send
      case SendFailed =>
        Outcome(ErrConnection, s.(lastError := Message(SEND_FAILED, env.osText)), [], [])
      case Sent(n) =>
        var sent := s.(stats := s.stats.(bytesSent := AddU64(s.stats.bytesSent, Min(n, |command.value|))));
        match env.recv
        case RecvFailed =>
          Outcome(ErrConnection, sent.(lastError := Message(RECEIVE_FAILED, env.osText)), [], [])
        case Received(data) =>
          var k := Min(|data|, responseSize - 1);
          Outcome(Success, sent.(stats := sent.stats.(bytesReceived := AddU64(sent.stats.bytesReceived, k)),
                                 lastActivity := env.now), [], data[..k])
  }

  /** One library operation after its own argument checks: make sure the
      client is connected, exchange the command, and count the operation. */
  function RunCommand(s: ClientState, cfg: Config, command: CString, env: Environment): (o: Outcome)
    requires Ready(cfg, env)
    ensures var c := ConnectSpec(s, cfg, env);
      c.result != Success ==> o == c
    ensures var c := ConnectSpec(s, cfg, env);
      c.result == Success ==>
        o.after.stats.operationsTotal == Inc(s.stats.operationsTotal) &&
        o.after.stats.operationsFailed ==
          (if o.result == Success then s.stats.operationsFailed else Inc(s.stats.operationsFailed))
    ensures |o.reply| < BUFFER_SIZE
    ensures o.result == Success ==> o.after.status == Connected
    ensures Valid(s) ==> Valid(o.after)
  {
    var c := ConnectSpec(s, cfg, env);
    if c.result != Success then c
    else
      var x := SendCommandSpec(c.after, Some(command), BUFFER_SIZE, true, env);
      var st := x.after.stats;
      var counted := st.(operationsTotal := Inc(st.operationsTotal),
                         operationsFailed := if x.result == Success then st.operationsFailed else Inc(st.operationsFailed));
      Outcome(x.result, x.after.(stats := counted), c.delays, x.reply)
  }

  /** `"SET %s %s\r\n"` into a buffer of key limit + value limit + 32 bytes:
      within the limits nothing is cut off. */
  function SetCommand(key: CString, value: CString): (c: CString)
    requires |key| <= MAX_KEY_LENGTH && |value| <= MAX_VALUE_LENGTH
    ensures c == "SET " + key + " " + value + "\r\n"
  {
    Format("SET " + key + " " + value + "\r\n", MAX_KEY_LENGTH + MAX_VALUE_LENGTH + 32)
  }

  /** `"<VERB> %s\r\n"` into a buffer of key limit + 32 bytes. */
  function KeyCommand(verb: CString, key: CString): (c: CString)
    requires |verb| <= 10 && |key| <= MAX_KEY_LENGTH
    ensures c == verb + " " + key + "\r\n"
  {
    Format(verb + " " + key + "\r\n", MAX_KEY_LENGTH + 32)
  }

  /** `client_set`. */
  function SetSpec(s: ClientState, cfg: Config, key: Option<CString>, value: Option<CString>,
                   env: Environment): (o: Outcome)
    requires Ready(cfg, env)
    ensures key.None? || value.None? ==> o == Outcome(ErrConnection, s, [], [])
    ensures key.Some? && value.Some? && (|key.value| > MAX_KEY_LENGTH || |value.value| > MAX_VALUE_LENGTH) ==>
      o.result == ErrProtocol && o.delays == [] && o.after == s.(lastError := o.after.lastError)
    ensures key.Some? && value.Some? && |key.value| <= MAX_KEY_LENGTH && |value.value| <= MAX_VALUE_LENGTH ==>
      o == RunCommand(s, cfg, "SET " + key.value + " " + value.value + "\r\n", env)
    ensures Valid(s) ==> Valid(o.after)
  {
    if key.None? || value.None? then Outcome(ErrConnection, s, [], [])
    else if |key.value| > MAX_KEY_LENGTH then Outcome(ErrProtocol, s.(lastError := KeyTooLong(key.value)), [], [])
    else if |value.value| > MAX_VALUE_LENGTH then Outcome(ErrProtocol, s.(lastError := ValueTooLong(value.value)), [], [])
    else RunCommand(s, cfg, SetCommand(key.value, value.value), env)
  }

  /** `client_delete`, `client_exists` and, after its buffer checks,
      `client_get`: one key, checked against the key limit before
      connecting. */
  function KeySpec(s: ClientState, cfg: Config, verb: CString, key: Option<CString>, env: Environment): (o: Outcome)
    requires Ready(cfg, env) && |verb| <= 10
    ensures key.None? ==> o == Outcome(ErrConnection, s, [], [])
    ensures key.Some? && |key.value| > MAX_KEY_LENGTH ==>
      o == Outcome(ErrProtocol, s.(lastError := KeyTooLong(key.value)), [], [])
    ensures key.Some? && |key.value| <= MAX_KEY_LENGTH ==> o == RunCommand(s, cfg, verb + " " + key.value + "\r\n", env)
    ensures Valid(s) ==> Valid(o.after)
  {
    if key.None? then Outcome(ErrConnection, s, [], [])
    else if |key.value| > MAX_KEY_LENGTH then Outcome(ErrProtocol, s.(lastError := KeyTooLong(key.value)), [], [])
    else RunCommand(s, cfg, KeyCommand(verb, key.value), env)
  }

  /** `client_get`: a missing or empty value buffer is refused like a
      missing key. */
  function GetSpec(s: ClientState, cfg: Config, key: Option<CString>, bufferPresent: bool,
                   bufferSize: nat, env: Environment): (o: Outcome)
    requires Ready(cfg, env)
    ensures !bufferPresent || bufferSize == 0 ==> o == Outcome(ErrConnection, s, [], [])
    ensures bufferPresent && bufferSize > 0 ==> o == KeySpec(s, cfg, GET_VERB, key, env)
  {
    if !bufferPresent || bufferSize == 0 then Outcome(ErrConnection, s, [], [])
    else KeySpec(s, cfg, GET_VERB, key, env)
  }

  /** `strncpy(dst, src, n)`: the first n bytes of src, padded with NULs. */
  function Strncpy(src: CString, n: nat): (r: string)
    ensures |r| == n
    ensures CStr(r) == if |src| < n then src else src[..n]
  {
    if |src| >= n then src[..n]
    else
      var padded := src + seq(n - |src|, _ => '\0');
      CStrAtNul(padded, |src|);
      assert padded[..|src|] == src;
      CStrOfCString(src);
      padded
  }

  /** The value `client_get` hands back, read as a C string, is the reply's
      C string cut to fit the caller's buffer. */
  lemma GetValueFits(reply: string, bufferSize: nat)
    requires bufferSize > 0
    ensures var buffer := Strncpy(CStr(reply), bufferSize - 1) + ['\0'];
      CStr(buffer) == Truncate(CStr(reply), bufferSize) && |buffer| == bufferSize
  {
    var c := CStr(reply);
    var copied := Strncpy(c, bufferSize - 1);
    var buffer := copied + ['\0'];
    var cut := if |c| < bufferSize - 1 then c else c[..bufferSize - 1];
    assert CStr(copied) == cut;
    if |cut| < |copied| {
      CStrAtNul(buffer, |cut|);
      CStrAtNul(copied, |cut|);
      assert buffer[..|cut|] == copied[..|cut|];
    } else {
      CStrAtNul(buffer, |copied|);
      assert buffer[..|copied|] == copied;
    }
  }

  /** A key and value within their own limits can still make a command longer
      than the transport accepts: such a SET never succeeds, and on a
      connected client it fails with INVALID_PARAM. */
  lemma LongSetRefused(s: ClientState, cfg: Config, key: CString, value: CString, env: Environment)
    requires Ready(cfg, env)
    requires |key| <= MAX_KEY_LENGTH && |value| <= MAX_VALUE_LENGTH
    requires |key| + |value| + 7 > MAX_COMMAND_LENGTH
    ensures SetSpec(s, cfg, Some(key), Some(value), env).result != Success
    ensures s.status == Connected ==> SetSpec(s, cfg, Some(key), Some(value), env).result == ErrInvalidParam
  {
    var command := "SET " + key + " " + value + "\r\n";
    assert |command| == |key| + |value| + 7;
  }

  /** A SET that cannot connect counts as failed but not as performed, so
      `operations_failed` can exceed `operations_total`. */
  lemma FailedCanExceedTotal(cfg: Config, env: Environment)
    requires Ready(cfg, env) && !env.addressValid
    ensures var o := SetSpec(InitialState(), cfg, Some("k"), Some("v"), env);
      o.result == ErrProtocol && o.after.stats.operationsFailed == 1 && o.after.stats.operationsTotal == 0
  {
    var s := InitialState();
    var e := Establish(s.(status := Connecting), cfg, env);
    assert e.result == ErrProtocol;
  }

  // ---------------------------------------------------------------------
  // Configuration and reporting

  /** `client_config_default`. */
  function ConfigDefault(): (c: Config)
    ensures c.host == Some(DEFAULT_HOST) && c.port == DEFAULT_PORT && c.timeoutMs == DEFAULT_TIMEOUT_MS
    ensures c.maxRetries == DEFAULT_MAX_RETRIES && c.autoReconnect
  {
    Config(Some(DEFAULT_HOST), DEFAULT_PORT, DEFAULT_TIMEOUT_MS, DEFAULT_MAX_RETRIES, true)
  }

  // The verbs and fixed commands the operations send.
  const GET_VERB: CString := "GET"
  const DELETE_VERB: CString := "DELETE"
  const EXISTS_VERB: CString := "EXISTS"
  const FLUSH_COMMAND: CString := "FLUSH\r\n"
  const PING_COMMAND: CString := "PING\r\n"

  const NULL_CONFIG: CString := "Configuration is NULL"
  const EMPTY_HOST: CString := "Host cannot be empty"
  const BAD_PORT: CString := "Invalid port: "
  const PORT_RANGE: CString := " (must be 1-65535)"
  const ZERO_TIMEOUT: CString := "Timeout cannot be zero"

  /** The first complaint `client_config_validate` has about a configuration. */
  function ConfigProblem(config: Option<Config>): Option<CString> {
    if config.None? then Some(NULL_CONFIG)
    else if config.value.host.None? || config.value.host.value == [] then Some(EMPTY_HOST)
    else if config.value.port < 1 || config.value.port > 65535 then
      Some(BAD_PORT + NatToDecimal(config.value.port) + PORT_RANGE)
    else if config.value.timeoutMs == 0 then Some(ZERO_TIMEOUT)
    else None
  }

  /** `client_config_validate`: the verdict and, on refusal, what is written
      into an error buffer of `errorSize` bytes. */
  function ConfigValidate(config: Option<Config>, errorSize: nat): (v: Validation)
    ensures v.ok <==> config.Some? && config.value.host.Some? && config.value.host.value != [] &&
                      1 <= config.value.port <= 65535 && config.value.timeoutMs != 0
    ensures v.written.Some? <==> !v.ok && errorSize > 0
    ensures v.written.Some? ==> |v.written.value| < errorSize
  {
    match ConfigProblem(config)
    case None => Validation(true, None)
    case Some(text) => Validation(false, if errorSize == 0 then None else Some(Format(text, errorSize)))
  }

  /** The default configuration passes validation. */
  lemma DefaultConfigValid(errorSize: nat)
    ensures ConfigValidate(Some(ConfigDefault()), errorSize) == Validation(true, None)
  {
  }

  /** `client_result_to_string`. */
  function ResultToString(r: ClientResult): (t: CString)
    ensures t != []
    ensures r == Success <==> t == "Success"
  {
    match r
    case Success => "Success"
    case ErrConnection => "Connection error"
    case ErrTimeout => "Timeout error"
    case ErrProtocol => "Protocol error"
    case ErrServer => "Server error"
    case ErrMemory => "Memory error"
    case _ => "Unknown error"
  }

  /** The six named results have six different texts; INVALID_PARAM has no
      text of its own and reads like a value outside the enum. */
  lemma ResultTextsDistinct(a: ClientResult, b: ClientResult)
    requires a != b && !a.ErrInvalidParam? && !a.Unlisted? && !b.ErrInvalidParam? && !b.Unlisted?
    ensures ResultToString(a) != ResultToString(b)
    ensures ResultToString(ErrInvalidParam) == ResultToString(Unlisted(-1)) == "Unknown error"
  {
    var ta, tb := ResultToString(a), ResultToString(b);
    assert ta[0] != tb[0] || ta[1] != tb[1];
  }

  // ---------------------------------------------------------------------
  // The client instance

  class ClientInstance {
    const config: Config
    var status: Status
    var sockfd: int
    var stats: Stats
    var lastError: CString
    var connectTime: int
    var lastActivity: int

    function State(): ClientState
      reads this
    {
      ClientState(status, sockfd, stats, lastError, connectTime, lastActivity)
    }

    /** The zero-initialised instance `client_init` builds around a copy of
        the configuration. */
    constructor (config: Config)
      ensures this.config == config && State() == InitialState()
    {
      this.config := config;
      status := Disconnected;
      sockfd := -1;
      stats := Stats(0, 0, 0, 0, 0);
      lastError := "";
      connectTime := 0;
      lastActivity := 0;
    }
  }

  /** `client_init`: NULL for a missing configuration or when the allocation
      or the mutex initialisation fails. */
  method Init(config: Option<Config>, allocOk: bool, mutexOk: bool) returns (client: ClientInstance?)
    ensures client != null <==> config.Some? && allocOk && mutexOk
    ensures client != null ==> fresh(client) && client.config == config.value && client.State() == InitialState()
  {
    if config.None? || !allocOk {
      return null;
    }
    client := new ClientInstance(config.value);
    if !mutexOk {
      client := null;
    }
  }

  /** `client_get_last_error`. */
  function GetLastError(client: ClientInstance?): (t: string)
    reads client
    ensures t != [] && '\0' !in t
    ensures client != null && client.lastError != [] ==> t == client.lastError
    ensures client == null || client.lastError == [] ==> t == "No error"
  {
    if client == null || client.lastError == [] then "No error" else client.lastError
  }

  /** `client_establish_connection` on a non-null client: returns the result
      and the sleeps between attempts. */
  method EstablishConnection(client: ClientInstance, env: Environment) returns (result: ClientResult, delays: seq<nat>)
    requires Ready(client.config, env)
    modifies client
    ensures var o := Establish(old(client.State()), client.config, env);
      result == o.result && delays == o.delays && client.State() == o.after
  {
    delays := [];
    if !env.addressValid {
      client.lastError := Message(BAD_ADDRESS, client.config.host.value);
      return ErrProtocol, delays;
    }
    client.sockfd := env.socketResult;
    if client.sockfd < 0 {
      client.lastError := Message(SOCKET_FAILED, env.osText);
      return ErrConnection, delays;
    }
    if !env.flagsOk {
      return Unlisted(-1), delays;
    }
    var established;
    established, delays := ConnectLoop(client, env);
    if established {
      return Success, delays;
    }
    client.lastError := FailedAfter(client.config.maxRetries, env.osText);
    client.sockfd := -1;
    result := ErrConnection;
  }

  /** The retry loop of `client_establish_connection` on an open socket:
      it connects, aborts, or runs out of attempts, sleeping in between. */
  method ConnectLoop(client: ClientInstance, env: Environment) returns (established: bool, delays: seq<nat>)
    requires client.config.maxRetries <= |env.attempts|
    modifies client
    ensures var run := RetryLoop(env.attempts, client.config.maxRetries, 0);
      established == run.established && delays == run.delays
    ensures established ==>
      client.State() == old(client.State()).(status := Connected, connectTime := env.now, lastActivity := env.now)
    ensures !established ==> client.State() == old(client.State()).(lastError := client.lastError)
  {
    var maxRetries: nat := client.config.maxRetries;
    ghost var full := RetryLoop(env.attempts, maxRetries, 0);
    var attempt: nat := 0;
    delays := [];
    while attempt < maxRetries
      invariant attempt <= maxRetries
      invariant unchanged(client)
      invariant full.established == RetryLoop(env.attempts, maxRetries, attempt).established
      invariant full.delays == delays + RetryLoop(env.attempts, maxRetries, attempt).delays
    {
      var verdict := Classify(env.attempts[attempt]);
      if verdict == Establishes {
        client.status := Connected;
        client.connectTime := env.now;
        client.lastActivity := client.connectTime;
        return true, delays;
      } else if verdict == Aborts {
        client.lastError := Message(CRITICAL_ERROR, env.osText);
        break;
      }
      ghost var rest := RetryLoop(env.attempts, maxRetries, attempt + 1).delays;
      if attempt < maxRetries - 1 {
        assert full.delays == delays + ([Backoff(attempt)] + rest);
        delays := delays + [Backoff(attempt)];
      }
      assert full.delays == delays + rest;
      attempt := attempt + 1;
    }
    established := false;
  }

  /** `client_connect`. */
  method Connect(client: ClientInstance?, env: Environment) returns (result: ClientResult, delays: seq<nat>)
    requires client != null ==> Ready(client.config, env)
    modifies client
    ensures client == null ==> result == ErrConnection && delays == []
    ensures client != null ==> var o := ConnectSpec(old(client.State()), client.config, env);
      result == o.result && delays == o.delays && client.State() == o.after
  {
    if client == null {
      return ErrConnection, [];
    }
    if client.status == Connected {
      return Success, [];
    }
    client.status := Connecting;
    result, delays := EstablishConnection(client, env);
    if result != Success {
      client.status := Error;
      client.stats := client.stats.(operationsFailed := Inc(client.stats.operationsFailed));
    }
  }

  /** `client_disconnect`. */
  method Disconnect(client: ClientInstance?) returns (result: ClientResult)
    modifies client
    ensures client == null ==> result == ErrConnection
    ensures client != null ==> var o := DisconnectSpec(old(client.State()));
      result == o.result && client.State() == o.after
  {
    if client == null {
      return ErrConnection;
    }
    if client.status != Connected {
      return Success;
    }
    if client.sockfd >= 0 {
      client.sockfd := -1;
    }
    if client.connectTime > 0 {
      client.connectTime := 0;
    }
    client.status := Disconnected;
    result := Success;
  }

  /** `client_destroy`: a connected client is disconnected before it is
      released. */
  method Destroy(client: ClientInstance?)
    modifies client
    ensures client != null ==> client.State() == DisconnectSpec(old(client.State())).after
  {
    if client == null {
      return;
    }
    if client.status == Connected {
      var _ := Disconnect(client);
    }
  }

  /** `client_send_command`: on success the response buffer holds the
      received bytes followed by a NUL. */
  method SendCommand(client: ClientInstance?, command: Option<CString>, response: array?<char>,
                     responseSize: nat, env: Environment) returns (result: ClientResult)
    requires response != null ==> responseSize <= response.Length
    modifies client, response
    ensures client == null ==> result == ErrConnection
    ensures client != null ==>
      var o := SendCommandSpec(old(client.State()), command, responseSize, response != null, env);
      result == o.result && client.State() == o.after &&
      (response != null && result == Success ==>
        response[..|o.reply|] == o.reply && response[|o.reply|] == '\0' &&
        response[|o.reply| + 1..] == old(response[|o.reply| + 1..]))
    ensures response != null && result != Success ==> response[..] == old(response[..])
  {
    if client == null || command.None? || response == null {
      return ErrConnection;
    }
    if responseSize == 0 || responseSize > BUFFER_SIZE {
      return ErrInvalidParam;
    }
    if client.status != Connected {
      return ErrConnection;
    }
    var commandLength := |command.value|;
    if commandLength == 0 || commandLength > MAX_COMMAND_LENGTH {
      client.lastError := Message(BAD_COMMAND_LENGTH, NatToDecimal(commandLength));
      return ErrInvalidParam;
    }
    match env.send {
      case SendFailed =>
        client.lastError := Message(SEND_FAILED, env.osText);
        return ErrConnection;
      case Sent(n) =>
        client.stats := client.stats.(bytesSent := AddU64(client.stats.bytesSent, Min(n, commandLength)));
    }
    match env.recv {
      case RecvFailed =>
        client.lastError := Message(RECEIVE_FAILED, env.osText);
        return ErrConnection;
      case Received(data) =>
        var received := Min(|data|, responseSize - 1);
        forall i | 0 <= i < received {
          response[i] := data[i];
        }
        response[received] := '\0';
        client.stats := client.stats.(bytesReceived := AddU64(client.stats.bytesReceived, received));
        client.lastActivity := env.now;
        result := Success;
    }
  }

  /** The part every operation shares once its own arguments are accepted:
      connect, exchange `command` through a fresh 4096-byte response buffer,
      and count the operation. */
  method RunCommandOn(client: ClientInstance, command: CString, env: Environment)
    returns (result: ClientResult, delays: seq<nat>, response: array<char>)
    requires Ready(client.config, env)
    modifies client
    ensures var o := RunCommand(old(client.State()), client.config, command, env);
      result == o.result && delays == o.delays && client.State() == o.after &&
      fresh(response) && response.Length == BUFFER_SIZE &&
      (result == Success ==> response[..|o.reply|] == o.reply && response[|o.reply|] == '\0')
  {
    response := new char[BUFFER_SIZE];
    var connected;
    connected, delays := Connect(client, env);
    if connected != Success {
      return connected, delays, response;
    }
    result := SendCommand(client, Some(command), response, BUFFER_SIZE, env);
    client.stats := client.stats.(operationsTotal := Inc(client.stats.operationsTotal));
    if result != Success {
      client.stats := client.stats.(operationsFailed := Inc(client.stats.operationsFailed));
    }
  }

  /** `client_set`. */
  method Set(client: ClientInstance?, key: Option<CString>, value: Option<CString>, env: Environment)
    returns (result: ClientResult, delays: seq<nat>)
    requires client != null ==> Ready(client.config, env)
    modifies client
    ensures client == null ==> result == ErrConnection
    ensures client != null ==> var o := SetSpec(old(client.State()), client.config, key, value, env);
      result == o.result && delays == o.delays && client.State() == o.after
  {
    delays := [];
    if client == null || key.None? || value.None? {
      return ErrConnection, delays;
    }
    if |key.value| > MAX_KEY_LENGTH {
      client.lastError := KeyTooLong(key.value);
      return ErrProtocol, delays;
    }
    if |value.value| > MAX_VALUE_LENGTH {
      client.lastError := ValueTooLong(value.value);
      return ErrProtocol, delays;
    }
    var command := SetCommand(key.value, value.value);
    var response;
    result, delays, response := RunCommandOn(client, command, env);
  }

  /** The body `client_delete` and `client_exists` share. */
  method KeyOperation(client: ClientInstance?, verb: CString, key: Option<CString>, env: Environment)
    returns (result: ClientResult, delays: seq<nat>)
    requires |verb| <= 10
    requires client != null ==> Ready(client.config, env)
    modifies client
    ensures client == null ==> result == ErrConnection
    ensures client != null ==> var o := KeySpec(old(client.State()), client.config, verb, key, env);
      result == o.result && delays == o.delays && client.State() == o.after
  {
    delays := [];
    if client == null || key.None? {
      return ErrConnection, delays;
    }
    if |key.value| > MAX_KEY_LENGTH {
      client.lastError := KeyTooLong(key.value);
      return ErrProtocol, delays;
    }
    var command := KeyCommand(verb, key.value);
    var response;
    result, delays, response := RunCommandOn(client, command, env);
  }

  /** `client_delete`. */
  method Delete(client: ClientInstance?, key: Option<CString>, env: Environment)
    returns (result: ClientResult, delays: seq<nat>)
    requires client != null ==> Ready(client.config, env)
    modifies client
    ensures client == null ==> result == ErrConnection
    ensures client != null ==> var o := KeySpec(old(client.State()), client.config, DELETE_VERB, key, env);
      result == o.result && delays == o.delays && client.State() == o.after
  {
    result, delays := KeyOperation(client, DELETE_VERB, key, env);
  }

  /** `client_exists`. */
  method Exists(client: ClientInstance?, key: Option<CString>, env: Environment)
    returns (result: ClientResult, delays: seq<nat>)
    requires client != null ==> Ready(client.config, env)
    modifies client
    ensures client == null ==> result == ErrConnection
    ensures client != null ==> var o := KeySpec(old(client.State()), client.config, EXISTS_VERB, key, env);
      result == o.result && delays == o.delays && client.State() == o.after
  {
    result, delays := KeyOperation(client, EXISTS_VERB, key, env);
  }

  /** `client_get`: on success the value buffer holds the reply's C string,
      cut to `bufferSize - 1` bytes, NUL-padded and terminated. */
  method Get(client: ClientInstance?, key: Option<CString>, valueBuffer: array?<char>, bufferSize: nat,
             env: Environment) returns (result: ClientResult, delays: seq<nat>)
    requires valueBuffer != null ==> bufferSize <= valueBuffer.Length
    requires client != null ==> Ready(client.config, env)
    modifies client, valueBuffer
    ensures client == null ==> result == ErrConnection
    ensures client != null ==>
      var o := GetSpec(old(client.State()), client.config, key, valueBuffer != null, bufferSize, env);
      result == o.result && delays == o.delays && client.State() == o.after &&
      (result == Success ==>
         (valueBuffer != null && 0 < bufferSize &&
          valueBuffer[..bufferSize] == Strncpy(CStr(o.reply), bufferSize - 1) + ['\0']))
    ensures result != Success && valueBuffer != null ==> valueBuffer[..] == old(valueBuffer[..])
  {
    delays := [];
    if client == null || key.None? || valueBuffer == null || bufferSize == 0 {
      return ErrConnection, delays;
    }
    if |key.value| > MAX_KEY_LENGTH {
      client.lastError := KeyTooLong(key.value);
      return ErrProtocol, delays;
    }
    var command := KeyCommand(GET_VERB, key.value);
    var response;
    ghost var before := client.State();
    result, delays, response := RunCommandOn(client, command, env);
    if result == Success {
      ghost var reply := RunCommand(before, client.config, command, env).reply;
      CStrAtNul(response[..], |reply|);
      assert response[..][..|reply|] == reply;
      var copied := Strncpy(CStr(response[..]), bufferSize - 1);
      forall i | 0 <= i < bufferSize - 1 {
        valueBuffer[i] := copied[i];
      }
      valueBuffer[bufferSize - 1] := '\0';
      assert valueBuffer[..bufferSize] == copied + ['\0'];
    }
  }

  /** `client_flush`. */
  method Flush(client: ClientInstance?, env: Environment) returns (result: ClientResult, delays: seq<nat>)
    requires client != null ==> Ready(client.config, env)
    modifies client
    ensures client == null ==> result == ErrConnection
    ensures client != null ==> var o := RunCommand(old(client.State()), client.config, FLUSH_COMMAND, env);
      result == o.result && delays == o.delays && client.State() == o.after
  {
    if client == null {
      return ErrConnection, [];
    }
    var response;
    result, delays, response := RunCommandOn(client, FLUSH_COMMAND, env);
  }

  /** `client_ping`. */
  method Ping(client: ClientInstance?, env: Environment) returns (result: ClientResult, delays: seq<nat>)
    requires client != null ==> Ready(client.config, env)
    modifies client
    ensures client == null ==> result == ErrConnection
    ensures client != null ==> var o := RunCommand(old(client.State()), client.config, PING_COMMAND, env);
      result == o.result && delays == o.delays && client.State() == o.after
  {
    if client == null {
      return ErrConnection, [];
    }
    var response;
    result, delays, response := RunCommandOn(client, PING_COMMAND, env);
  }
}
