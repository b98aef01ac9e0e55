/** The server's per-connection command handler: one `recv` of at most 1023
    bytes into a 1024-byte buffer, removal of one trailing line feed and then
    one trailing carriage return, a chain of `strncmp` tests that picks a
    fixed reply, one `send` of that reply, and `close`. The replies are fixed
    texts; no command reads or changes the storage. */
module Dispatcher {
  import opened CTypes

  const BUFFER_SIZE: nat := 1024
  const RECV_LIMIT: nat := BUFFER_SIZE - 1

  const PONG: string := "PONG\r\n"
  const OK: string := "OK\r\n"
  const VALUE_STUB: string := "VALUE example_value\r\n"
  const EXISTS_STUB: string := "1\r\n"
  const STATS_STUB: string := "STATS: 0 keys, 0 clients, 0s uptime\r\n"
  const UNKNOWN: string := "ERROR Unknown command\r\n"

  /** What the single `recv` call returns: an error (-1), or the bytes the
      peer has sent (none when it closed the connection). */
  datatype RecvOutcome = RecvError | Received(data: string)

  /** The observable effects of handling one connection, in order. */
  datatype Event = Send(bytes: string) | Close

  // ---------------------------------------------------------------------
  // strncmp on C strings

  /** The byte at position i of a C string, reading the terminator (and,
      past it, nothing else matters) as NUL. */
  function CharAt(s: CString, i: nat): char {
    if i < |s| then s[i] else '\0'
  }

  /** `strncmp(s, t, n) == 0`: the first n bytes agree, stopping early at a
      terminator both strings share. */
  function StrnEqual(s: CString, t: CString, n: nat): bool
    decreases n
  {
    n == 0 ||
    (CharAt(s, 0) == CharAt(t, 0) &&
     (CharAt(s, 0) == '\0' || StrnEqual(s[1..], t[1..], n - 1)))
  }

  /** Comparing one byte past the literal (its terminator) is an exact match. */
  lemma {:induction false} StrnEqualExact(s: CString, t: CString)
    ensures StrnEqual(s, t, |t| + 1) <==> s == t
    decreases |t|
  {
    if |t| > 0 && |s| > 0 && s[0] == t[0] {
      StrnEqualExact(s[1..], t[1..]);
      assert s == [s[0]] + s[1..] && t == [t[0]] + t[1..];
    }
  }

  /** Comparing exactly the literal's length is a prefix test. */
  lemma {:induction false} StrnEqualPrefix(s: CString, t: CString)
    ensures StrnEqual(s, t, |t|) <==> t <= s
    decreases |t|
  {
    if |t| > 0 && |s| > 0 && s[0] == t[0] {
      StrnEqualPrefix(s[1..], t[1..]);
      assert t[1..] <= s[1..] <==> t <= s;
    }
  }

  // ---------------------------------------------------------------------
  // The reply chain

  /** The `strncmp` chain, first match wins. "PING" and "STATS" are compared
      including their terminator; the others only over their own length.
      Every reply is one of the six fixed texts, each a single CRLF-terminated line. */
  function Reply(command: CString): (r: string)
    ensures r in {PONG, OK, VALUE_STUB, EXISTS_STUB, STATS_STUB, UNKNOWN}
    ensures |r| >= 2 && r[|r| - 2..] == "\r\n"
  {
    if StrnEqual(command, "PING", 5) then PONG
    else if StrnEqual(command, "FLUSH", 5) then OK
    else if StrnEqual(command, "SET ", 4) then OK
    else if StrnEqual(command, "GET ", 4) then VALUE_STUB
    else if StrnEqual(command, "DELETE ", 7) then OK
    else if StrnEqual(command, "EXISTS ", 7) then EXISTS_STUB
    else if StrnEqual(command, "STATS", 6) then STATS_STUB
    else UNKNOWN
  }

  /** The same chain stated with equality and prefixes: "PING" and "STATS" only
      as the whole command, "FLUSH" as any prefix (so "FLUSHALL" is a flush),
      and "SET ", "GET ", "DELETE ", "EXISTS " as prefixes. */
  lemma ReplyByPrefix(command: CString)
    ensures Reply(command) ==
      if command == "PING" then PONG
      else if "FLUSH" <= command then OK
      else if "SET " <= command then OK
      else if "GET " <= command then VALUE_STUB
      else if "DELETE " <= command then OK
      else if "EXISTS " <= command then EXISTS_STUB
      else if command == "STATS" then STATS_STUB
      else UNKNOWN
  {
    StrnEqualExact(command, "PING");
    StrnEqualPrefix(command, "FLUSH");
    StrnEqualPrefix(command, "SET ");
    StrnEqualPrefix(command, "GET ");
    StrnEqualPrefix(command, "DELETE ");
    StrnEqualPrefix(command, "EXISTS ");
    StrnEqualExact(command, "STATS");
  }

  // ---------------------------------------------------------------------
  // Line-end trimming

  /** The received bytes after the trim: one trailing '\n' removed if present,
      then one trailing '\r' if present. */
  function TrimLineEnd(data: string): (t: string)
    ensures t <= data && |data| - 2 <= |t|
  {
    var d := if |data| > 0 && data[|data| - 1] == '\n' then data[..|data| - 1] else data;
    if |d| > 0 && d[|d| - 1] == '\r' then d[..|d| - 1] else d
  }

  /** The command the chain sees: the trimmed bytes up to the first NUL. */
  function CommandOf(data: string): CString {
    CStr(TrimLineEnd(data))
  }

  /** The effects of one connection, given what `recv` returned. */
  function HandlerEffects(outcome: RecvOutcome): (events: seq<Event>)
    ensures |events| >= 1 && events[|events| - 1] == Close
    ensures |events| <= 2 && (|events| == 2 <==> outcome.Received? && outcome.data != [])
  {
    match outcome
    case RecvError => [Close]
    case Received(data) =>
      if data == [] then [Close]
      else [Send(Reply(CommandOf(data[..Min(|data|, RECV_LIMIT)]))), Close]
  }

  /** CRLF, LF, CR or no terminator at all: the same command. */
  lemma LineEndsAccepted(cmd: CString)
    requires cmd == [] || (cmd[|cmd| - 1] != '\r' && cmd[|cmd| - 1] != '\n')
    ensures CommandOf(cmd + "\r\n") == CommandOf(cmd + "\n") == CommandOf(cmd + "\r") == CommandOf(cmd) == cmd
  {
    TrimmedLineEnds(cmd);
    CStrOfCString(cmd);
  }

  /** The trim removes exactly the line end appended to a command. */
  lemma TrimmedLineEnds(cmd: CString)
    requires cmd == [] || (cmd[|cmd| - 1] != '\r' && cmd[|cmd| - 1] != '\n')
    ensures TrimLineEnd(cmd + "\r\n") == cmd && TrimLineEnd(cmd + "\n") == cmd
    ensures TrimLineEnd(cmd + "\r") == cmd && TrimLineEnd(cmd) == cmd
  {
    assert (cmd + "\r\n")[..|cmd| + 1] == cmd + "\r";
    assert (cmd + "\r")[..|cmd|] == cmd;
    assert (cmd + "\n")[..|cmd|] == cmd;
  }

  /** Only one line end is removed: "PING\n\n" is not a ping. */
  lemma DoubleLineFeedUnknown()
    ensures CommandOf("PING\n\n") == "PING\n"
    ensures Reply(CommandOf("PING\n\n")) == UNKNOWN
  {
    assert "PING\n\n"[..5] == "PING\n";
    CStrOfCString("PING\n");
    ReplyByPrefix("PING\n");
  }

  /** Bytes after an embedded NUL are invisible to the chain. */
  lemma EmbeddedNulIgnored(cmd: CString, rest: string)
    ensures CStr(cmd + ['\0'] + rest) == cmd
  {
    CStrAtNul(cmd + ['\0'] + rest, |cmd|);
    assert (cmd + ['\0'] + rest)[..|cmd|] == cmd;
    CStrOfCString(cmd);
  }

  // ---------------------------------------------------------------------
  // The handler

  /** The trim of `handle_client_connection`, in place: the removed line-end
      bytes are overwritten with NUL. Returns the trimmed length. */
  method TrimInPlace(buffer: array<char>, bytesRead: nat) returns (len: nat)
    requires 0 < bytesRead < buffer.Length && buffer[bytesRead] == '\0'
    modifies buffer
    ensures len <= bytesRead && buffer[len] == '\0'
    ensures buffer[..len] == TrimLineEnd(old(buffer[..bytesRead]))
  {
    ghost var received := buffer[..bytesRead];
    var n := bytesRead;
    len := n;
    if buffer[n - 1] == '\n' {
      buffer[n - 1] := '\0';
      n := n - 1;
      len := n;
    }
    assert buffer[..len] == if len < |received| then received[..len] else received;
    if n > 0 && buffer[n - 1] == '\r' {
      buffer[n - 1] := '\0';
      len := n - 1;
    }
  }

  /** `handle_client_connection`: the buffer is filled and trimmed in place,
      and at most one reply is sent before the socket is closed. */
  method HandleClientConnection(outcome: RecvOutcome) returns (events: seq<Event>)
    ensures events == HandlerEffects(outcome)
  {
    var buffer := new char[BUFFER_SIZE];
    var bytesRead := 0;
    if outcome.Received? {
      bytesRead := Min(|outcome.data|, RECV_LIMIT);
      forall i | 0 <= i < bytesRead {
        buffer[i] := outcome.data[i];
      }
    }
    if bytesRead > 0 {
      assert buffer[..bytesRead] == outcome.data[..bytesRead];
      buffer[bytesRead] := '\0';
      var len := TrimInPlace(buffer, bytesRead);
      CStrAtNul(buffer[..], len);
      assert buffer[..][..len] == buffer[..len];
      var command := CStr(buffer[..]);
      events := [Send(Reply(command)), Close];
    } else {
      events := [Close];
    }
  }
}
