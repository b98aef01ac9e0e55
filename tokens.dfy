/** Token records built in an arena, and the checks around them. A token's
    strings and its authority list live in arena memory: creation validates
    its arguments, then takes one arena allocation per piece (the record,
    each present string, the pointer array, each authority) and copies the
    strings in with the bounded copy. A failed allocation abandons the token;
    the pieces already taken stay in the arena. The bytes of the copies are
    held in arrays of their own here; the arena tracks only sizes. */
module Tokens {
  import opened CTypes
  import opened ArenaAllocator

  const MAX_ID_LENGTH: nat := 256
  const MAX_NAME_LENGTH: nat := 256
  const MAX_AUTHORITIES: nat := 100
  const MAX_AUTHORITY_LENGTH: nat := 128
  /** `sizeof(token_data_t)`: nine 8-byte members on an LP64 target. */
  const TOKEN_DATA_SIZE: nat := 72
  /** `sizeof(char *)`. */
  const POINTER_SIZE: nat := 8

  /** The arguments of token creation (`token_metadata_t`): optional strings
      are None for NULL, and `authorities` is the caller's pointer array. */
  datatype TokenMetadata = TokenMetadata(
    id: Option<CString>,
    userId: Option<CString>,
    username: Option<CString>,
    authorities: Option<seq<Option<CString>>>,
    authCount: nat,
    deviceHash: Option<CString>,
    issuedAt: int,
    expiresAt: int,
    clientIp: Option<CString>)

  /** A created token (`token_data_t`). */
  datatype TokenData = TokenData(
    id: Option<CString>,
    userId: Option<CString>,
    username: Option<CString>,
    authorities: Option<seq<Option<CString>>>,
    authoritiesCount: nat,
    deviceHash: Option<CString>,
    issuedAt: int,
    expiresAt: int,
    clientIp: Option<CString>)

  // ---------------------------------------------------------------------
  // safe_strcpy

  /** What `safe_strcpy` leaves at the start of a destination of `destSize`
      bytes: as much of `src` as fits before a terminating NUL. */
  function StrcpyBytes(src: CString, destSize: nat): (w: string)
    requires destSize > 0
    ensures |w| == Min(|src|, destSize - 1) + 1 && w[|w| - 1] == '\0'
    ensures CStr(w) == Truncate(src, destSize)
  {
    var kept: CString := Truncate(src, destSize);
    CStrAtNul(kept + ['\0'], |kept|);
    assert (kept + ['\0'])[..|kept|] == kept;
    CStrOfCString(kept);
    kept + ['\0']
  }

  /** With a destination of `strlen + 1` bytes the copy is exact. */
  lemma ExactCopy(src: CString)
    ensures StrcpyBytes(src, |src| + 1) == src + ['\0']
    ensures CStr(StrcpyBytes(src, |src| + 1)) == src
  {
  }

  /** The copy loop shared by `strncpy` and `strcpy`: the first n characters. */
  method CopyChars(dest: array<char>, s: CString, n: nat)
    requires n <= |s| && n < dest.Length
    modifies dest
    ensures dest[..n] == s[..n] && dest[n..] == old(dest[n..])
  {
    var i := 0;
    while i < n
      invariant i <= n
      invariant dest[..i] == s[..i] && dest[i..] == old(dest[i..])
    {
      dest[i] := s[i];
      assert dest[..i + 1] == dest[..i] + [s[i]];
      i := i + 1;
    }
  }

  /** `safe_strcpy`: nothing is written and 0 returned for a NULL pointer or
      a zero size; a source that does not fit is truncated, terminated and 0
      returned; otherwise it is copied with its NUL and 1 returned. Bytes
      past the written ones are untouched. */
  method SafeStrcpy(dest: array?<char>, src: Option<CString>, destSize: nat) returns (ok: bool)
    requires dest != null ==> destSize <= dest.Length
    modifies dest
    ensures dest == null || src.None? || destSize == 0 ==> !ok
    ensures dest != null && (src.None? || destSize == 0) ==> dest[..] == old(dest[..])
    ensures dest != null && src.Some? && destSize > 0 ==>
      var w := StrcpyBytes(src.value, destSize);
      ok == (|src.value| < destSize) && dest[..|w|] == w && dest[|w|..] == old(dest[|w|..])
  {
    if dest == null || src.None? || destSize == 0 {
      return false;
    }
    var s := src.value;
    if |s| >= destSize {
      CopyChars(dest, s, destSize - 1);
      ghost var copied := dest[..];
      dest[destSize - 1] := '\0';
      assert dest[..destSize] == dest[..destSize - 1] + ['\0'];
      assert dest[destSize..] == copied[destSize..] == old(dest[..])[destSize..];
      return false;
    }
    CopyChars(dest, s, |s|);
    ghost var copied := dest[..];
    dest[|s|] := '\0';
    assert dest[..|s| + 1] == dest[..|s|] + ['\0'];
    assert s[..|s|] == s;
    assert dest[|s| + 1..] == copied[|s| + 1..] == old(dest[..])[|s| + 1..];
    return true;
  }

  /** A string field copied into a buffer of `strlen + 1` bytes and read
      back as a C string: the same string. */
  method CopyString(src: CString) returns (copy: CString)
    ensures copy == src
  {
    var buffer := new char[|src| + 1];
    var ok := SafeStrcpy(buffer, Some(src), |src| + 1);
    ExactCopy(src);
    assert buffer[..] == buffer[..|src| + 1];
    copy := CStr(buffer[..]);
  }

  // ---------------------------------------------------------------------
  // Validators

  predicate WithinLength(s: Option<CString>, n: nat) {
    s.None? || |s.value| <= n
  }

  /** `validate_token_params`, one check after the other. */
  function ValidateTokenParams(id: Option<CString>, userId: Option<CString>, username: Option<CString>): (ok: bool)
    ensures ok <==> (id.Some? && 0 < |id.value| <= MAX_ID_LENGTH &&
                     WithinLength(userId, MAX_NAME_LENGTH) && WithinLength(username, MAX_NAME_LENGTH))
  {
    if id.None? || |id.value| == 0 then false
    else if |id.value| > MAX_ID_LENGTH then false
    else if userId.Some? && |userId.value| > MAX_NAME_LENGTH then false
    else if username.Some? && |username.value| > MAX_NAME_LENGTH then false
    else true
  }

  /** `validate_timestamps`, with the clock reading as a parameter. An issue
      time in the future only draws a warning. */
  function ValidateTimestamps(issuedAt: int, expiresAt: int, checkExpiration: bool, now: int): (ok: bool)
    ensures ok <==> 0 < issuedAt < expiresAt && (checkExpiration ==> now <= expiresAt)
  {
    if issuedAt <= 0 then false
    else if expiresAt <= 0 then false
    else if expiresAt <= issuedAt then false
    else if checkExpiration && expiresAt < now then false
    else true
  }

  /** An issue time in the future does not make a token invalid. */
  lemma FutureIssueAccepted(issuedAt: int, expiresAt: int, now: int)
    requires now < issuedAt && 0 < issuedAt < expiresAt
    ensures ValidateTimestamps(issuedAt, expiresAt, true, now)
  {
  }

  /** One authority string that creation accepts. */
  predicate AuthorityAcceptable(a: Option<CString>) {
    a.Some? && 0 < |a.value| <= MAX_AUTHORITY_LENGTH
  }

  /** The authority loop of `token_data_create_ex`: the first bad entry stops it. */
  method ValidateAuthorities(auths: seq<Option<CString>>, count: nat) returns (ok: bool)
    requires count <= |auths|
    ensures ok <==> forall i :: 0 <= i < count ==> AuthorityAcceptable(auths[i])
  {
    var i := 0;
    while i < count
      invariant i <= count
      invariant forall j :: 0 <= j < i ==> AuthorityAcceptable(auths[j])
    {
      if auths[i].None? || |auths[i].value| == 0 {
        return false;
      }
      if |auths[i].value| > MAX_AUTHORITY_LENGTH {
        return false;
      }
      i := i + 1;
    }
    return true;
  }

  /** The caller's pointer array holds `auth_count` entries when it is not NULL. */
  predicate Readable(m: TokenMetadata) {
    m.authorities.Some? ==> m.authCount <= |m.authorities.value|
  }

  /** Every argument check of `token_data_create_ex` passes. */
  predicate Accepted(arenaPresent: bool, m: TokenMetadata, checkExpiration: bool, now: int)
    requires Readable(m)
  {
    arenaPresent &&
    ValidateTokenParams(m.id, m.userId, m.username) &&
    ValidateTimestamps(m.issuedAt, m.expiresAt, checkExpiration, now) &&
    !(m.authCount > 0 && m.authorities.None?) &&
    m.authCount <= MAX_AUTHORITIES &&
    (m.authCount > 0 ==> forall i :: 0 <= i < m.authCount ==> AuthorityAcceptable(m.authorities.value[i]))
  }

  // ---------------------------------------------------------------------
  // The allocations of one creation

  function StringSize(s: Option<CString>): seq<nat> {
    if s.Some? then [|s.value| + 1] else []
  }

  function AuthoritySize(a: Option<CString>): nat {
    if a.Some? then |a.value| + 1 else 0
  }

  /** The sizes of the authority copies, in order. */
  function AuthoritySizes(auths: seq<Option<CString>>): (r: seq<nat>)
    ensures |r| == |auths| && forall i :: 0 <= i < |auths| ==> r[i] == AuthoritySize(auths[i])
  {
    seq(|auths|, i requires 0 <= i < |auths| => AuthoritySize(auths[i]))
  }

  /** The record, the id and each present optional string, in source order. */
  function FieldSizes(m: TokenMetadata): seq<nat>
    requires m.id.Some?
  {
    [TOKEN_DATA_SIZE, |m.id.value| + 1] + StringSize(m.userId) + StringSize(m.username) +
    StringSize(m.deviceHash) + StringSize(m.clientIp)
  }

  /** The pointer array and each authority, when there are authorities. */
  function AuthorityRequests(m: TokenMetadata): seq<nat>
    requires Readable(m)
  {
    if m.authCount > 0 && m.authorities.Some? then
      [POINTER_SIZE * m.authCount] + AuthoritySizes(m.authorities.value[..m.authCount])
    else []
  }

  /** Every allocation request of a creation that runs to the end, in order. */
  function CreateSizes(m: TokenMetadata): seq<nat>
    requires m.id.Some? && Readable(m)
  {
    FieldSizes(m) + AuthorityRequests(m)
  }

  datatype AllocRun = AllocRun(ok: bool, after: ArenaState)

  /** A run of `arena_alloc` calls, in order, that stops at the first NULL:
      whether all succeeded, and the bookkeeping afterwards. */
  function AllocAll(s: ArenaState, sizes: seq<nat>, pageSize: nat, now: int, mapped: bool): AllocRun
    requires pageSize > 0
    decreases |sizes|
  {
    if sizes == [] then AllocRun(true, s)
    else
      var out := AllocStep(s, sizes[0], pageSize, now, mapped);
      if out.ptr.None? then AllocRun(false, out.after)
      else AllocAll(out.after, sizes[1..], pageSize, now, mapped)
  }

  /** A run keeps the arena's bookkeeping consistent, whether or not it
      completes. */
  lemma {:induction false} AllocAllValid(s: ArenaState, sizes: seq<nat>, pageSize: nat, now: int, mapped: bool)
    requires pageSize > 0 && ValidState(s)
    ensures ValidState(AllocAll(s, sizes, pageSize, now, mapped).after)
    decreases |sizes|
  {
    if sizes != [] {
      var out := AllocStep(s, sizes[0], pageSize, now, mapped);
      AllocPreservesValid(s, sizes[0], pageSize, now, mapped);
      if out.ptr.Some? {
        AllocAllValid(out.after, sizes[1..], pageSize, now, mapped);
      }
    }
  }

  /** The bytes a completed run hands out: each request rounded up to 8. */
  function AlignedTotal(sizes: seq<nat>): nat {
    if sizes == [] then 0 else AlignSize(sizes[0]) + AlignedTotal(sizes[1..])
  }

  /** A failed run leaves the arena as the last successful allocation left
      it; a completed run adds exactly the aligned sizes to `total_used`;
      with mappings available a run completes exactly when every request is
      between 1 byte and 1 MiB. */
  lemma {:induction false} AllocAllAccounting(s: ArenaState, sizes: seq<nat>, pageSize: nat, now: int, mapped: bool)
    requires pageSize > 0
    ensures var run := AllocAll(s, sizes, pageSize, now, mapped);
      (run.ok ==> run.after.totalUsed == s.totalUsed + AlignedTotal(sizes)) &&
      (mapped ==> (run.ok <==> forall i :: 0 <= i < |sizes| ==> 0 < sizes[i] <= MAX_ALLOC_SIZE))
    decreases |sizes|
  {
    if sizes != [] {
      var out := AllocStep(s, sizes[0], pageSize, now, mapped);
      AllocAccounting(s, sizes[0], pageSize, now, mapped);
      if out.ptr.Some? {
        AllocAllAccounting(out.after, sizes[1..], pageSize, now, mapped);
        if mapped {
          assert forall i :: 1 <= i < |sizes| ==> sizes[i] == sizes[1..][i - 1];
        }
      }
    }
  }

  /** A request above 1 MiB anywhere in a run makes the run fail. */
  lemma {:induction false} AllocAllFailsAt(s: ArenaState, sizes: seq<nat>, k: nat, pageSize: nat, now: int, mapped: bool)
    requires pageSize > 0 && k < |sizes| && sizes[k] > MAX_ALLOC_SIZE
    ensures !AllocAll(s, sizes, pageSize, now, mapped).ok
    decreases k
  {
    var out := AllocStep(s, sizes[0], pageSize, now, mapped);
    if k > 0 && out.ptr.Some? {
      AllocAllFailsAt(out.after, sizes[1..], k - 1, pageSize, now, mapped);
    }
  }

  /** One `arena_alloc` of a planned run, followed by the plan's `rest`. */
  method AllocNext(arena: Arena, size: nat, pageSize: nat, now: int, mapped: bool, ghost rest: seq<nat>)
    returns (ok: bool)
    requires pageSize > 0
    modifies arena
    ensures AllocAll(old(arena.State()), [size] + rest, pageSize, now, mapped) ==
      if ok then AllocAll(arena.State(), rest, pageSize, now, mapped) else AllocRun(false, arena.State())
  {
    var p := Alloc(arena, size, pageSize, now, mapped);
    ok := p.Some?;
    assert ([size] + rest)[1..] == rest;
  }

  /** The allocation of an optional string: none for NULL. */
  method AllocOptional(arena: Arena, s: Option<CString>, pageSize: nat, now: int, mapped: bool, ghost rest: seq<nat>)
    returns (ok: bool)
    requires pageSize > 0
    modifies arena
    ensures AllocAll(old(arena.State()), StringSize(s) + rest, pageSize, now, mapped) ==
      if ok then AllocAll(arena.State(), rest, pageSize, now, mapped) else AllocRun(false, arena.State())
  {
    if s.None? {
      assert StringSize(s) + rest == rest;
      return true;
    }
    ok := AllocNext(arena, |s.value| + 1, pageSize, now, mapped, rest);
  }

  // ---------------------------------------------------------------------
  // token_data_create_ex

  /** The token a successful creation returns: every string copied exactly,
      the authorities array present exactly when the count is positive. */
  function Created(m: TokenMetadata): (t: TokenData)
    requires Readable(m)
    ensures t.authoritiesCount == m.authCount
  {
    TokenData(m.id, m.userId, m.username,
              if m.authCount > 0 && m.authorities.Some? then Some(m.authorities.value[..m.authCount]) else None,
              m.authCount, m.deviceHash, m.issuedAt, m.expiresAt, m.clientIp)
  }

  /** The allocations of the record, the id and each present string, in
      source order; `tail` is the rest of the plan. */
  method AllocFields(arena: Arena, m: TokenMetadata, pageSize: nat, now: int, mapped: bool, ghost tail: seq<nat>)
    returns (ok: bool)
    requires pageSize > 0 && m.id.Some?
    modifies arena
    ensures AllocAll(old(arena.State()), FieldSizes(m) + tail, pageSize, now, mapped) ==
      if ok then AllocAll(arena.State(), tail, pageSize, now, mapped) else AllocRun(false, arena.State())
  {
    ghost var afterDevice := StringSize(m.clientIp) + tail;
    ghost var afterName := StringSize(m.deviceHash) + afterDevice;
    ghost var afterUser := StringSize(m.username) + afterName;
    ghost var afterId := StringSize(m.userId) + afterUser;
    assert FieldSizes(m) + tail == [TOKEN_DATA_SIZE] + ([|m.id.value| + 1] + afterId);
    ok := AllocNext(arena, TOKEN_DATA_SIZE, pageSize, now, mapped, [|m.id.value| + 1] + afterId);
    if !ok {
      return;
    }
    ok := AllocNext(arena, |m.id.value| + 1, pageSize, now, mapped, afterId);
    if !ok {
      return;
    }
    ok := AllocOptional(arena, m.userId, pageSize, now, mapped, afterUser);
    if !ok {
      return;
    }
    ok := AllocOptional(arena, m.username, pageSize, now, mapped, afterName);
    if !ok {
      return;
    }
    ok := AllocOptional(arena, m.deviceHash, pageSize, now, mapped, afterDevice);
    if !ok {
      return;
    }
    ok := AllocOptional(arena, m.clientIp, pageSize, now, mapped, tail);
  }

  /** The copy of an optional string: NULL stays NULL. */
  method CopyOptional(s: Option<CString>) returns (copy: Option<CString>)
    ensures copy == s
  {
    if s.None? {
      return None;
    }
    var c := CopyString(s.value);
    return Some(c);
  }

  /** The allocation of the pointer array, then the authority copies. */
  method AllocAuthorities(arena: Arena, m: TokenMetadata, pageSize: nat, now: int, mapped: bool)
    returns (ok: bool, copies: seq<Option<CString>>)
    requires pageSize > 0 && Readable(m)
    requires m.authCount > 0 && m.authorities.Some?
    requires forall i :: 0 <= i < m.authCount ==> m.authorities.value[i].Some?
    modifies arena
    ensures AllocAll(old(arena.State()), AuthorityRequests(m), pageSize, now, mapped) == AllocRun(ok, arena.State())
    ensures ok ==> copies == m.authorities.value[..m.authCount]
  {
    var auths := m.authorities.value;
    copies := [];
    ok := AllocNext(arena, POINTER_SIZE * m.authCount, pageSize, now, mapped, AuthoritySizes(auths[..m.authCount]));
    if !ok {
      return;
    }
    ok, copies := AllocAuthorityCopies(arena, auths[..m.authCount], pageSize, now, mapped);
  }

  /** Splitting off the first authority's size. */
  lemma AuthoritySizesFrom(auths: seq<Option<CString>>, i: nat)
    requires i < |auths|
    ensures AuthoritySizes(auths[i..]) == [AuthoritySize(auths[i])] + AuthoritySizes(auths[i + 1..])
  {
  }

  /** The loop over the authorities: each is allocated, then copied in. */
  method AllocAuthorityCopies(arena: Arena, auths: seq<Option<CString>>, pageSize: nat, now: int, mapped: bool)
    returns (ok: bool, copies: seq<Option<CString>>)
    requires pageSize > 0
    requires forall i :: 0 <= i < |auths| ==> auths[i].Some?
    modifies arena
    ensures AllocAll(old(arena.State()), AuthoritySizes(auths), pageSize, now, mapped) == AllocRun(ok, arena.State())
    ensures ok ==> copies == auths
  {
    ghost var s0 := arena.State();
    copies := [];
    var i := 0;
    assert auths[0..] == auths;
    while i < |auths|
      invariant i <= |auths|
      invariant AllocAll(s0, AuthoritySizes(auths), pageSize, now, mapped) ==
        AllocAll(arena.State(), AuthoritySizes(auths[i..]), pageSize, now, mapped)
      invariant copies == auths[..i]
    {
      AuthoritySizesFrom(auths, i);
      ok := AllocNext(arena, |auths[i].value| + 1, pageSize, now, mapped, AuthoritySizes(auths[i + 1..]));
      if !ok {
        return;
      }
      var copy := CopyString(auths[i].value);
      copies := copies + [Some(copy)];
      assert auths[..i + 1] == auths[..i] + [auths[i]];
      i := i + 1;
    }
    assert AuthoritySizes(auths[i..]) == [];
    ok := true;
  }

  /** `token_data_create_ex`, with the clock reading `now` serving both the
      expiry check and new chunks, and `mapped` saying whether chunk
      mappings succeed during this call. */
  method TokenDataCreateEx(arena: Arena?, m: TokenMetadata, checkExpiration: bool, now: int,
                           pageSize: nat, mapped: bool) returns (token: Option<TokenData>)
    requires pageSize > 0 && Readable(m)
    modifies arena
    ensures !Accepted(arena != null, m, checkExpiration, now) ==>
      token.None? && (arena != null ==> arena.State() == old(arena.State()))
    ensures Accepted(arena != null, m, checkExpiration, now) ==>
      var run := AllocAll(old(arena.State()), CreateSizes(m), pageSize, now, mapped);
      arena.State() == run.after && (token.Some? <==> run.ok)
    ensures token.Some? ==> Accepted(arena != null, m, checkExpiration, now) && token.value == Created(m)
  {
    if arena == null {
      return None;
    }
    if !ValidateTokenParams(m.id, m.userId, m.username) {
      return None;
    }
    if !ValidateTimestamps(m.issuedAt, m.expiresAt, checkExpiration, now) {
      return None;
    }
    if m.authCount > 0 && m.authorities.None? {
      return None;
    }
    if m.authCount > MAX_AUTHORITIES {
      return None;
    }
    if m.authCount > 0 {
      var authOk := ValidateAuthorities(m.authorities.value, m.authCount);
      if !authOk {
        return None;
      }
    }
    var ok := AllocFields(arena, m, pageSize, now, mapped, AuthorityRequests(m));
    if !ok {
      return None;
    }
    var id := CopyString(m.id.value);
    var userId := CopyOptional(m.userId);
    var username := CopyOptional(m.username);
    var deviceHash := CopyOptional(m.deviceHash);
    var clientIp := CopyOptional(m.clientIp);
    var authorities: Option<seq<Option<CString>>> := None;
    var count := 0;
    if m.authCount > 0 && m.authorities.Some? {
      var copies;
      ok, copies := AllocAuthorities(arena, m, pageSize, now, mapped);
      if !ok {
        return None;
      }
      authorities := Some(copies);
      count := m.authCount;
    }
    token := Some(TokenData(Some(id), userId, username, authorities, count, deviceHash,
                            m.issuedAt, m.expiresAt, clientIp));
  }

  // ---------------------------------------------------------------------
  // token_validate and token_has_authority

  /** The authority pointers the checks read exist. */
  predicate Indexable(t: TokenData) {
    t.authorities.Some? ==> t.authoritiesCount <= |t.authorities.value|
  }

  /** What `token_validate` accepts: a non-empty id, `0 < issued_at <
      expires_at`, not expired at `now`, an authorities array present exactly
      when the count is positive, and every counted authority non-empty. */
  predicate TokenValid(token: Option<TokenData>, now: int)
    requires token.Some? ==> Indexable(token.value)
  {
    token.Some? &&
    var t := token.value;
    t.id.Some? && |t.id.value| > 0 &&
    0 < t.issuedAt < t.expiresAt && now <= t.expiresAt &&
    (t.authorities.None? <==> t.authoritiesCount == 0) &&
    forall i :: 0 <= i < t.authoritiesCount ==> t.authorities.value[i].Some? && |t.authorities.value[i].value| > 0
  }

  /** `token_validate`, with the clock reading as a parameter. */
  method TokenValidate(token: Option<TokenData>, now: int) returns (ok: bool)
    requires token.Some? ==> Indexable(token.value)
    ensures ok == TokenValid(token, now)
  {
    if token.None? {
      return false;
    }
    var t := token.value;
    if t.id.None? || |t.id.value| == 0 {
      return false;
    }
    if t.issuedAt <= 0 || t.expiresAt <= 0 || t.expiresAt <= t.issuedAt {
      return false;
    }
    if t.expiresAt < now {
      return false;
    }
    if t.authorities.None? != (t.authoritiesCount == 0) {
      return false;
    }
    var i := 0;
    while i < t.authoritiesCount
      invariant i <= t.authoritiesCount
      invariant forall j :: 0 <= j < i ==> t.authorities.value[j].Some? && |t.authorities.value[j].value| > 0
    {
      if t.authorities.value[i].None? || |t.authorities.value[i].value| == 0 {
        return false;
      }
      i := i + 1;
    }
    return true;
  }

  /** The loop of `token_has_authority` reads the array up to the count. */
  predicate Traversable(t: TokenData) {
    Indexable(t) && (t.authorities.None? ==> t.authoritiesCount == 0)
  }

  /** Some counted authority of the token equals the query; false for NULL. */
  predicate HasAuthority(token: Option<TokenData>, authority: Option<CString>)
    requires token.Some? ==> Traversable(token.value)
  {
    token.Some? && authority.Some? &&
    exists i :: 0 <= i < token.value.authoritiesCount && token.value.authorities.value[i] == Some(authority.value)
  }

  /** `token_has_authority`: a linear search with `strcmp`. */
  method TokenHasAuthority(token: Option<TokenData>, authority: Option<CString>) returns (found: bool)
    requires token.Some? ==> Traversable(token.value)
    ensures found == HasAuthority(token, authority)
  {
    if token.None? || authority.None? {
      return false;
    }
    var t := token.value;
    var i := 0;
    while i < t.authoritiesCount
      invariant i <= t.authoritiesCount
      invariant forall j :: 0 <= j < i ==> t.authorities.value[j] != Some(authority.value)
    {
      if t.authorities.value[i].Some? && t.authorities.value[i].value == authority.value {
        return true;
      }
      i := i + 1;
    }
    return false;
  }

  // ---------------------------------------------------------------------
  // Creation against the checks

  /** A created token passes `token_validate` exactly until it expires. */
  lemma CreatedTokenValid(m: TokenMetadata, checkExpiration: bool, now: int, later: int)
    requires Readable(m) && Accepted(true, m, checkExpiration, now)
    ensures Traversable(Created(m))
    ensures TokenValid(Some(Created(m)), later) <==> later <= m.expiresAt
  {
  }

  /** A created token holds exactly the authorities it was given. */
  lemma CreatedTokenAuthorities(m: TokenMetadata, checkExpiration: bool, now: int, authority: CString)
    requires Readable(m) && Accepted(true, m, checkExpiration, now)
    ensures HasAuthority(Some(Created(m)), Some(authority)) <==>
      exists i :: 0 <= i < m.authCount && m.authorities.value[i] == Some(authority)
  {
    if HasAuthority(Some(Created(m)), Some(authority)) {
      var i :| 0 <= i < m.authCount && Created(m).authorities.value[i] == Some(authority);
      assert m.authorities.value[i] == Some(authority);
    }
  }

  /** The rejections exercised by the creation error tests: a NULL arena, a
      NULL or empty id, expiry before issue, 150 authorities, a NULL array
      with a count of 5, an expired token under the check, and a 299-byte id. */
  lemma CreationErrorCases(now: int, longId: CString)
    requires now > 7200 && |longId| == 299
    ensures var good := TokenMetadata(Some("id"), Some("user"), Some("name"), None, 0, None, now, now + 3600, None);
      !Accepted(false, good, false, now) &&
      !Accepted(true, good.(id := None), false, now) &&
      !Accepted(true, good.(id := Some("")), false, now) &&
      !Accepted(true, good.(issuedAt := now + 100, expiresAt := now), false, now) &&
      !Accepted(true, good.(authorities := Some(seq(150, _ => Some("ROLE"))), authCount := 150), false, now) &&
      !Accepted(true, good.(authCount := 5), false, now) &&
      !Accepted(true, good.(issuedAt := now - 7200, expiresAt := now - 3600), true, now) &&
      !Accepted(true, good.(id := Some(longId)), false, now) &&
      Accepted(true, good, false, now)
  {
  }

  /** The device hash and client address have no length limit, but a copy
      of 1 MiB or more exceeds the largest arena allocation: creation fails. */
  lemma LongDeviceHashFails(s: ArenaState, m: TokenMetadata, pageSize: nat, now: int, mapped: bool)
    requires pageSize > 0 && m.id.Some? && Readable(m)
    requires m.deviceHash.Some? && |m.deviceHash.value| >= MAX_ALLOC_SIZE
    ensures !AllocAll(s, CreateSizes(m), pageSize, now, mapped).ok
  {
    var sizes := CreateSizes(m);
    var k := 2 + |StringSize(m.userId)| + |StringSize(m.username)|;
    assert sizes[k] == |m.deviceHash.value| + 1;
    AllocAllFailsAt(s, sizes, k, pageSize, now, mapped);
  }
}
