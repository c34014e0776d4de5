/**
 * pkg/github/github.go: the decisions the GitHub client makes on what comes
 * back from GitHub, with the HTTP calls themselves left out: the status
 * codes it accepts, the GraphQL error rule of GetProjectNodeId, the PEM block
 * check, the JWT claim window and the token extraction from the installation
 * token response.
 */
module GitHub {
  import opened Common
  import opened Strings

  // ---------------------------------------------------------------- status codes

  const StatusOK: int := 200
  const StatusCreated: int := 201

  /** The status each call accepts; any other status is an error. */
  datatype Call = CreateIssue | AddLabels | ExchangeToken

  function ExpectedStatus(call: Call): int {
    match call
    case CreateIssue => StatusCreated
    case AddLabels => StatusOK
    case ExchangeToken => StatusCreated
  }

  /** The error a response with `status` gives `call`, if any. */
  function CheckStatus(call: Call, status: int): (r: Option<string>)
    ensures r == None <==> status == ExpectedStatus(call)
    ensures call == CreateIssue ==> (r == None <==> status == 201)
    ensures call == AddLabels ==> (r == None <==> status == 200)
    ensures call == ExchangeToken ==> (r == None <==> status == 201)
  {
    if status == ExpectedStatus(call) then None
    else match call
      case ExchangeToken => Some("failed to generate installation token, status: " + Itoa(status))
      case _ => Some("Error creating issue. Status code: " + Itoa(status))
  }

  // ---------------------------------------------------------------- GetProjectNodeId

  /** The decoded GraphQL response: the messages of `errors`, and `data.organization.projectV2.id`. */
  datatype ProjectResponse = ProjectResponse(errors: seq<string>, id: string)

  /** The first GraphQL error wins; then an empty id is an error; otherwise the id. */
  function ProjectNodeId(response: ProjectResponse): (r: Result<string, string>)
    ensures response.errors != [] ==> r == Err("error: " + response.errors[0])
    ensures response.errors == [] && response.id == "" ==> r.Err?
    ensures r.Ok? <==> response.errors == [] && response.id != ""
    ensures r.Ok? ==> r.value == response.id
  {
    if |response.errors| > 0 then Err("error: " + response.errors[0])
    else if response.id == "" then Err("project id is empty. Check if the project exists")
    else Ok(response.id)
  }

  // ---------------------------------------------------------------- loadPEMKey

  /** A block pem.Decode found. */
  datatype PemBlock = PemBlock(kind: string, bytes: seq<bv8>)

  /**
   * loadPEMKey after the file read: the first PEM block must exist and be of
   * type "RSA PRIVATE KEY"; its bytes then go to x509, outside this model.
   */
  function KeyBytes(block: Option<PemBlock>): (r: Result<seq<bv8>, string>)
    ensures r.Ok? <==> block.Some? && block.value.kind == "RSA PRIVATE KEY"
    ensures r.Ok? ==> r.value == block.value.bytes
  {
    if block.None? || block.value.kind != "RSA PRIVATE KEY" then Err("failed to decode PEM block containing private key")
    else Ok(block.value.bytes)
  }

  // ---------------------------------------------------------------- GenerateJWT

  datatype Claims = Claims(iat: int, exp: int, iss: int)

  const NanosPerSecond: int := 1_000_000_000

  /** time.Time.Unix: whole seconds, rounded down, of a time given in nanoseconds. */
  function UnixSeconds(nanos: int): int {
    nanos / NanosPerSecond
  }

  /** The claims of GenerateJWT, signed at `nowNanos` (time.Now, in nanoseconds since the epoch). */
  function JwtClaims(appID: int, nowNanos: int): Claims {
    Claims(UnixSeconds(nowNanos), UnixSeconds(nowNanos + 10 * 60 * NanosPerSecond), appID)
  }

  /** The token is valid for exactly ten minutes from its issue time, and is issued by the app. */
  lemma JwtWindow(appID: int, nowNanos: int)
    ensures JwtClaims(appID, nowNanos).exp - JwtClaims(appID, nowNanos).iat == 600
    ensures JwtClaims(appID, nowNanos).iss == appID
    ensures JwtClaims(appID, nowNanos).iat * NanosPerSecond <= nowNanos < (JwtClaims(appID, nowNanos).iat + 1) * NanosPerSecond
  {
    var q, r := nowNanos / NanosPerSecond, nowNanos % NanosPerSecond;
    assert nowNanos == q * NanosPerSecond + r;
    assert nowNanos + 600 * NanosPerSecond == (q + 600) * NanosPerSecond + r;
    DivUnique(nowNanos + 600 * NanosPerSecond, q + 600, r);
  }

  lemma DivUnique(n: int, q: int, r: int)
    requires 0 <= r < NanosPerSecond && n == q * NanosPerSecond + r
    ensures n / NanosPerSecond == q
  {
  }

  // ---------------------------------------------------------------- extractTokenFromBody

  const TokenKey: string := "\"token\":"

  /**
   * extractTokenFromBody. From `start`, one character past the first
   * `"token":`, up to the next '"'. None is the runtime panic of the slice:
   * `start` past the end of the body, or no '"' after it (then `end` is
   * `start - 1`). Without `"token":` the result is "".
   */
  function ExtractTokenFromBody(body: string): (r: Option<string>)
    ensures IndexOf(body, TokenKey) == -1 ==> r == Some("")
    ensures r.Some? ==> '"' !in r.value
  {
    var idx := IndexOf(body, TokenKey);
    if idx == -1 then Some("")
    else
      var start := idx + |TokenKey| + 1;
      if start > |body| then None
      else
        var offset := IndexOf(body[start..], "\"");
        if offset == -1 then None
        else
          NoQuoteBefore(body[start..], offset);
          assert body[start..start + offset] == body[start..][..offset];
          Some(body[start..start + offset])
  }

  /** Before the first '"' there is none. */
  lemma NoQuoteBefore(s: string, offset: nat)
    requires offset <= |s| && forall j :: 0 <= j < offset ==> !OccursAt(s, "\"", j)
    ensures '"' !in s[..offset]
  {
    forall j | 0 <= j < offset ensures s[j] != '"' {
      assert !OccursAt(s, "\"", j);
      assert s[j..j + 1] == [s[j]];
    }
  }

  /**
   * With `"token":` first occurring at `idx`, a non-panicking result is the
   * text from `idx + 9` up to the first '"' from there; it panics exactly
   * when there is no such '"'.
   */
  lemma ExtractTokenFound(body: string, idx: nat)
    requires IndexOf(body, TokenKey) == idx
    ensures var start := idx + |TokenKey| + 1;
      ExtractTokenFromBody(body).None? <==> start > |body| || '"' !in body[start..]
    ensures var start := idx + |TokenKey| + 1;
      ExtractTokenFromBody(body).Some? ==>
        exists end :: start <= end < |body| && body[end] == '"' && ExtractTokenFromBody(body).value == body[start..end]
  {
    var start := idx + |TokenKey| + 1;
    if start <= |body| {
      var rest := body[start..];
      var offset := IndexOf(rest, "\"");
      if offset == -1 {
        forall j | 0 <= j < |rest| ensures rest[j] != '"' {
          assert !OccursAt(rest, "\"", j);
          assert rest[j..j + 1] == [rest[j]];
        }
      } else {
        assert rest[offset..offset + 1] == [rest[offset]];
        assert body[start + offset] == '"';
      }
    }
  }

  /**
   * A compact JSON response gives back its token: with `"token":` first
   * found right before the token's opening quote, the result is the token.
   */
  lemma ExtractTokenCompact(prefix: string, token: string, rest: string)
    requires IndexOf(prefix + TokenKey, TokenKey) == |prefix|
    requires '"' !in token
    ensures ExtractTokenFromBody(prefix + TokenKey + "\"" + token + "\"" + rest) == Some(token)
  {
    var body := prefix + TokenKey + "\"" + token + "\"" + rest;
    var head := prefix + TokenKey;
    assert body == head + ("\"" + token + "\"" + rest);
    IndexOfExtend(head, "\"" + token + "\"" + rest, TokenKey, |prefix|);
    var start := |prefix| + |TokenKey| + 1;
    var tail := body[start..];
    assert tail == token + "\"" + rest;
    assert OccursAt(tail, "\"", |token|);
    forall j | 0 <= j < |token| ensures !OccursAt(tail, "\"", j) {
      assert tail[j..j + 1] == [token[j]];
    }
    IndexFromExact(tail, "\"", 0, |token|);
    assert body[start..start + |token|] == token;
  }

  /** A first occurrence ending inside `a` stays the first occurrence in `a + b`. */
  lemma IndexOfExtend(a: string, b: string, pat: string, i: nat)
    requires IndexOf(a, pat) == i && i + |pat| <= |a|
    ensures IndexOf(a + b, pat) == i
  {
    assert (a + b)[i..i + |pat|] == a[i..i + |pat|];
    forall j | 0 <= j < i ensures !OccursAt(a + b, pat, j) {
      assert !OccursAt(a, pat, j);
      assert (a + b)[j..j + |pat|] == a[j..j + |pat|];
    }
    IndexFromExact(a + b, pat, 0, i);
  }

  /** IndexFrom finds the occurrence when none comes before it. */
  lemma {:induction false} IndexFromExact(s: string, pat: string, i: nat, k: nat)
    requires i <= k && OccursAt(s, pat, k) && forall j :: i <= j < k ==> !OccursAt(s, pat, j)
    ensures IndexFrom(s, pat, i) == k
    decreases k - i
  {
    if i < k {
      assert !OccursAt(s, pat, i);
      IndexFromExact(s, pat, i + 1, k);
    }
  }

  /** A space after the colon makes the result empty: the skipped character is the space, not the quote. */
  lemma ExtractTokenSpaced()
    ensures ExtractTokenFromBody("{\"token\": \"abc\"}") == Some("")
  {
    var body := "{\"token\": \"abc\"}";
    assert OccursAt(body, TokenKey, 1);
    assert body[0] == '{';
    assert !OccursAt(body, TokenKey, 0);
    IndexFromExact(body, TokenKey, 0, 1);
    var tail := body[10..];
    assert OccursAt(tail, "\"", 0);
    IndexFromExact(tail, "\"", 0, 0);
    assert ExtractTokenFromBody(body) == Some(body[10..10]);
    assert body[10..10] == "";
  }

  /** An installation token: a usable key, then status 201, then the token extracted from the body. */
  function InstallationToken(key: Result<seq<bv8>, string>, status: int, body: string): (r: Result<Option<string>, string>)
    ensures r.Ok? <==> key.Ok? && status == StatusCreated
    ensures r.Ok? ==> r.value == ExtractTokenFromBody(body)
  {
    if key.Err? then Err(key.error)
    else match CheckStatus(ExchangeToken, status)
      case Some(e) => Err(e)
      case None => Ok(ExtractTokenFromBody(body))
  }
}
