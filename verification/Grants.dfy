/**
  Signed grants: issuing, verifying, and their single use through the nonce table.  The keyed hash
  and the JSON writer and reader are parameters.
 */
module Grants {
  import opened Prelude
  import opened Base64Url

  datatype Json = JNull | JBool(b: bool) | JInt(n: int) | JText(s: string) | JOther(source: string)
                | JObject(fields: map<string, Json>)

  type Claims = map<string, Json>

  type Mac = (string, string) -> seq<Byte>
  type Writer = Claims -> seq<Byte>
  type Reader = seq<Byte> -> Option<Json>

  datatype GrantError =
    | InvalidGrant | InvalidSignature | InvalidPayload | TimestampsRequired | NotActive
    | InvalidLifetime | AudienceMismatch | OperationMismatch | InvalidIdentity

  const LONGEST_TOKEN := 64 * 1024
  const CLOCK_SKEW := 30

  /** The claims every grant carries; extra claims of the same name replace them. */
  function Payload(issuer: string, audience: string, operation: string, issuedAt: int, expiresIn: int,
                   nonce: string, extra: Claims): Claims
  {
    map["iss" := JText(issuer), "aud" := JText(audience), "operation" := JText(operation),
        "iat" := JInt(issuedAt), "exp" := JInt(issuedAt + expiresIn), "nonce" := JText(nonce)] + extra
  }

  function Sign(secret: string, claims: Claims, mac: Mac, write: Writer): string {
    var encoded := Encode(write(claims));
    encoded + "." + Encode(mac(secret, encoded))
  }

  /** `random` is the nonce that is drawn when none is given. */
  function Issue(secret: string, issuer: string, audience: string, operation: string, expiresIn: int, now: int,
                 nonce: string, random: string, extra: Claims, mac: Mac, write: Writer): string
  {
    var claims := Payload(issuer, audience, operation, now, expiresIn, if nonce == "" then random else nonce, extra);
    Sign(secret, claims, mac, write)
  }

  /** The position of the first separator, or the length when there is none. */
  function FindDot(s: string): (k: nat)
    ensures k <= |s| && (forall j :: 0 <= j < k ==> s[j] != '.') && (k < |s| ==> s[k] == '.')
  {
    if s == "" || s[0] == '.' then 0 else 1 + FindDot(s[1..])
  }

  /** Python's booleans are integers. */
  function AsInt(claims: Claims, name: string): Option<int> {
    if name !in claims then None
    else match claims[name]
      case JInt(n) => Some(n)
      case JBool(b) => Some(if b then 1 else 0)
      case _ => None
  }

  function AsText(claims: Claims, name: string): Option<string> {
    if name in claims && claims[name].JText? then Some(claims[name].s) else None
  }

  /** The checks on the payload of a token whose signature is right. */
  function Check(claims: Claims, audience: string, operation: Option<string>, now: int, maxLifetime: int)
    : Result<Claims, GrantError>
  {
    var issuedAt, expiresAt := AsInt(claims, "iat"), AsInt(claims, "exp");
    if issuedAt == None || expiresAt == None then Err(TimestampsRequired)
    else if issuedAt.value > now + CLOCK_SKEW || expiresAt.value <= now then Err(NotActive)
    else if expiresAt.value - issuedAt.value <= 0 || expiresAt.value - issuedAt.value > maxLifetime then
      Err(InvalidLifetime)
    else if AsText(claims, "aud") != Some(audience) then Err(AudienceMismatch)
    else if operation.Some? && AsText(claims, "operation") != operation then Err(OperationMismatch)
    else if AsText(claims, "iss") == None || AsText(claims, "nonce") == None || AsText(claims, "nonce") == Some("") then
      Err(InvalidIdentity)
    else Ok(claims)
  }

  function Verify(token: string, secret: string, audience: string, operation: Option<string>, now: int,
                  maxLifetime: int, mac: Mac, read: Reader): Result<Claims, GrantError>
  {
    var k := FindDot(token);
    if token == "" || |token| > LONGEST_TOKEN || k == |token| then Err(InvalidGrant)
    else
      var encoded := token[..k];
      match Decode(token[k + 1..])
      case Err(_) => Err(InvalidGrant)
      case Ok(signature) =>
        if signature != mac(secret, encoded) then Err(InvalidSignature)
        else match Decode(encoded)
          case Err(_) => Err(InvalidPayload)
          case Ok(text) =>
            var json := read(text);
            if json.Some? && json.value.JObject? then Check(json.value.fields, audience, operation, now, maxLifetime)
            else Err(InvalidPayload)
  }

  lemma DotAfterEncoded(b: seq<Byte>, rest: string)
    ensures FindDot(Encode(b) + "." + rest) == |Encode(b)|
  {
    EncodeShape(b);
    FirstDot(Encode(b), rest);
  }

  /** A signed payload verifies exactly as far as its claims do; nothing is lost on the way. */
  lemma VerifySigned(secret: string, claims: Claims, audience: string, operation: Option<string>, now: int,
                     maxLifetime: int, mac: Mac, write: Writer, read: Reader)
    requires read(write(claims)) == Some(JObject(claims))
    requires |Sign(secret, claims, mac, write)| <= LONGEST_TOKEN
    ensures Verify(Sign(secret, claims, mac, write), secret, audience, operation, now, maxLifetime, mac, read)
            == Check(claims, audience, operation, now, maxLifetime)
  {
    var encoded := Encode(write(claims));
    var signature := mac(secret, encoded);
    var token := Sign(secret, claims, mac, write);
    DotAfterEncoded(write(claims), Encode(signature));
    RoundTrip(signature);
    RoundTrip(write(claims));
    assert token[..|encoded|] == encoded;
    assert token[|encoded| + 1..] == Encode(signature);
  }

  // ---------------------------------------------------------------- which tokens are accepted

  /** The only way to cut a token at its first separator. */
  lemma FirstDot(e: string, rest: string)
    requires '.' !in e
    ensures FindDot(e + "." + rest) == |e|
  {
    var s := e + "." + rest;
    assert s[|e|] == '.';
    forall j | 0 <= j < |e| ensures s[j] != '.' {
      assert s[j] == e[j] && e[j] in e;
    }
  }

  /** Both halves of a token are right: the signature is that of the first, and the first reads as `c`. */
  predicate SignedText(e: string, rest: string, secret: string, mac: Mac, read: Reader, c: Claims) {
    && Decode(rest) == Ok(mac(secret, e))
    && Decode(e).Ok? && read(Decode(e).value) == Some(JObject(c))
  }

  /**
    A token is accepted, with the claims `c`, exactly when it is not too long, what follows its
    first separator decodes to the keyed hash of what precedes it, what precedes it decodes to the
    text of `c`, and `c` passes the checks.
   */
  lemma AcceptedIsSigned(e: string, rest: string, secret: string, audience: string, operation: Option<string>,
                         now: int, maxLifetime: int, mac: Mac, read: Reader, c: Claims)
    requires '.' !in e
    ensures Verify(e + "." + rest, secret, audience, operation, now, maxLifetime, mac, read) == Ok(c) <==>
              && |e| + 1 + |rest| <= 64 * 1024 && SignedText(e, rest, secret, mac, read, c)
              && Check(c, audience, operation, now, maxLifetime).Ok?
  {
    var token := e + "." + rest;
    FirstDot(e, rest);
    assert token[..|e|] == e && token[|e| + 1..] == rest;
    CheckKeeps(c, audience, operation, now, maxLifetime);
    if Verify(token, secret, audience, operation, now, maxLifetime, mac, read) == Ok(c) {
      var d := read(Decode(e).value).value.fields;
      CheckKeeps(d, audience, operation, now, maxLifetime);
    }
  }

  lemma CheckKeeps(c: Claims, audience: string, operation: Option<string>, now: int, maxLifetime: int)
    ensures var r := Check(c, audience, operation, now, maxLifetime); r.Ok? ==> r.value == c
  {
  }

  /** A token without a separator is no grant; any other is two texts of which the first has none. */
  lemma TokenParts(token: string) returns (e: string, rest: string)
    requires '.' in token
    ensures '.' !in e && token == e + "." + rest
  {
    var k := FindDot(token);
    e, rest := token[..k], token[k + 1..];
    assert token == token[..k] + [token[k]] + token[k + 1..];
  }

  lemma NoSeparatorNoGrant(token: string, secret: string, audience: string, operation: Option<string>, now: int,
                           maxLifetime: int, mac: Mac, read: Reader)
    requires '.' !in token
    ensures Verify(token, secret, audience, operation, now, maxLifetime, mac, read) == Err(InvalidGrant)
  {
  }

  /** Whoever does not know the keyed hash of a payload cannot pass it off as a grant. */
  lemma ForgedIsRefused(claims: Claims, rest: string, secret: string, audience: string, operation: Option<string>,
                        now: int, maxLifetime: int, mac: Mac, write: Writer, read: Reader)
    requires Decode(rest) != Ok(mac(secret, Encode(write(claims))))
    ensures Verify(Encode(write(claims)) + "." + rest, secret, audience, operation, now, maxLifetime, mac, read).Err?
  {
    var e := Encode(write(claims));
    EncodeShape(write(claims));
    var v := Verify(e + "." + rest, secret, audience, operation, now, maxLifetime, mac, read);
    if v.Ok? {
      AcceptedIsSigned(e, rest, secret, audience, operation, now, maxLifetime, mac, read, v.value);
    }
  }

  /** So a grant signed with another secret is refused, unless the two hashes collide on it. */
  lemma OtherSecretIsRefused(claims: Claims, other: string, secret: string, audience: string,
                             operation: Option<string>, now: int, maxLifetime: int, mac: Mac, write: Writer,
                             read: Reader)
    requires mac(other, Encode(write(claims))) != mac(secret, Encode(write(claims)))
    ensures Verify(Sign(other, claims, mac, write), secret, audience, operation, now, maxLifetime, mac, read).Err?
  {
    var signature := mac(other, Encode(write(claims)));
    RoundTrip(signature);
    ForgedIsRefused(claims, Encode(signature), secret, audience, operation, now, maxLifetime, mac, write, read);
  }

  /** What the claims of an accepted grant say, and why any others are refused. */
  lemma CheckMeans(c: Claims, audience: string, operation: Option<string>, now: int, maxLifetime: int)
    ensures match Check(c, audience, operation, now, maxLifetime)
            case Ok(_) =>
              && IsInt(c, "iat") && IsInt(c, "exp")
              && AsInt(c, "iat").value - 30 <= now < AsInt(c, "exp").value
              && 0 < AsInt(c, "exp").value - AsInt(c, "iat").value <= maxLifetime
              && IsText(c, "aud", audience) && (operation == None || IsText(c, "operation", operation.value))
              && HasIdentity(c)
            case Err(TimestampsRequired) => !IsInt(c, "iat") || !IsInt(c, "exp")
            case Err(NotActive) =>
              IsInt(c, "iat") && IsInt(c, "exp")
              && (now < AsInt(c, "iat").value - 30 || AsInt(c, "exp").value <= now)
            case Err(InvalidLifetime) =>
              IsInt(c, "iat") && IsInt(c, "exp")
              && !(0 < AsInt(c, "exp").value - AsInt(c, "iat").value <= maxLifetime)
            case Err(AudienceMismatch) => !IsText(c, "aud", audience)
            case Err(OperationMismatch) => operation.Some? && !IsText(c, "operation", operation.value)
            case Err(InvalidIdentity) => !HasIdentity(c)
            case Err(_) => false
  {
  }

  predicate IsText(c: Claims, name: string, s: string) {
    name in c && c[name] == JText(s)
  }

  predicate HasIdentity(c: Claims) {
    "iss" in c && c["iss"].JText? && "nonce" in c && c["nonce"].JText? && c["nonce"].s != ""
  }

  predicate IsInt(c: Claims, name: string) {
    name in c && (c[name].JInt? || c[name].JBool?)
  }

  /** A payload that the issuer built passes the checks exactly in its window and within its limits. */
  lemma PayloadWindow(issuer: string, audience: string, operation: string, n: int, d: int, drawn: string,
                      extra: Claims, forAudience: string, forOperation: Option<string>, t: int, maxLifetime: int)
    requires extra.Keys !! {"iss", "aud", "operation", "iat", "exp", "nonce"} && drawn != ""
    ensures Check(Payload(issuer, audience, operation, n, d, drawn, extra), forAudience, forOperation, t,
                  maxLifetime).Ok? <==>
              && n - 30 <= t < n + d && 0 < d <= maxLifetime
              && audience == forAudience && (forOperation == None || forOperation == Some(operation))
  {
    var claims := Payload(issuer, audience, operation, n, d, drawn, extra);
    assert AsText(claims, "iss") == Some(issuer) && AsText(claims, "aud") == Some(audience);
    assert AsText(claims, "operation") == Some(operation) && AsText(claims, "nonce") == Some(drawn);
    assert AsInt(claims, "iat") == Some(n) && AsInt(claims, "exp") == Some(n + d);
  }

  /**
    The window of a grant: issued at `n` for `d` seconds, it verifies at time `t` for this audience
    and operation exactly when `n - 30 <= t < n + d`, the lifetime is allowed and the token fits.
   */
  lemma GrantWindow(secret: string, issuer: string, audience: string, operation: string, d: int, n: int,
                    nonce: string, random: string, extra: Claims, forAudience: string,
                    forOperation: Option<string>, t: int, maxLifetime: int, mac: Mac, write: Writer, read: Reader)
    requires forall c :: read(write(c)) == Some(JObject(c))
    requires extra.Keys !! {"iss", "aud", "operation", "iat", "exp", "nonce"}
    requires random != ""
    ensures var token := Issue(secret, issuer, audience, operation, d, n, nonce, random, extra, mac, write);
            Verify(token, secret, forAudience, forOperation, t, maxLifetime, mac, read).Ok? <==>
              && n - 30 <= t < n + d && 0 < d <= maxLifetime
              && audience == forAudience && (forOperation == None || forOperation == Some(operation))
              && |token| <= 64 * 1024
  {
    var token := Issue(secret, issuer, audience, operation, d, n, nonce, random, extra, mac, write);
    var drawn := if nonce == "" then random else nonce;
    var claims := Payload(issuer, audience, operation, n, d, drawn, extra);
    PayloadWindow(issuer, audience, operation, n, d, drawn, extra, forAudience, forOperation, t, maxLifetime);
    if |token| <= LONGEST_TOKEN {
      VerifySigned(secret, claims, forAudience, forOperation, t, maxLifetime, mac, write, read);
    }
  }

  /** The payload of an accepted token does not depend on when it is verified. */
  lemma VerifiedPayload(token: string, secret: string, audience: string, operation: Option<string>, t: int,
                        u: int, maxLifetime: int, mac: Mac, read: Reader)
    requires Verify(token, secret, audience, operation, t, maxLifetime, mac, read).Ok?
    ensures var c := Verify(token, secret, audience, operation, t, maxLifetime, mac, read).value;
            && AsInt(c, "iat").Some? && AsInt(c, "exp").Some? && AsText(c, "nonce").Some?
            && t < AsInt(c, "exp").value && AsInt(c, "iat").value <= t + CLOCK_SKEW
            && (Verify(token, secret, audience, operation, u, maxLifetime, mac, read) ==
                if AsInt(c, "iat").value > u + CLOCK_SKEW || AsInt(c, "exp").value <= u then Err(NotActive) else Ok(c))
  {
  }
}

/** Grants are consumed once: the table of spent nonces forgets those that have expired. */
module SingleUse {
  import opened Prelude
  import opened Grants
  import opened StateTables

  /** What the Manager checks tokens with. */
  datatype Settings = Settings(secret: string, issuer: string, mac: Mac, read: Reader)

  /** One authorisation: the clock is read to verify the grant and again to consume the nonce. */
  datatype Attempt = Attempt(token: string, operation: Option<string>, workspace: Option<string>,
                             verifiedAt: int, consumedAt: int)

  const AUDIENCE := "sandbox-manager"
  const MAX_LIFETIME := 900

  /** The claims of a grant that is genuine, current and bound to this issuer and workspace. */
  function Genuine(s: Settings, a: Attempt): Option<Claims> {
    match Verify(a.token, s.secret, AUDIENCE, a.operation, a.verifiedAt, MAX_LIFETIME, s.mac, s.read)
    case Err(_) => None
    case Ok(c) =>
      if AsText(c, "iss") != Some(s.issuer) then None
      else if a.workspace.Some? && AsText(c, "workspace_id") != a.workspace then None
      else Some(c)
  }

  /** A genuine grant is signed for this manager, and names the issuer, operation and workspace asked for. */
  lemma GenuineIsBound(s: Settings, a: Attempt) returns (e: string, rest: string)
    requires Genuine(s, a).Some?
    ensures var c := Genuine(s, a).value;
            && '.' !in e && a.token == e + "." + rest && SignedText(e, rest, s.secret, s.mac, s.read, c)
            && IsText(c, "aud", "sandbox-manager") && IsText(c, "iss", s.issuer)
            && (a.operation.Some? ==> IsText(c, "operation", a.operation.value))
            && (a.workspace.Some? ==> IsText(c, "workspace_id", a.workspace.value))
  {
    var c := Genuine(s, a).value;
    if '.' !in a.token {
      NoSeparatorNoGrant(a.token, s.secret, AUDIENCE, a.operation, a.verifiedAt, MAX_LIFETIME, s.mac, s.read);
    }
    e, rest := TokenParts(a.token);
    AcceptedIsSigned(e, rest, s.secret, AUDIENCE, a.operation, a.verifiedAt, MAX_LIFETIME, s.mac, s.read, c);
    CheckMeans(c, AUDIENCE, a.operation, a.verifiedAt, MAX_LIFETIME);
  }

  /**
    A grant that verifies but was issued by someone else, or for another workspace, is refused and
    spends nothing; any other that verifies is genuine.
   */
  lemma ForeignGrantSpendsNothing(s: Settings, nonces: map<string, Nonce>, a: Attempt)
    requires var v := Verify(a.token, s.secret, AUDIENCE, a.operation, a.verifiedAt, MAX_LIFETIME, s.mac, s.read);
             v.Ok?
    ensures var c := Verify(a.token, s.secret, AUDIENCE, a.operation, a.verifiedAt, MAX_LIFETIME, s.mac, s.read).value;
            if IsText(c, "iss", s.issuer) && (a.workspace == None || IsText(c, "workspace_id", a.workspace.value))
            then Genuine(s, a) == Some(c)
            else Genuine(s, a) == None && Authorize(s, nonces, a) == (nonces, false)
  {
  }

  predicate Usable(c: Claims) {
    AsText(c, "nonce").Some? && AsInt(c, "exp").Some?
  }

  lemma GenuineIsUsable(s: Settings, a: Attempt)
    ensures Genuine(s, a).Some? ==>
              Usable(Genuine(s, a).value) && a.verifiedAt < AsInt(Genuine(s, a).value, "exp").value
  {
    if Genuine(s, a).Some? {
      VerifiedPayload(a.token, s.secret, AUDIENCE, a.operation, a.verifiedAt, a.verifiedAt,
                      MAX_LIFETIME, s.mac, s.read);
    }
  }

  function NonceOf(c: Claims): string {
    if AsText(c, "nonce").Some? then AsText(c, "nonce").value else ""
  }

  function ExpiryOf(c: Claims): int {
    if AsInt(c, "exp").Some? then AsInt(c, "exp").value else 0
  }

  function Authorize(s: Settings, nonces: map<string, Nonce>, a: Attempt): (map<string, Nonce>, bool) {
    var claims := Genuine(s, a);
    if claims == None then (nonces, false)
    else ConsumeNonceTx(nonces, NonceOf(claims.value), ExpiryOf(claims.value), a.consumedAt)
  }

  function NoncesAfter(s: Settings, attempts: seq<Attempt>): map<string, Nonce> {
    if attempts == [] then map[]
    else Authorize(s, NoncesAfter(s, attempts[..|attempts| - 1]), attempts[|attempts| - 1]).0
  }

  /** Whether the `k`-th attempt was let through. */
  predicate Accepted(s: Settings, attempts: seq<Attempt>, k: nat)
    requires k < |attempts|
  {
    Authorize(s, NoncesAfter(s, attempts[..k]), attempts[k]).1
  }

  /** The clock does not run backwards, within an attempt or between consumptions. */
  predicate Monotone(attempts: seq<Attempt>) {
    && (forall k :: 0 <= k < |attempts| ==> attempts[k].verifiedAt <= attempts[k].consumedAt)
    && (forall j, k :: 0 <= j < k < |attempts| ==> attempts[j].consumedAt <= attempts[k].consumedAt)
  }

  // ---------------------------------------------------------------- what the table remembers

  /** Attempt `i` spent the nonce, with a grant that expires after `t`. */
  predicate Spent(s: Settings, attempts: seq<Attempt>, i: nat, nonce: string, t: int) {
    && i < |attempts| && Accepted(s, attempts, i) && Genuine(s, attempts[i]).Some?
    && var c := Genuine(s, attempts[i]).value;
    NonceOf(c) == nonce && ExpiryOf(c) > t
  }

  /** Some attempt before `k` spent it. */
  predicate SpentBefore(s: Settings, attempts: seq<Attempt>, k: nat, nonce: string, t: int) {
    k > 0 && (SpentBefore(s, attempts, k - 1, nonce, t) || Spent(s, attempts, k - 1, nonce, t))
  }

  lemma {:induction false} SpentEarlier(s: Settings, attempts: seq<Attempt>, i: nat, k: nat, nonce: string, t: int)
    requires i < k && Spent(s, attempts, i, nonce, t)
    ensures SpentBefore(s, attempts, k, nonce, t)
    decreases k
  {
    if i < k - 1 {
      SpentEarlier(s, attempts, i, k - 1, nonce, t);
    }
  }

  predicate OnRecord(nonces: map<string, Nonce>, nonce: string, t: int) {
    nonce in nonces && nonces[nonce].expiresAt > t
  }

  /** One attempt, seen at a time that is not before its consumption. */
  lemma AuthorizeRecords(s: Settings, nonces: map<string, Nonce>, a: Attempt, nonce: string, t: int)
    requires a.consumedAt <= t
    ensures var (nonces', accepted) := Authorize(s, nonces, a);
            OnRecord(nonces', nonce, t) <==>
              || OnRecord(nonces, nonce, t)
              || (accepted && NonceOf(Genuine(s, a).value) == nonce && ExpiryOf(Genuine(s, a).value) > t)
  {
  }

  /** For all its purges, the table has a nonce on record exactly while a grant that spent it lives. */
  lemma {:induction false} RecordIsExact(s: Settings, attempts: seq<Attempt>, k: nat, nonce: string, t: int)
    requires k <= |attempts| && Monotone(attempts) && (k > 0 ==> attempts[k - 1].consumedAt <= t)
    ensures OnRecord(NoncesAfter(s, attempts[..k]), nonce, t) <==> SpentBefore(s, attempts, k, nonce, t)
    decreases k
  {
    if k > 0 {
      var n := k - 1;
      assert attempts[..k][..n] == attempts[..n];
      AuthorizeRecords(s, NoncesAfter(s, attempts[..n]), attempts[n], nonce, t);
      RecordIsExact(s, attempts, n, nonce, t);
    }
  }

  /**
    In any history, an attempt is accepted exactly when its grant is genuine and no grant with
    this nonce that is still alive at the consumption was accepted before.
   */
  lemma AcceptedExactly(s: Settings, attempts: seq<Attempt>, k: nat)
    requires k < |attempts| && Monotone(attempts)
    ensures Accepted(s, attempts, k) <==>
              && Genuine(s, attempts[k]).Some?
              && !SpentBefore(s, attempts, k, NonceOf(Genuine(s, attempts[k]).value), attempts[k].consumedAt)
  {
    if Genuine(s, attempts[k]).Some? {
      RecordIsExact(s, attempts, k, NonceOf(Genuine(s, attempts[k]).value), attempts[k].consumedAt);
    }
  }

  // ---------------------------------------------------------------- a given grant

  lemma SameTokenSameClaims(s: Settings, a: Attempt, b: Attempt)
    requires a.token == b.token && Genuine(s, a).Some? && Genuine(s, b).Some?
    ensures Genuine(s, a) == Genuine(s, b)
  {
    VerifiedPayload(a.token, s.secret, AUDIENCE, a.operation, a.verifiedAt, b.verifiedAt, MAX_LIFETIME, s.mac, s.read);
  }

  /**
    A grant that was accepted before is accepted again exactly when it still verifies, its expiry
    is reached before its nonce is consumed, so that the purge forgets the first use, and no other
    grant with the same nonce has been accepted that lives on.
   */
  lemma SecondUse(s: Settings, attempts: seq<Attempt>, j: nat, k: nat)
    requires j < k < |attempts| && Monotone(attempts) && attempts[j].token == attempts[k].token
    requires Accepted(s, attempts, j) && Genuine(s, attempts[k]).Some?
    ensures var c, a := Genuine(s, attempts[k]).value, attempts[k];
            Accepted(s, attempts, k) <==>
              && a.verifiedAt < ExpiryOf(c) <= a.consumedAt
              && !SpentBefore(s, attempts, k, NonceOf(c), a.consumedAt)
  {
    AcceptedExactly(s, attempts, k);
    SameTokenSameClaims(s, attempts[j], attempts[k]);
    GenuineIsUsable(s, attempts[k]);
    var c := Genuine(s, attempts[k]).value;
    if ExpiryOf(c) > attempts[k].consumedAt {
      SpentEarlier(s, attempts, j, k, NonceOf(c), attempts[k].consumedAt);
    }
  }

  /**
    A signed grant is accepted at most once over its whole life, among any other attempts, if the
    clock is read once for the later attempt.
   */
  lemma SingleUseOfGrants(s: Settings, attempts: seq<Attempt>, j: nat, k: nat)
    requires j < k < |attempts| && Monotone(attempts)
    requires attempts[j].token == attempts[k].token && attempts[k].verifiedAt == attempts[k].consumedAt
    requires Accepted(s, attempts, j)
    ensures !Accepted(s, attempts, k)
  {
    if Genuine(s, attempts[k]).Some? {
      SecondUse(s, attempts, j, k);
    }
  }

  /** Two readings of the clock on either side of the expiry do let one grant through twice. */
  lemma AcceptedTwiceAcrossExpiry(s: Settings, a: Attempt)
    requires Genuine(s, a).Some?
    ensures var expiry := ExpiryOf(Genuine(s, a).value);
            var attempts := [a.(consumedAt := a.verifiedAt), a.(consumedAt := expiry)];
            Monotone(attempts) && Accepted(s, attempts, 0) && Accepted(s, attempts, 1)
  {
    var expiry := ExpiryOf(Genuine(s, a).value);
    var attempts := [a.(consumedAt := a.verifiedAt), a.(consumedAt := expiry)];
    GenuineIsUsable(s, a);
    GenuineIgnoresConsumption(s, a, a.verifiedAt);
    GenuineIgnoresConsumption(s, a, expiry);
    AcceptedExactly(s, attempts, 0);
    AcceptedExactly(s, attempts, 1);
  }

  lemma GenuineIgnoresConsumption(s: Settings, a: Attempt, t: int)
    ensures Genuine(s, a.(consumedAt := t)) == Genuine(s, a)
  {
  }
}
