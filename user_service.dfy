/** Users and their access tokens. A new user gets a random 64-character token; the
    repository keeps only `salt:hex(SHA-256(token ++ salt))` with a random 32-character salt,
    and the user is answered the plaintext token once. Signing in splits the stored value at
    the colon and compares digests. The random generator, SHA-256 and the repository are
    foreign code; they enter the model as oracles. */
module UserService {
  import opened Errors
  import opened Text

  type Uuid = nat

  datatype NewUser = NewUser(email: string)

  /** A user; `token` holds what the repository stores (the salted hash), except in the
      user that `create` answers, where it is the plaintext token. */
  datatype User = User(id: Uuid, email: string, token: string, superAdmin: bool, createdAt: int)

  /** The oracles: the random stream (`rng(i)` is the `i`-th draw), SHA-256, and the
      repository's create and lookup by email. */
  datatype Backend = Backend(
    rng: nat -> nat,
    sha256: Bytes -> Bytes,
    create: (NewUser, string) -> Result<User>,
    findByEmail: string -> Result<Option<User>>)

  /** The characters of the alphanumeric distribution. */
  const Alphanumeric: string :=
    seq(26, i requires 0 <= i < 26 => ('A' as int + i) as char)
    + seq(26, i requires 0 <= i < 26 => ('a' as int + i) as char)
    + seq(10, i requires 0 <= i < 10 => ('0' as int + i) as char)

  const TokenLength: nat := 64
  const SaltLength: nat := 32
  const WrongCredentials: string := "Wrong email or password"

  /** `count` alphanumeric characters from the draws starting at `start`. */
  function Sample(rng: nat -> nat, start: nat, count: nat): (s: string)
    ensures |s| == count
    ensures forall i :: 0 <= i < |s| ==> IsAlphanumeric(s[i])
  {
    assert |Alphanumeric| == 62;
    assert forall k :: 0 <= k < 62 ==> IsAlphanumeric(Alphanumeric[k]);
    seq(count, i requires 0 <= i < count => Alphanumeric[rng(start + i) % 62])
  }

  /** The plaintext token, then the salt, from the same stream. */
  function RealToken(b: Backend): string { Sample(b.rng, 0, TokenLength) }
  function Salt(b: Backend): string { Sample(b.rng, TokenLength, SaltLength) }

  /** The digest of the token followed by the salt, as lower-case hex. */
  function Digest(sha256: Bytes -> Bytes, token: string, salt: string): string {
    LowerHex(sha256(Utf8(token) + Utf8(salt)))
  }

  /** The stored form of a token: `salt:digest`. */
  function TokenHash(sha256: Bytes -> Bytes, token: string, salt: string): string {
    salt + ":" + Digest(sha256, token, salt)
  }

  /** `verify_token`: the stored value must split at colons into exactly two parts, salt and
      digest, and then the token is right when its digest with that salt is that digest. */
  function VerifyToken(sha256: Bytes -> Bytes, token: string, storedHash: string): bool {
    var parts := Split(storedHash, ':');
    if |parts| != 2 then false
    else Digest(sha256, token, parts[0]) == parts[1]
  }

  lemma NoColonInDigest(sha256: Bytes -> Bytes, token: string, salt: string)
    ensures ':' !in Digest(sha256, token, salt)
  {
    var d := Digest(sha256, token, salt);
    assert forall i :: 0 <= i < |d| ==> d[i] != ':' by {
      forall i | 0 <= i < |d| ensures d[i] != ':' {
        assert d[i] in HexDigits;
      }
    }
  }

  /** A stored value made of a colon-free salt and a colon-free digest verifies a token
      exactly when the token's digest with that salt is that digest. */
  lemma VerifyTokenIff(sha256: Bytes -> Bytes, token: string, salt: string, digest: string)
    requires ':' !in salt && ':' !in digest
    ensures VerifyToken(sha256, token, salt + ":" + digest) <==> Digest(sha256, token, salt) == digest
  {
    SplitPair(salt, ':', digest);
  }

  /** A stored value with no colon, or with more than one, splits into other than two
      pieces and so verifies no token. */
  lemma MalformedHashVerifiesNothing(sha256: Bytes -> Bytes, token: string, storedHash: string)
    requires Occurrences(storedHash, ':') != 1
    ensures !VerifyToken(sha256, token, storedHash)
  {
    SplitLength(storedHash, ':');
  }

  /** Round trip: the stored form of a token verifies that token, because neither an
      alphanumeric salt nor hex digits contain a colon. */
  lemma TokenHashVerifies(sha256: Bytes -> Bytes, token: string, salt: string)
    requires forall i :: 0 <= i < |salt| ==> IsAlphanumeric(salt[i])
    ensures VerifyToken(sha256, token, TokenHash(sha256, token, salt))
  {
    NoColonInDigest(sha256, token, salt);
    assert ':' !in salt by {
      forall i | 0 <= i < |salt| ensures salt[i] != ':' { assert IsAlphanumeric(salt[i]); }
    }
    VerifyTokenIff(sha256, token, salt, Digest(sha256, token, salt));
  }

  /** The SHA-256 hasher fed by successive `update` calls. */
  class Hasher {
    const sha256: Bytes -> Bytes
    var input: Bytes

    constructor (sha256: Bytes -> Bytes)
      ensures this.sha256 == sha256 && input == []
    {
      this.sha256 := sha256;
      input := [];
    }

    method Update(data: Bytes)
      modifies this
      ensures input == old(input) + data
    {
      input := input + data;
    }

    method Finalize() returns (digest: Bytes)
      ensures digest == sha256(input)
    {
      digest := sha256(input);
    }
  }

  /** The specification of `UserService::create`: the repository receives the stored form,
      and the answer carries the plaintext token instead. */
  function CreateSpec(b: Backend, u: NewUser): Result<User> {
    var token, salt := RealToken(b), Salt(b);
    match b.create(u, TokenHash(b.sha256, token, salt))
    case Err(error) => Err(error)
    case Ok(user) => Ok(user.(token := token))
  }

  /** `UserService::create`. */
  method Create(b: Backend, u: NewUser) returns (r: Result<User>)
    ensures r == CreateSpec(b, u)
  {
    var realToken := Sample(b.rng, 0, TokenLength);
    var salt := Sample(b.rng, TokenLength, SaltLength);
    var hasher := new Hasher(b.sha256);
    var tokenBytes, saltBytes := Utf8(realToken), Utf8(salt);
    hasher.Update(tokenBytes);
    assert hasher.input == tokenBytes by { assert [] + tokenBytes == tokenBytes; }
    hasher.Update(saltBytes);
    var digest := hasher.Finalize();
    var hash := LowerHex(digest);
    var tokenHash := salt + ":" + hash;
    assert realToken == RealToken(b) && salt == Salt(b);
    assert tokenHash == TokenHash(b.sha256, realToken, salt);
    var created := b.create(u, tokenHash);
    if created.Err? {
      return Err(created.error);
    }
    var user := created.value;
    user := user.(token := realToken);
    r := Ok(user);
  }

  /** What `create` stores and answers: a 64-character alphanumeric token, a stored value
      `salt:digest` with a 32-character alphanumeric salt that verifies the token, and an
      answer that carries the plaintext, which is never the stored value. */
  lemma CreateSpecProperties(b: Backend, u: NewUser)
    ensures var stored := TokenHash(b.sha256, RealToken(b), Salt(b));
      && |RealToken(b)| == 64 && (forall i :: 0 <= i < 64 ==> IsAlphanumeric(RealToken(b)[i]))
      && |Salt(b)| == 32 && (forall i :: 0 <= i < 32 ==> IsAlphanumeric(Salt(b)[i]))
      && stored == Salt(b) + ":" + Digest(b.sha256, RealToken(b), Salt(b))
      && VerifyToken(b.sha256, RealToken(b), stored)
      && (CreateSpec(b, u).Ok? ==> CreateSpec(b, u).value.token == RealToken(b) != stored)
  {
    var token, salt := RealToken(b), Salt(b);
    var stored := TokenHash(b.sha256, token, salt);
    TokenHashVerifies(b.sha256, token, salt);
    assert stored[32] == ':';
    assert ':' !in token by {
      forall i | 0 <= i < |token| ensures token[i] != ':' { assert IsAlphanumeric(token[i]); }
    }
  }

  /** `UserService::auth`. */
  function Auth(b: Backend, email: string, token: string): (r: Result<User>)
    ensures r.Ok? <==> b.findByEmail(email).Ok? && b.findByEmail(email).value.Some?
                       && VerifyToken(b.sha256, token, b.findByEmail(email).value.value.token)
    ensures r.Ok? ==> r.value == b.findByEmail(email).value.value
  {
    match b.findByEmail(email)
    case Err(error) => Err(error)
    case Ok(None) => Err(Fail(WrongCredentials))
    case Ok(Some(user)) => if VerifyToken(b.sha256, token, user.token) then Ok(user) else Err(Fail(WrongCredentials))
  }

  /** An unknown email and a wrong token are answered alike, so the answer does not tell
      which one it was. */
  lemma AuthDoesNotTellWhich(b: Backend, email: string, token: string)
    requires b.findByEmail(email).Ok?
    requires b.findByEmail(email).value.None? || !VerifyToken(b.sha256, token, b.findByEmail(email).value.value.token)
    ensures Auth(b, email, token) == Err(Fail("Wrong email or password"))
  {
  }

  /** Signing in with the token `create` answered succeeds once the repository finds the
      user it stored. */
  lemma AuthAfterCreate(b: Backend, u: NewUser, stored: User)
    requires stored.token == TokenHash(b.sha256, RealToken(b), Salt(b))
    requires b.findByEmail(u.email) == Ok(Some(stored))
    ensures Auth(b, u.email, RealToken(b)) == Ok(stored)
  {
    TokenHashVerifies(b.sha256, RealToken(b), Salt(b));
  }
}
