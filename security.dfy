/**
 * The session-scoped token store of `SecurityService`: the XOR obfuscation codec, the two
 * sessionStorage entries with their two notification subjects, and the expiry inspector.
 */
module Security {
  import opened Wrappers
  import opened JsText
  import opened Browser

  const TokenKey := "auth_token"
  const RefreshTokenKey := "refresh_token"
  /** Length of the obfuscation key: `substring(0, 16)`. */
  const KeyLength := 16
  /** "Expiring soon" window: 5 * 60 seconds. */
  const SoonWindow := 300

  // ---------------------------------------------------------------- codec

  /**
   * `key.charCodeAt(i % key.length)`; for an empty key the index is NaN, `charCodeAt` yields NaN
   * and `^` converts it to 0.
   */
  function KeyUnit(key: JsStr, i: nat): CodeUnit {
    if |key| == 0 then 0 else key[i % |key|]
  }

  /** The code units of `s` XORed with the key repeated along it. */
  function Xor(s: JsStr, key: JsStr): (r: JsStr)
    ensures |r| == |s|
    ensures forall i :: 0 <= i < |s| ==> r[i] == s[i] ^ KeyUnit(key, i)
  {
    seq(|s|, i requires 0 <= i < |s| => s[i] ^ KeyUnit(key, i))
  }

  /** XOR with an ASCII key keeps a code unit within one byte exactly when it was a byte. */
  lemma XorKeepsBytes(s: JsStr, key: JsStr)
    requires Ascii(key)
    ensures Latin1(Xor(s, key)) <==> Latin1(s)
  {
    forall i | 0 <= i < |s|
      ensures Xor(s, key)[i] < 0x100 <==> s[i] < 0x100
    {
      var k := KeyUnit(key, i);
      assert k < 0x80;
    }
  }

  /** XOR with the same key at the same positions undoes itself. */
  lemma XorInvolutive(s: JsStr, key: JsStr)
    ensures Xor(Xor(s, key), key) == s
  {
    var once := Xor(s, key);
    assert forall i :: 0 <= i < |s| ==> Xor(once, key)[i] == s[i] by {
      forall i | 0 <= i < |s| ensures Xor(once, key)[i] == s[i] {
        assert once[i] == s[i] ^ KeyUnit(key, i);
      }
    }
  }

  /** `getEncryptionKey`: the first 16 units of `btoa(hostname + userAgent)`; None when `btoa` throws. */
  function EncryptionKey(env: Platform): (key: Option<JsStr>)
    ensures key.Some? ==> |key.value| <= KeyLength
    ensures Base64Laws(env) ==> (key.Some? <==> Latin1(env.hostname + env.userAgent))
    ensures Base64Laws(env) && key.Some? ==> Ascii(key.value)
  {
    match env.btoa(env.hostname + env.userAgent)
    case None => None
    case Some(encoded) =>
      Some(if |encoded| <= KeyLength then encoded else encoded[..KeyLength])
  }

  /** `encryptToken`: XOR with the key, then `btoa`; None when either step throws. */
  function Encrypted(env: Platform, token: JsStr): (r: Option<JsStr>)
    ensures r.None? <==> EncryptionKey(env).None? || env.btoa(Xor(token, EncryptionKey(env).value)).None?
  {
    match EncryptionKey(env)
    case None => None
    case Some(key) => env.btoa(Xor(token, key))
  }

  /** `decryptToken`: `atob`, then XOR with the key; None when either step throws. */
  function Decrypted(env: Platform, stored: JsStr): (r: Option<JsStr>)
    ensures r.None? <==> EncryptionKey(env).None? || env.atob(stored).None?
    ensures r.Some? ==> |r.value| == |env.atob(stored).value|
  {
    match EncryptionKey(env)
    case None => None
    case Some(key) =>
      match env.atob(stored)
      case None => None
      case Some(decoded) => Some(Xor(decoded, key))
  }

  /** Encryption succeeds exactly for byte strings, once the key can be derived. */
  lemma EncryptedSucceeds(env: Platform, token: JsStr)
    requires Base64Laws(env)
    ensures Encrypted(env, token).Some? <==> EncryptionKey(env).Some? && Latin1(token)
  {
    if EncryptionKey(env).Some? {
      XorKeepsBytes(token, EncryptionKey(env).value);
    }
  }

  /** The codec round trip: whatever `encryptToken` produced, `decryptToken` turns back into the token. */
  lemma DecryptEncrypted(env: Platform, token: JsStr)
    requires Base64Laws(env)
    requires Encrypted(env, token).Some?
    ensures Decrypted(env, Encrypted(env, token).value) == Some(token)
  {
    var key := EncryptionKey(env).value;
    XorInvolutive(token, key);
  }

  /** A non-empty token encrypts to a non-empty ciphertext, so it is not read back as "no entry". */
  lemma EncryptedNonEmpty(env: Platform, token: JsStr)
    requires Base64Laws(env)
    requires Encrypted(env, token).Some?
    ensures |Encrypted(env, token).value| == 0 <==> |token| == 0
  {
  }

  // ---------------------------------------------------------------- store

  /** The observable state: sessionStorage and the last values published on the two subjects. */
  datatype Store = Store(
    session: map<string, JsStr>,
    tokenSubject: Option<JsStr>,
    refreshTokenSubject: Option<JsStr>)

  /** `clearAllTokens`: both entries removed, `null` published on both subjects. */
  function Cleared(s: Store): (r: Store)
    ensures TokenKey !in r.session && RefreshTokenKey !in r.session
    ensures forall k :: k in r.session <==> k in s.session && k != TokenKey && k != RefreshTokenKey
    ensures forall k :: k in r.session ==> r.session[k] == s.session[k]
    ensures r.tokenSubject.None? && r.refreshTokenSubject.None?
  {
    Store(s.session - {TokenKey, RefreshTokenKey}, None, None)
  }

  /** Clearing twice leaves the same state as clearing once. */
  lemma ClearedIdempotent(s: Store)
    ensures Cleared(Cleared(s)) == Cleared(s)
  {
  }

  /** `isValidJWT` of this service: its first statement returns true, the checks after it are dead. */
  predicate IsValidJWT(token: JsStr)
    ensures IsValidJWT(token)
  {
    true
  }

  /** `setSecureToken`: encrypt, store under `auth_token` and publish; unchanged when encryption throws. */
  function StoredToken(env: Platform, s: Store, token: JsStr): (r: Store)
    ensures Encrypted(env, token).None? ==> r == s
    ensures Encrypted(env, token).Some? ==>
      r.session == s.session[TokenKey := Encrypted(env, token).value] && r.tokenSubject == Some(token)
    ensures r.refreshTokenSubject == s.refreshTokenSubject
  {
    if !IsValidJWT(token) then s
    else
      match Encrypted(env, token)
      case None => s
      case Some(encrypted) =>
        s.(session := s.session[TokenKey := encrypted], tokenSubject := Some(token))
  }

  /** `setSecureRefreshToken`: as `setSecureToken` under `refresh_token`, without the JWT check. */
  function StoredRefreshToken(env: Platform, s: Store, refreshToken: JsStr): (r: Store)
    ensures Encrypted(env, refreshToken).None? ==> r == s
    ensures Encrypted(env, refreshToken).Some? ==>
      r.session == s.session[RefreshTokenKey := Encrypted(env, refreshToken).value]
      && r.refreshTokenSubject == Some(refreshToken)
    ensures r.tokenSubject == s.tokenSubject
  {
    match Encrypted(env, refreshToken)
    case None => s
    case Some(encrypted) =>
      s.(session := s.session[RefreshTokenKey := encrypted], refreshTokenSubject := Some(refreshToken))
  }

  /** The value a read returns together with the state it leaves behind. */
  datatype TokenRead = TokenRead(token: Option<JsStr>, after: Store)

  /**
   * `getSecureToken`: no entry (or an empty one) reads as null; an entry that cannot be
   * decrypted clears both entries and reads as null.
   */
  function ReadToken(env: Platform, s: Store): (r: TokenRead)
    ensures r.after == s || r.after == Cleared(s)
    ensures r.token.Some? ==> r.after == s
    ensures !Truthy(Lookup(s.session, TokenKey)) ==> r == TokenRead(None, s)
    ensures Truthy(Lookup(s.session, TokenKey)) ==>
      match Decrypted(env, s.session[TokenKey])
      case None => r == TokenRead(None, Cleared(s))
      case Some(t) => r == TokenRead(Some(t), s)
  {
    var stored := Lookup(s.session, TokenKey);
    if !Truthy(stored) then TokenRead(None, s)
    else
      match Decrypted(env, stored.value)
      case None => TokenRead(None, Cleared(s))
      case Some(t) => TokenRead(Some(t), s)
  }

  /** Reading the token again after a read gives the same answer and changes nothing more. */
  lemma ReadTokenIdempotent(env: Platform, s: Store)
    ensures var first := ReadToken(env, s);
      ReadToken(env, first.after) == TokenRead(first.token, first.after)
  {
  }

  /** `getSecureRefreshToken`: like `getSecureToken`, but a failed decryption clears nothing. */
  function ReadRefreshToken(env: Platform, s: Store): (r: Option<JsStr>)
    ensures !Truthy(Lookup(s.session, RefreshTokenKey)) ==> r.None?
    ensures Truthy(Lookup(s.session, RefreshTokenKey)) ==> r == Decrypted(env, s.session[RefreshTokenKey])
  {
    var stored := Lookup(s.session, RefreshTokenKey);
    if !Truthy(stored) then None else Decrypted(env, stored.value)
  }

  /**
   * Storing a token and reading it back: any non-empty byte-string token comes back unchanged
   * and nothing is cleared, once the key can be derived.
   */
  lemma {:induction false} StoredTokenReadsBack(env: Platform, s: Store, token: JsStr)
    requires Base64Laws(env)
    requires EncryptionKey(env).Some? && Latin1(token) && |token| > 0
    ensures var s' := StoredToken(env, s, token);
      s'.tokenSubject == Some(token) && ReadToken(env, s') == TokenRead(Some(token), s')
  {
    EncryptedSucceeds(env, token);
    EncryptedNonEmpty(env, token);
    DecryptEncrypted(env, token);
  }

  /** The same round trip for the refresh token. */
  lemma {:induction false} StoredRefreshTokenReadsBack(env: Platform, s: Store, refreshToken: JsStr)
    requires Base64Laws(env)
    requires EncryptionKey(env).Some? && Latin1(refreshToken) && |refreshToken| > 0
    ensures var s' := StoredRefreshToken(env, s, refreshToken);
      s'.refreshTokenSubject == Some(refreshToken) && ReadRefreshToken(env, s') == Some(refreshToken)
  {
    EncryptedSucceeds(env, refreshToken);
    EncryptedNonEmpty(env, refreshToken);
    DecryptEncrypted(env, refreshToken);
  }

  /**
   * The state after construction (`initializeTokens`): read both entries, publish a truthy
   * access token and a truthy refresh token.
   */
  function Initialized(env: Platform, session: map<string, JsStr>): (r: Store)
    ensures r.tokenSubject.Some? ==> Truthy(r.tokenSubject)
    ensures r.refreshTokenSubject.Some? ==> Truthy(r.refreshTokenSubject)
    ensures var read := ReadToken(env, Store(session, None, None));
      && r.session == read.after.session
      && r.tokenSubject == (if Truthy(read.token) then read.token else None)
      && r.refreshTokenSubject == (if Truthy(ReadRefreshToken(env, read.after)) then ReadRefreshToken(env, read.after) else None)
  {
    var read := ReadToken(env, Store(session, None, None));
    var refresh := ReadRefreshToken(env, read.after);
    var s1 := if Truthy(read.token) && IsValidJWT(read.token.value) then read.after.(tokenSubject := read.token)
              else read.after;
    if Truthy(refresh) then s1.(refreshTokenSubject := refresh) else s1
  }

  /**
   * A reload after both tokens were stored: the new service publishes both tokens again and
   * keeps sessionStorage as it was.
   */
  lemma {:induction false} ReloadRestoresSubjects(env: Platform, s: Store, token: JsStr, refreshToken: JsStr)
    requires Base64Laws(env) && EncryptionKey(env).Some?
    requires Latin1(token) && |token| > 0 && Latin1(refreshToken) && |refreshToken| > 0
    ensures var stored := StoredRefreshToken(env, StoredToken(env, s, token), refreshToken);
      var r := Initialized(env, stored.session);
      r.session == stored.session && r.tokenSubject == Some(token) && r.refreshTokenSubject == Some(refreshToken)
  {
    EncryptedSucceeds(env, token);
    EncryptedNonEmpty(env, token);
    DecryptEncrypted(env, token);
    EncryptedSucceeds(env, refreshToken);
    EncryptedNonEmpty(env, refreshToken);
    DecryptEncrypted(env, refreshToken);
  }

  // ---------------------------------------------------------------- inspector

  /** `isTokenExpired`: expired unless it decodes with a truthy `exp` that is not before `now`. */
  function IsTokenExpired(env: Platform, token: JsStr, now: int): (r: bool)
    ensures r <==> LiveExp(env, token).None? || LiveExp(env, token).value < now
  {
    if !IsValidJWT(token) then true
    else
      match env.jwtDecode(token)
      case None => true
      case Some(claims) =>
        if claims.exp.None? || claims.exp.value == 0 then true
        else claims.exp.value < now
  }

  /** `isTokenExpiringSoon` on the token read from storage. */
  function ExpiringSoon(env: Platform, token: Option<JsStr>, now: int): (r: bool)
    ensures !Truthy(token) ==> r
    ensures Truthy(token) ==> (r <==> LiveExp(env, token.value).None? || LiveExp(env, token.value).value - now < SoonWindow)
  {
    if !Truthy(token) || !IsValidJWT(token.value) then true
    else
      match env.jwtDecode(token.value)
      case None => true
      case Some(claims) =>
        if claims.exp.None? || claims.exp.value == 0 then true
        else claims.exp.value - now < SoonWindow
  }

  /** `getTokenTimeRemaining` on the token read from storage, in seconds. */
  function TimeRemaining(env: Platform, token: Option<JsStr>, now: int): (r: int)
    ensures r >= 0
    ensures !Truthy(token) ==> r == 0
    ensures Truthy(token) && LiveExp(env, token.value).None? ==> r == 0
    ensures Truthy(token) && LiveExp(env, token.value).Some? ==> r >= LiveExp(env, token.value).value - now
    ensures r > 0 ==> r == LiveExp(env, token.value).value - now
  {
    if !Truthy(token) || !IsValidJWT(token.value) then 0
    else
      match env.jwtDecode(token.value)
      case None => 0
      case Some(claims) =>
        if claims.exp.None? || claims.exp.value == 0 then 0
        else if claims.exp.value - now > 0 then claims.exp.value - now else 0
  }

  /** A token is "not expiring soon" exactly when at least five minutes remain. */
  lemma NotExpiringSoonIffTimeLeft(env: Platform, token: Option<JsStr>, now: int)
    ensures !ExpiringSoon(env, token, now) <==> TimeRemaining(env, token, now) >= SoonWindow
  {
  }

  /** Time left implies a present token that is not expired; `exp == now` is not yet expired. */
  lemma TimeLeftMeansLive(env: Platform, token: Option<JsStr>, now: int)
    ensures TimeRemaining(env, token, now) > 0 ==> Truthy(token) && !IsTokenExpired(env, token.value, now)
    ensures Truthy(token) && LiveExp(env, token.value) == Some(now) ==> !IsTokenExpired(env, token.value, now)
  {
  }

  // ---------------------------------------------------------------- policy

  /** A boolean answer together with the state the check leaves behind. */
  datatype Check = Check(result: bool, after: Store)

  /**
   * `detectSuspiciousActivity`: the stored token is read first (a corrupt one is cleared), then the
   * environment; since `isValidJWT` accepts everything, only an insecure environment trips it.
   */
  function SuspiciousActivity(env: Platform, s: Store): (r: Check)
    ensures r.result <==> !IsSecureEnvironment(env)
    ensures r.after == ReadToken(env, s).after
  {
    var read := ReadToken(env, s);
    if Truthy(read.token) && !IsValidJWT(read.token.value) then Check(true, read.after)
    else if !IsSecureEnvironment(env) then Check(true, read.after)
    else Check(false, read.after)
  }

  /** `isTokenValid`: a stored token that passes `isValidJWT` and is not expired. */
  function TokenValid(env: Platform, s: Store, now: int): (r: Check)
    ensures r.after == ReadToken(env, s).after
    ensures r.result <==> Truthy(ReadToken(env, s).token) && !IsTokenExpired(env, ReadToken(env, s).token.value, now)
  {
    var read := ReadToken(env, s);
    if !Truthy(read.token) then Check(false, read.after)
    else Check(IsValidJWT(read.token.value) && !IsTokenExpired(env, read.token.value, now), read.after)
  }

  /** What `logoutOnExpiration` decides. */
  datatype LogoutPlan = ClearedNow | LogoutTimer(delaySeconds: int) | NoTimer

  /** With a usable token, a logout timer is armed for the remaining time, only when some remains. */
  function LogoutDecision(left: int): (plan: LogoutPlan)
    ensures plan.LogoutTimer? <==> left > 0
    ensures plan.LogoutTimer? ==> plan.delaySeconds == left
    ensures !plan.ClearedNow?
  {
    if left > 0 then LogoutTimer(left) else NoTimer
  }

  // ---------------------------------------------------------------- service

  class SecurityService {
    const env: Platform
    var session: map<string, JsStr>
    var tokenSubject: Option<JsStr>
    var refreshTokenSubject: Option<JsStr>

    function State(): Store
      reads this
    {
      Store(session, tokenSubject, refreshTokenSubject)
    }

    /** The service over the sessionStorage found at start-up (`initializeTokens`). */
    constructor(env: Platform, session: map<string, JsStr>)
      ensures this.env == env
      ensures State() == Initialized(env, session)
    {
      this.env := env;
      this.session := session;
      tokenSubject := None;
      refreshTokenSubject := None;
      new;
      var token := GetSecureToken();
      var refreshToken := GetSecureRefreshToken();
      if Truthy(token) && IsValidJWT(token.value) {
        tokenSubject := token;
      }
      if Truthy(refreshToken) {
        refreshTokenSubject := refreshToken;
      }
    }

    function GetEncryptionKey(): (key: Option<JsStr>)
      ensures key == EncryptionKey(env)
    {
      EncryptionKey(env)
    }

    method EncryptToken(token: JsStr) returns (encrypted: Option<JsStr>)
      ensures encrypted == Encrypted(env, token)
    {
      var key := GetEncryptionKey();
      if key.None? {
        return None;
      }
      var k := key.value;
      var scrambled: JsStr := [];
      for i := 0 to |token|
        invariant |scrambled| == i
        invariant forall j :: 0 <= j < i ==> scrambled[j] == token[j] ^ KeyUnit(k, j)
      {
        scrambled := scrambled + [token[i] ^ KeyUnit(k, i)];
      }
      assert scrambled == Xor(token, k);
      encrypted := env.btoa(scrambled);
    }

    method DecryptToken(stored: JsStr) returns (decrypted: Option<JsStr>)
      ensures decrypted == Decrypted(env, stored)
    {
      var key := GetEncryptionKey();
      if key.None? {
        return None;
      }
      var k := key.value;
      var decoded := env.atob(stored);
      if decoded.None? {
        return None;
      }
      var d := decoded.value;
      var plain: JsStr := [];
      for i := 0 to |d|
        invariant |plain| == i
        invariant forall j :: 0 <= j < i ==> plain[j] == d[j] ^ KeyUnit(k, j)
      {
        plain := plain + [d[i] ^ KeyUnit(k, i)];
      }
      assert plain == Xor(d, k);
      decrypted := Some(plain);
    }

    method SetSecureToken(token: JsStr)
      modifies this
      ensures State() == StoredToken(env, old(State()), token)
    {
      if IsValidJWT(token) {
        var encrypted := EncryptToken(token);
        if encrypted.Some? {
          session := session[TokenKey := encrypted.value];
          tokenSubject := Some(token);
        }
      }
    }

    method GetSecureToken() returns (token: Option<JsStr>)
      modifies this
      ensures token == ReadToken(env, old(State())).token
      ensures State() == ReadToken(env, old(State())).after
    {
      var stored := Lookup(session, TokenKey);
      if !Truthy(stored) {
        return None;
      }
      token := DecryptToken(stored.value);
      if token.None? {
        ClearAllTokens();
      }
    }

    method SetSecureRefreshToken(refreshToken: JsStr)
      modifies this
      ensures State() == StoredRefreshToken(env, old(State()), refreshToken)
    {
      var encrypted := EncryptToken(refreshToken);
      if encrypted.Some? {
        session := session[RefreshTokenKey := encrypted.value];
        refreshTokenSubject := Some(refreshToken);
      }
    }

    method GetSecureRefreshToken() returns (refreshToken: Option<JsStr>)
      ensures refreshToken == ReadRefreshToken(env, State())
    {
      var stored := Lookup(session, RefreshTokenKey);
      if !Truthy(stored) {
        return None;
      }
      refreshToken := DecryptToken(stored.value);
    }

    method ClearAllTokens()
      modifies this
      ensures State() == Cleared(old(State()))
    {
      session := session - {TokenKey, RefreshTokenKey};
      tokenSubject := None;
      refreshTokenSubject := None;
    }

    method IsTokenValid(now: int) returns (valid: bool)
      modifies this
      ensures valid == TokenValid(env, old(State()), now).result
      ensures State() == TokenValid(env, old(State()), now).after
    {
      var token := GetSecureToken();
      if !Truthy(token) {
        return false;
      }
      valid := IsValidJWT(token.value) && !IsTokenExpired(env, token.value, now);
    }

    method IsTokenExpiringSoon(now: int) returns (soon: bool)
      modifies this
      ensures soon == ExpiringSoon(env, ReadToken(env, old(State())).token, now)
      ensures State() == ReadToken(env, old(State())).after
    {
      var token := GetSecureToken();
      soon := ExpiringSoon(env, token, now);
    }

    method GetTokenTimeRemaining(now: int) returns (seconds: int)
      modifies this
      ensures seconds == TimeRemaining(env, ReadToken(env, old(State())).token, now)
      ensures State() == ReadToken(env, old(State())).after
    {
      var token := GetSecureToken();
      seconds := TimeRemaining(env, token, now);
    }

    method LogoutOnExpiration(now: int) returns (plan: LogoutPlan)
      modifies this
      ensures !Truthy(ReadToken(env, old(State())).token) ==>
        plan == ClearedNow && State() == Cleared(ReadToken(env, old(State())).after)
      ensures Truthy(ReadToken(env, old(State())).token) ==>
        State() == ReadToken(env, old(State())).after &&
        plan == LogoutDecision(TimeRemaining(env, ReadToken(env, old(State())).token, now))
    {
      var token := GetSecureToken();
      if !Truthy(token) || !IsValidJWT(token.value) {
        ClearAllTokens();
        return ClearedNow;
      }
      var left := GetTokenTimeRemaining(now);
      plan := LogoutDecision(left);
    }

    predicate IsSecure(): (r: bool)
      reads this
      ensures r <==> IsSecureEnvironment(env)
    {
      IsSecureEnvironment(env)
    }

    method DetectSuspiciousActivity() returns (suspicious: bool)
      modifies this
      ensures suspicious == SuspiciousActivity(env, old(State())).result
      ensures State() == SuspiciousActivity(env, old(State())).after
    {
      var token := GetSecureToken();
      if Truthy(token) && !IsValidJWT(token.value) {
        return true;
      }
      if !IsSecure() {
        return true;
      }
      return false;
    }
  }
}
