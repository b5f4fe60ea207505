/** The native crypto library: the integrity-key gate, key derivation, the
    tampering and timestamp checks, the replay log, nonce-and-ciphertext
    framing, and the encrypted key/value store. The three globals are the
    fields of one `CryptoModule`; AES-256-GCM, HMAC-SHA256 and base64 are
    the fields of a `Primitives` value; the clock and the random generator
    are parameters. Text crosses the interface as its UTF-8 bytes. */
module RustCrypto {
  import opened Wrappers
  import opened Text

  newtype Byte = x: int | 0 <= x < 256

  const U64: int := 0x1_0000_0000_0000_0000
  newtype U64Int = x: int | 0 <= x < 0x1_0000_0000_0000_0000
  const I64Min: int := -0x8000_0000_0000_0000
  newtype I64Int = x: int | -0x8000_0000_0000_0000 <= x < 0x8000_0000_0000_0000

  type Nonce = s: seq<Byte> | |s| == 12 witness [0, 0, 0, 0, 0, 0, 0, 0, 0, 0, 0, 0]

  /** The foreign primitives: AES-256-GCM under a key and a nonce (`None` is
      a cipher error), HMAC-SHA256 over the data and the little-endian
      timestamp, standard base64, and the UTF-8 validity test. */
  datatype Primitives = Primitives(
    aesEncrypt: (seq<Byte>, Nonce, seq<Byte>) -> Option<seq<Byte>>,
    aesDecrypt: (seq<Byte>, Nonce, seq<Byte>) -> Option<seq<Byte>>,
    hmac: (seq<Byte>, seq<Byte>, int) -> seq<Byte>,
    base64Encode: seq<Byte> -> seq<Byte>,
    base64Decode: seq<Byte> -> Option<seq<Byte>>,
    validUtf8: seq<Byte> -> bool)

  // ---------------------------------------------------------------------
  // Key derivation

  /** `derive_key`: the first `min(len, 32)` bytes of the key text, then
      zeros up to 32 bytes. */
  function DerivedKey(keyText: seq<Byte>): (k: seq<Byte>)
    ensures |k| == 32
    ensures forall i :: 0 <= i < 32 ==> k[i] == if i < |keyText| then keyText[i] else 0
  {
    if |keyText| >= 32 then keyText[..32] else keyText + seq(32 - |keyText|, _ => 0 as Byte)
  }

  /** Only the first 32 bytes of a key text matter: two texts that agree
      there derive the same key, and a text of at most 32 bytes is
      recovered from its key by dropping the zero padding. */
  lemma DerivedKeyTruncates(a: seq<Byte>, b: seq<Byte>)
    requires |a| >= 32 && |b| >= 32 && a[..32] == b[..32]
    ensures DerivedKey(a) == DerivedKey(b)
  {
  }

  lemma DerivedKeyRecovers(keyText: seq<Byte>)
    requires |keyText| <= 32
    ensures DerivedKey(keyText)[..|keyText|] == keyText
  {
  }

  /** `derive_key`, copying into a zeroed 32-byte array. */
  method DeriveKey(keyText: seq<Byte>) returns (key: array<Byte>)
    ensures fresh(key) && key[..] == DerivedKey(keyText)
  {
    key := new Byte[32](_ => 0);
    var len := if |keyText| < 32 then |keyText| else 32;
    var i := 0;
    while i < len
      invariant 0 <= i <= len && key.Length == 32
      invariant forall j :: 0 <= j < i ==> key[j] == keyText[j]
      invariant forall j :: i <= j < 32 ==> key[j] == 0
    {
      key[i] := keyText[i];
      i := i + 1;
    }
  }

  // ---------------------------------------------------------------------
  // Input checks

  /** "<script>", "javascript:" and "eval(" as bytes. */
  const ScriptTag: seq<Byte> := [0x3c, 0x73, 0x63, 0x72, 0x69, 0x70, 0x74, 0x3e]
  const JavascriptScheme: seq<Byte> := [0x6a, 0x61, 0x76, 0x61, 0x73, 0x63, 0x72, 0x69, 0x70, 0x74, 0x3a]
  const EvalCall: seq<Byte> := [0x65, 0x76, 0x61, 0x6c, 0x28]
  const MaxInputLength := 1_000_000

  /** `detect_tampering`: one of the three markers occurs somewhere, or the
      input is longer than 1 000 000 bytes. */
  function DetectTampering(data: seq<Byte>): (r: bool)
    ensures r <==> (exists i :: OccursAt(data, ScriptTag, i)) || (exists i :: OccursAt(data, JavascriptScheme, i))
                   || (exists i :: OccursAt(data, EvalCall, i)) || |data| > MaxInputLength
  {
    ContainsIffOccurs(data, ScriptTag);
    ContainsIffOccurs(data, JavascriptScheme);
    ContainsIffOccurs(data, EvalCall);
    Contains(data, ScriptTag) || Contains(data, JavascriptScheme) || Contains(data, EvalCall) || |data| > MaxInputLength
  }

  /** The intended freshness rule of `verify_timestamp`: the timestamp is at
      most 300 seconds away from now, in either direction. */
  function VerifyTimestamp(now: int, timestamp: int): (ok: bool)
    ensures ok <==> now - 300 <= timestamp <= now + 300
  {
    var diff := now - timestamp;
    (if diff < 0 then -diff else diff) <= 300
  }

  /** Two's-complement 64-bit wrap-around of an integer. */
  function WrapI64(x: int): (r: int)
    ensures I64Min <= r < -I64Min && (r - x) % U64 == 0
  {
    (x - I64Min) % U64 + I64Min
  }

  /** `verify_timestamp` as compiled in a release build: the subtraction
      and `abs` both wrap around on overflow. */
  function VerifyTimestampAsWritten(now: I64Int, timestamp: I64Int): (ok: bool)
    ensures VerifyTimestamp(now as int, timestamp as int) ==> ok
  {
    var diff := WrapI64(now as int - timestamp as int);
    (if diff < 0 then WrapI64(-diff) else diff) <= 300
  }

  /** The release build accepts a timestamp 2^63 seconds in the past: the
      difference wraps to `i64::MIN`, whose `abs` is itself, negative. */
  lemma TimestampWrapAccepted(now: I64Int)
    requires now >= 0
    ensures VerifyTimestampAsWritten(now, (now as int + I64Min) as I64Int)
    ensures !VerifyTimestamp(now as int, now as int + I64Min)
  {
    assert WrapI64(-I64Min) == I64Min;
  }

  /** For any clock reading below 2^62 seconds, that is the only timestamp
      on which the release build and the intended rule disagree. */
  lemma TimestampOnlyWrapDiffers(now: I64Int, timestamp: I64Int)
    requires 0 <= now < 0x4000_0000_0000_0000
    ensures VerifyTimestampAsWritten(now, timestamp) <==>
      VerifyTimestamp(now as int, timestamp as int) || timestamp as int == now as int + I64Min
  {
    var d := now as int - timestamp as int;
    if d < -I64Min {
      assert WrapI64(d) == d;
      if d < 0 {
        assert WrapI64(-d) == -d;
      }
    } else {
      assert WrapI64(d) == d - U64;
      if d - U64 != I64Min {
        assert WrapI64(U64 - d) == U64 - d;
      }
    }
  }

  // ---------------------------------------------------------------------
  // The replay log

  datatype LogEntry = LogEntry(operation: string, time: U64Int)

  /** `now - time` on `u64`, wrapping in a release build. */
  function Age(now: U64Int, time: U64Int): (a: int)
    ensures 0 <= a < U64
    ensures time <= now ==> a == now as int - time as int
    ensures time > now ==> a == U64 - (time as int - now as int)
  {
    (now as int - time as int) % U64
  }

  /** `log.retain(|(_, time)| now - time < 60)`. */
  function Pruned(log: seq<LogEntry>, now: U64Int): (kept: seq<LogEntry>)
    ensures |kept| <= |log|
    ensures forall i :: 0 <= i < |kept| ==> Age(now, kept[i].time) < 60
    decreases |log|
  {
    if |log| == 0 then []
    else Pruned(log[..|log| - 1], now) + if Age(now, log[|log| - 1].time) < 60 then [log[|log| - 1]] else []
  }

  /** The number of entries for `operation` less than a second old. */
  function RecentCount(log: seq<LogEntry>, operation: string, now: U64Int): (n: nat)
    ensures n <= |log|
    decreases |log|
  {
    if |log| == 0 then 0
    else RecentCount(log[..|log| - 1], operation, now)
         + if log[|log| - 1].operation == operation && Age(now, log[|log| - 1].time) < 1 then 1 else 0
  }

  /** Pruning keeps exactly the entries younger than 60 seconds. */
  lemma {:induction false} PrunedMembers(log: seq<LogEntry>, now: U64Int, e: LogEntry)
    ensures e in Pruned(log, now) <==> e in log && Age(now, e.time) < 60
    decreases |log|
  {
    if |log| > 0 {
      PrunedMembers(log[..|log| - 1], now, e);
      assert log == log[..|log| - 1] + [log[|log| - 1]];
    }
  }

  /** Pruning distributes over concatenation, so the kept entries stay in
      their original order. */
  lemma {:induction false} PrunedConcat(a: seq<LogEntry>, b: seq<LogEntry>, now: U64Int)
    ensures Pruned(a + b, now) == Pruned(a, now) + Pruned(b, now)
    decreases |b|
  {
    if |b| == 0 {
      assert a + b == a;
    } else {
      var b' := b[..|b| - 1];
      assert (a + b)[..|a + b| - 1] == a + b';
      assert (a + b)[|a + b| - 1] == b[|b| - 1];
      PrunedConcat(a, b', now);
    }
  }

  /** Pruning twice is pruning once. */
  lemma {:induction false} PrunedIdempotent(log: seq<LogEntry>, now: U64Int)
    ensures Pruned(Pruned(log, now), now) == Pruned(log, now)
    decreases |log|
  {
    if |log| > 0 {
      var init := log[..|log| - 1];
      var last := log[|log| - 1];
      PrunedIdempotent(init, now);
      var tail := if Age(now, last.time) < 60 then [last] else [];
      PrunedConcat(Pruned(init, now), tail, now);
      if Age(now, last.time) < 60 {
        assert [last][..0] == [];
      }
    }
  }

  /** Pruning never removes an entry the replay count looks at. */
  lemma {:induction false} PruningKeepsRecent(log: seq<LogEntry>, operation: string, now: U64Int)
    ensures RecentCount(Pruned(log, now), operation, now) == RecentCount(log, operation, now)
    decreases |log|
  {
    if |log| > 0 {
      var init := log[..|log| - 1];
      var last := log[|log| - 1];
      PruningKeepsRecent(init, operation, now);
      if Age(now, last.time) < 60 {
        var p := Pruned(log, now);
        assert p[..|p| - 1] == Pruned(init, now);
      } else {
        assert Pruned(log, now) == Pruned(init, now);
      }
    }
  }

  /** `log.retain(..)`: keep, in order, the entries younger than 60 seconds. */
  method RetainYoung(log: seq<LogEntry>, now: U64Int) returns (kept: seq<LogEntry>)
    ensures kept == Pruned(log, now)
  {
    kept := [];
    var i := 0;
    while i < |log|
      invariant 0 <= i <= |log|
      invariant kept == Pruned(log[..i], now)
    {
      assert log[..i + 1][..i] == log[..i];
      if Age(now, log[i].time) < 60 {
        kept := kept + [log[i]];
      }
      i := i + 1;
    }
    assert log[..i] == log;
  }

  /** The `filter(..).count()` over the pruned log. */
  method CountRecent(log: seq<LogEntry>, operation: string, now: U64Int) returns (count: nat)
    ensures count == RecentCount(log, operation, now)
  {
    count := 0;
    var j := 0;
    while j < |log|
      invariant 0 <= j <= |log|
      invariant count == RecentCount(log[..j], operation, now)
    {
      assert log[..j + 1][..j] == log[..j];
      if log[j].operation == operation && Age(now, log[j].time) < 1 {
        count := count + 1;
      }
      j := j + 1;
    }
    assert log[..j] == log;
  }

  /** With a clock that never went backwards, "less than a second old"
      means stamped in the current second. */
  lemma RecentMeansThisSecond(now: U64Int, e: LogEntry)
    requires e.time <= now
    ensures Age(now, e.time) < 1 <==> e.time == now
    ensures Age(now, e.time) < 60 <==> now as int - e.time as int < 60
  {
  }

  // ---------------------------------------------------------------------
  // Framing

  /** The encrypted value before base64: nonce, then ciphertext. */
  function Frame(nonce: Nonce, ciphertext: seq<Byte>): (data: seq<Byte>)
    ensures |data| == 12 + |ciphertext| && data[..12] == nonce
  {
    nonce + ciphertext
  }

  /** `data.split_at(12)`, after rejecting data shorter than 12 bytes. */
  function Unframe(data: seq<Byte>): (r: Option<(Nonce, seq<Byte>)>)
    ensures r.Some? ==> |r.value.1| == |data| - 12 && data[..12] == r.value.0
  {
    if |data| < 12 then None else Some((data[..12], data[12..]))
  }

  lemma FrameRoundTrip(nonce: Nonce, ciphertext: seq<Byte>)
    ensures Unframe(Frame(nonce, ciphertext)) == Some((nonce, ciphertext))
  {
    assert Frame(nonce, ciphertext)[..12] == nonce;
    assert Frame(nonce, ciphertext)[12..] == ciphertext;
  }

  lemma UnframeRoundTrip(data: seq<Byte>)
    ensures Unframe(data).None? <==> |data| < 12
    ensures Unframe(data).Some? ==> Frame(Unframe(data).value.0, Unframe(data).value.1) == data
  {
  }

  /** `encrypt_internal` with the random nonce `nonce` (`None` when the
      generator fails). */
  function EncryptInternal(plaintext: seq<Byte>, keyText: seq<Byte>, nonce: Option<Nonce>, p: Primitives): (r: Result<seq<Byte>, string>)
    ensures r.Err? <==> nonce.None? || p.aesEncrypt(DerivedKey(keyText), nonce.value, plaintext).None?
    ensures r.Err? ==> r.error == (if nonce.None? then "RNG failure" else "Encryption failed")
  {
    if nonce.None? then Err("RNG failure")
    else match p.aesEncrypt(DerivedKey(keyText), nonce.value, plaintext)
      case None => Err("Encryption failed")
      case Some(ciphertext) => Ok(p.base64Encode(Frame(nonce.value, ciphertext)))
  }

  /** `decrypt_internal`. */
  function DecryptInternal(encrypted: seq<Byte>, keyText: seq<Byte>, p: Primitives): (r: Result<seq<Byte>, string>)
    ensures r.Ok? ==> p.validUtf8(r.value)
    ensures r.Err? ==> r.error in {"Invalid base64", "Invalid data", "Decryption failed", "Invalid UTF-8"}
    ensures p.base64Decode(encrypted).None? ==> r == Err("Invalid base64")
  {
    match p.base64Decode(encrypted)
    case None => Err("Invalid base64")
    case Some(data) =>
      match Unframe(data)
      case None => Err("Invalid data")
      case Some((nonce, ciphertext)) =>
        match p.aesDecrypt(DerivedKey(keyText), nonce, ciphertext)
        case None => Err("Decryption failed")
        case Some(plaintext) => if p.validUtf8(plaintext) then Ok(plaintext) else Err("Invalid UTF-8")
  }

  /** The primitives behave as their standards require on this input. */
  ghost predicate Sound(p: Primitives, key: seq<Byte>, nonce: Nonce, plaintext: seq<Byte>) {
    && (forall b :: p.base64Decode(p.base64Encode(b)) == Some(b))
    && p.aesEncrypt(key, nonce, plaintext).Some?
    && p.aesDecrypt(key, nonce, p.aesEncrypt(key, nonce, plaintext).value) == Some(plaintext)
    && p.validUtf8(plaintext)
  }

  /** Decrypting what was encrypted under the same key text gives back the
      plaintext, when the primitives are sound. */
  lemma EncryptDecryptRoundTrip(plaintext: seq<Byte>, keyText: seq<Byte>, nonce: Nonce, p: Primitives)
    requires Sound(p, DerivedKey(keyText), nonce, plaintext)
    ensures EncryptInternal(plaintext, keyText, Some(nonce), p).Ok?
    ensures DecryptInternal(EncryptInternal(plaintext, keyText, Some(nonce), p).value, keyText, p) == Ok(plaintext)
  {
    var ciphertext := p.aesEncrypt(DerivedKey(keyText), nonce, plaintext).value;
    FrameRoundTrip(nonce, ciphertext);
  }

  /** Encrypted data that decodes to fewer than 12 bytes is refused. */
  lemma ShortDataRejected(encrypted: seq<Byte>, keyText: seq<Byte>, p: Primitives)
    requires p.base64Decode(encrypted).Some? && |p.base64Decode(encrypted).value| < 12
    ensures DecryptInternal(encrypted, keyText, p) == Err("Invalid data")
  {
  }

  /** `sign_internal`. */
  function SignInternal(data: seq<Byte>, timestamp: int, keyText: seq<Byte>, p: Primitives): seq<Byte> {
    p.base64Encode(p.hmac(DerivedKey(keyText), data, timestamp))
  }

  /** Key texts that agree on their first 32 bytes sign alike, since only
      the derived key reaches the HMAC. */
  lemma SignKeyTruncates(data: seq<Byte>, timestamp: int, a: seq<Byte>, b: seq<Byte>, p: Primitives)
    requires |a| >= 32 && |b| >= 32 && a[..32] == b[..32]
    ensures SignInternal(data, timestamp, a, p) == SignInternal(data, timestamp, b, p)
  {
    DerivedKeyTruncates(a, b);
  }

  // ---------------------------------------------------------------------
  // The store

  /** "fallback-key-should-not-happen". */
  const FallbackKey: seq<Byte> := [0x66, 0x61, 0x6c, 0x6c, 0x62, 0x61, 0x63, 0x6b, 0x2d, 0x6b, 0x65, 0x79, 0x2d, 0x73, 0x68,
                                   0x6f, 0x75, 0x6c, 0x64, 0x2d, 0x6e, 0x6f, 0x74, 0x2d, 0x68, 0x61, 0x70, 0x70, 0x65, 0x6e]

  /** `get_master_key`: the base64 text of the integrity key. */
  function MasterKey(integrityKey: Option<seq<Byte>>, p: Primitives): (key: seq<Byte>)
    ensures integrityKey.Some? ==> key == p.base64Encode(integrityKey.value)
  {
    if integrityKey.Some? then p.base64Encode(integrityKey.value) else FallbackKey
  }

  type Store = map<seq<Byte>, seq<Byte>>

  /** The map after `insert(name, encrypted)`, created empty first if need be. */
  function Inserted(storage: Option<Store>, name: seq<Byte>, encrypted: seq<Byte>): Store {
    storage.GetOr(map[])[name := encrypted]
  }

  /** What `crypto_get_key(name)` finds under the master key. */
  function Lookup(storage: Option<Store>, name: seq<Byte>, masterKey: seq<Byte>, p: Primitives): Option<seq<Byte>> {
    if storage.Some? && name in storage.value then
      match DecryptInternal(storage.value[name], masterKey, p)
      case Ok(v) => Some(v)
      case Err(_) => None
    else None
  }

  /** Storing a value and reading it back under the same master key gives
      the value (when the primitives are sound), and leaves every other
      name as it was. */
  lemma StoreThenGet(storage: Option<Store>, name: seq<Byte>, value: seq<Byte>, other: seq<Byte>, masterKey: seq<Byte>, nonce: Nonce, p: Primitives)
    requires Sound(p, DerivedKey(masterKey), nonce, value)
    ensures var encrypted := EncryptInternal(value, masterKey, Some(nonce), p).value;
      && Lookup(Some(Inserted(storage, name, encrypted)), name, masterKey, p) == Some(value)
      && (other != name ==> Lookup(Some(Inserted(storage, name, encrypted)), other, masterKey, p) == Lookup(storage, other, masterKey, p))
  {
    EncryptDecryptRoundTrip(value, masterKey, nonce, p);
  }

  /** A removed name is no longer found; other names are unaffected. */
  lemma RemoveThenGet(storage: Store, name: seq<Byte>, other: seq<Byte>, masterKey: seq<Byte>, p: Primitives)
    ensures Lookup(Some(storage - {name}), name, masterKey, p).None?
    ensures other != name ==> Lookup(Some(storage - {name}), other, masterKey, p) == Lookup(Some(storage), other, masterKey, p)
  {
  }

  class CryptoModule {
    var integrityKey: Option<seq<Byte>>
    var storage: Option<Store>
    var requestLog: Option<seq<LogEntry>>

    constructor()
      ensures integrityKey.None? && storage.None? && requestLog.None?
    {
      integrityKey := None;
      storage := None;
      requestLog := None;
    }

    /** `verify_integrity`. */
    predicate VerifyIntegrity()
      reads this
    {
      integrityKey.Some?
    }

    /** `crypto_init` with the generator's output (`None` when it fails):
        the key is set only if it was unset and the generator succeeded. */
    method Init(random: Option<seq<Byte>>) returns (ok: bool)
      requires random.Some? ==> |random.value| == 32
      modifies this
      ensures ok <==> old(integrityKey).None? && random.Some?
      ensures integrityKey == if ok then random else old(integrityKey)
      ensures storage == old(storage) && requestLog == old(requestLog)
    {
      if integrityKey.None? && random.Some? {
        integrityKey := random;
        return true;
      }
      return false;
    }

    /** `log_request(operation)` at `now`. */
    method LogRequest(operation: string, now: U64Int)
      modifies this
      ensures requestLog == Some(old(requestLog).GetOr([]) + [LogEntry(operation, now)])
      ensures integrityKey == old(integrityKey) && storage == old(storage)
    {
      var log := if requestLog.None? then [] else requestLog.value;
      requestLog := Some(log + [LogEntry(operation, now)]);
    }

    /** `detect_replay_attack(operation)` at `now`: prune the log, then
        report whether more than ten recent entries are for `operation`. */
    method DetectReplayAttack(operation: string, now: U64Int) returns (attack: bool)
      modifies this
      ensures requestLog == Some(Pruned(old(requestLog).GetOr([]), now))
      ensures attack <==> RecentCount(old(requestLog).GetOr([]), operation, now) > 10
      ensures integrityKey == old(integrityKey) && storage == old(storage)
    {
      var log := if requestLog.None? then [] else requestLog.value;
      var kept := RetainYoung(log, now);
      requestLog := Some(kept);
      var count := CountRecent(kept, operation, now);
      PruningKeepsRecent(log, operation, now);
      attack := count > 10;
    }

    /** `crypto_encrypt`: refused without the integrity key or on tampered
        input; logged as "encrypt" on success. */
    method Encrypt(plaintext: seq<Byte>, keyText: seq<Byte>, nonce: Option<Nonce>, now: U64Int, p: Primitives) returns (r: Option<seq<Byte>>)
      modifies this
      ensures !old(VerifyIntegrity()) || DetectTampering(plaintext) ==> r.None? && requestLog == old(requestLog)
      ensures old(VerifyIntegrity()) && !DetectTampering(plaintext) ==>
        var e := EncryptInternal(plaintext, keyText, nonce, p);
        && (r.Some? <==> e.Ok?) && (e.Ok? ==> r.value == e.value)
        && requestLog == if e.Ok? then Some(old(requestLog).GetOr([]) + [LogEntry("encrypt", now)]) else old(requestLog)
      ensures integrityKey == old(integrityKey) && storage == old(storage)
    {
      if !VerifyIntegrity() || DetectTampering(plaintext) {
        return None;
      }
      var e := EncryptInternal(plaintext, keyText, nonce, p);
      if e.Err? {
        return None;
      }
      LogRequest("encrypt", now);
      return Some(e.value);
    }

    /** `crypto_decrypt`: refused without the integrity key or when more
        than ten decryptions happened this second; logged as "decrypt" on
        success. The replay check prunes the log even when it refuses. */
    method Decrypt(ciphertext: seq<Byte>, keyText: seq<Byte>, now: U64Int, p: Primitives) returns (r: Option<seq<Byte>>)
      modifies this
      ensures !old(VerifyIntegrity()) ==> r.None? && requestLog == old(requestLog)
      ensures old(VerifyIntegrity()) ==>
        var replay := RecentCount(old(requestLog).GetOr([]), "decrypt", now) > 10;
        var d := DecryptInternal(ciphertext, keyText, p);
        var pruned := Pruned(old(requestLog).GetOr([]), now);
        && (r.Some? <==> !replay && d.Ok?) && (r.Some? ==> r.value == d.value)
        && requestLog == Some(if r.Some? then pruned + [LogEntry("decrypt", now)] else pruned)
      ensures integrityKey == old(integrityKey) && storage == old(storage)
    {
      if !VerifyIntegrity() {
        return None;
      }
      var replay := DetectReplayAttack("decrypt", now);
      if replay {
        return None;
      }
      var d := DecryptInternal(ciphertext, keyText, p);
      if d.Err? {
        return None;
      }
      LogRequest("decrypt", now);
      return Some(d.value);
    }

    /** `crypto_sign` with the clock reading `nowSecs`: refused without the
        integrity key or out of the 300-second window; logged as "sign". */
    method Sign(data: seq<Byte>, timestamp: I64Int, keyText: seq<Byte>, nowSecs: I64Int, now: U64Int, p: Primitives) returns (r: Option<seq<Byte>>)
      modifies this
      ensures r.Some? <==> old(VerifyIntegrity()) && VerifyTimestamp(nowSecs as int, timestamp as int)
      ensures r.Some? ==>
        r.value == SignInternal(data, timestamp as int, keyText, p)
        && requestLog == Some(old(requestLog).GetOr([]) + [LogEntry("sign", now)])
      ensures r.None? ==> requestLog == old(requestLog)
      ensures integrityKey == old(integrityKey) && storage == old(storage)
    {
      if !VerifyIntegrity() || !VerifyTimestamp(nowSecs as int, timestamp as int) {
        return None;
      }
      var signature := SignInternal(data, timestamp as int, keyText, p);
      LogRequest("sign", now);
      return Some(signature);
    }

    /** `crypto_store_key`: encrypt the value under the master key and
        insert it, creating the map on first use. */
    method StoreKey(name: seq<Byte>, value: seq<Byte>, nonce: Option<Nonce>, now: U64Int, p: Primitives) returns (ok: bool)
      modifies this
      ensures var e := EncryptInternal(value, MasterKey(old(integrityKey), p), nonce, p);
        && (ok <==> old(VerifyIntegrity()) && e.Ok?)
        && (ok ==> storage == Some(Inserted(old(storage), name, e.value))
                   && requestLog == Some(old(requestLog).GetOr([]) + [LogEntry("store", now)]))
        && (!ok ==> storage == old(storage) && requestLog == old(requestLog))
      ensures integrityKey == old(integrityKey)
    {
      if !VerifyIntegrity() {
        return false;
      }
      var e := EncryptInternal(value, MasterKey(integrityKey, p), nonce, p);
      if e.Err? {
        return false;
      }
      var m := if storage.None? then map[] else storage.value;
      storage := Some(m[name := e.value]);
      LogRequest("store", now);
      return true;
    }

    /** `crypto_get_key`: the decrypted value stored under the name. */
    method GetKey(name: seq<Byte>, now: U64Int, p: Primitives) returns (r: Option<seq<Byte>>)
      modifies this
      ensures r == if old(VerifyIntegrity()) then Lookup(old(storage), name, MasterKey(old(integrityKey), p), p) else None
      ensures requestLog == if r.Some? then Some(old(requestLog).GetOr([]) + [LogEntry("get", now)]) else old(requestLog)
      ensures integrityKey == old(integrityKey) && storage == old(storage)
    {
      if !VerifyIntegrity() {
        return None;
      }
      r := Lookup(storage, name, MasterKey(integrityKey, p), p);
      if r.Some? {
        LogRequest("get", now);
      }
    }

    /** `crypto_remove_key`: false when the map was never created,
        otherwise delete the name (present or not) and report true. */
    method RemoveKey(name: seq<Byte>, now: U64Int) returns (ok: bool)
      modifies this
      ensures ok <==> old(VerifyIntegrity()) && old(storage).Some?
      ensures ok ==>
        storage == Some(old(storage).value - {name})
        && requestLog == Some(old(requestLog).GetOr([]) + [LogEntry("remove", now)])
      ensures !ok ==> storage == old(storage) && requestLog == old(requestLog)
      ensures integrityKey == old(integrityKey)
    {
      if !VerifyIntegrity() || storage.None? {
        return false;
      }
      storage := Some(storage.value - {name});
      LogRequest("remove", now);
      return true;
    }
  }
}
