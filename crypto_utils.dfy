/** The JavaScript crypto helpers: a guard in front of the native crypto
    provider, and the UUID-version-4-shaped nonce of section 4.4 of RFC 4122. */
module CryptoUtils {
  import opened Wrappers
  import opened HttpTypes

  /** One `(Math.random() * 16) | 0` draw. */
  newtype Nibble = x: int | 0 <= x < 16

  /** The native module's three operations; each resolves or rejects. */
  datatype Provider = Provider(
    encrypt: (string, string) -> Result<string, string>,
    decrypt: (Json, string) -> Result<string, string>,
    sign: (string, int, string) -> Result<string, string>)

  const Unavailable := "Rust crypto module not available"

  /** `encrypt(plaintext, key)`: delegate to the provider, or fail with the
      named error when there is none. */
  function Encrypt(p: Option<Provider>, plaintext: string, key: string): (r: Result<string, string>)
    ensures p.None? ==> r == Err(Unavailable)
    ensures p.Some? ==> r == p.value.encrypt(plaintext, key)
  {
    if p.Some? then p.value.encrypt(plaintext, key) else Err(Unavailable)
  }

  function Decrypt(p: Option<Provider>, ciphertext: Json, key: string): (r: Result<string, string>)
    ensures p.None? ==> r == Err(Unavailable)
    ensures p.Some? ==> r == p.value.decrypt(ciphertext, key)
  {
    if p.Some? then p.value.decrypt(ciphertext, key) else Err(Unavailable)
  }

  function Sign(p: Option<Provider>, data: string, timestamp: int, key: string): (r: Result<string, string>)
    ensures p.None? ==> r == Err(Unavailable)
    ensures p.Some? ==> r == p.value.sign(data, timestamp, key)
  {
    if p.Some? then p.value.sign(data, timestamp, key) else Err(Unavailable)
  }

  /** Without a provider no helper ever yields a value: there is no
      plaintext fallback. */
  lemma NoProviderNoFallback(plaintext: string, ciphertext: Json, data: string, timestamp: int, key: string)
    ensures Encrypt(None, plaintext, key).Err?
    ensures Decrypt(None, ciphertext, key).Err?
    ensures Sign(None, data, timestamp, key).Err?
  {
  }

  /** The template `xxxxxxxx-xxxx-4xxx-yxxx-xxxxxxxxxxxx`, position by position. */
  function Template(): (t: string)
    ensures |t| == 36
    ensures forall i :: 0 <= i < 36 ==> t[i] == TemplateChar(i)
  {
    seq(36, i => TemplateChar(i))
  }

  lemma TemplateText()
    ensures Template() == "xxxxxxxx-xxxx-4xxx-yxxx-xxxxxxxxxxxx"
  {
  }

  /** `v.toString(16)` for one nibble: a digit or a lower-case letter. */
  function HexDigit(v: Nibble): (c: char)
    ensures '0' <= c <= '9' || 'a' <= c <= 'f'
  {
    if v < 10 then ('0' as int + v as int) as char else ('a' as int + v as int - 10) as char
  }

  predicate IsLowerHex(c: char) {
    '0' <= c <= '9' || 'a' <= c <= 'f'
  }

  predicate IsPlaceholder(c: char) {
    c == 'x' || c == 'y'
  }

  /** What the replace callback prints for placeholder `c` given draw `r`:
      `r` for 'x', `(r & 0x3) | 0x8` for 'y'. */
  function PlaceholderValue(c: char, r: Nibble): Nibble {
    if c == 'x' then r else ((((r as bv8) & 0x3) | 0x8) as int) as Nibble
  }

  /** The number of placeholders in `t`, i.e. the draws consumed by it. */
  function Placeholders(t: string): nat {
    if |t| == 0 then 0
    else (if IsPlaceholder(t[|t| - 1]) then 1 else 0) + Placeholders(t[..|t| - 1])
  }

  /** `t.replace(/[xy]/g, callback)`, where the k-th callback invocation
      draws `draw(k)`; `k` counts the placeholders already replaced. */
  function Fill(t: string, k: nat, draw: nat -> Nibble): (r: string)
    ensures |r| == |t|
    decreases |t|
  {
    if |t| == 0 then ""
    else if IsPlaceholder(t[0]) then [HexDigit(PlaceholderValue(t[0], draw(k)))] + Fill(t[1..], k + 1, draw)
    else [t[0]] + Fill(t[1..], k, draw)
  }

  /** `generateNonce()`, given the sequence of random draws. */
  function GenerateNonce(draw: nat -> Nibble): (r: string)
    ensures |r| == 36
  {
    Fill(Template(), 0, draw)
  }

  lemma {:induction false} PlaceholdersCons(c: char, t: string)
    ensures Placeholders([c] + t) == (if IsPlaceholder(c) then 1 else 0) + Placeholders(t)
    decreases |t|
  {
    if |t| > 0 {
      var s := [c] + t;
      assert s[..|s| - 1] == [c] + t[..|t| - 1];
      assert s[|s| - 1] == t[|t| - 1];
      PlaceholdersCons(c, t[..|t| - 1]);
    } else {
      assert ([c] + t)[..0] == [];
    }
  }

  /** Each output position is its template character, or the hex digit made
      from the draw numbered by the placeholders before it. */
  lemma {:induction false} FillAt(t: string, k: nat, draw: nat -> Nibble, i: nat)
    requires i < |t|
    ensures Fill(t, k, draw)[i] ==
      if IsPlaceholder(t[i]) then HexDigit(PlaceholderValue(t[i], draw(k + Placeholders(t[..i])))) else t[i]
    decreases |t|
  {
    if i == 0 {
      assert t[..0] == [];
    } else {
      var step := if IsPlaceholder(t[0]) then 1 else 0;
      FillAt(t[1..], k + step, draw, i - 1);
      assert t[..i] == [t[0]] + t[1..][..i - 1];
      PlaceholdersCons(t[0], t[1..][..i - 1]);
    }
  }

  /** The value put in place of 'y' is always 8, 9, 10 or 11: the variant
      bits `10xx`. */
  lemma VariantBits(r: Nibble)
    ensures 8 <= PlaceholderValue('y', r) as int <= 11
    ensures PlaceholderValue('y', r) as int == r as int % 4 + 8
  {
  }

  /** The hex digit printed for a 'y' is '8', '9', 'a' or 'b'. */
  lemma VariantDigit(r: Nibble)
    ensures HexDigit(PlaceholderValue('y', r)) in {'8', '9', 'a', 'b'}
  {
    VariantBits(r);
    var v := PlaceholderValue('y', r);
    if v == 8 { assert HexDigit(v) == '8'; }
    else if v == 9 { assert HexDigit(v) == '9'; }
    else if v == 10 { assert HexDigit(v) == 'a'; }
    else { assert HexDigit(v) == 'b'; }
  }

  /** The template character at each of the 36 positions. */
  function TemplateChar(i: int): char {
    if i in {8, 13, 18, 23} then '-' else if i == 14 then '4' else if i == 19 then 'y' else 'x'
  }

  /** The number of the random draw that fills position `i` of the nonce:
      `i` less the fixed characters (four dashes and the '4') before it. */
  function DrawIndex(i: nat): nat
    requires i <= 36
  {
    i - (if i > 8 then 1 else 0) - (if i > 13 then 1 else 0) - (if i > 14 then 1 else 0)
      - (if i > 18 then 1 else 0) - (if i > 23 then 1 else 0)
  }

  lemma {:induction false} PlaceholdersSnoc(t: string, i: nat)
    requires i < |t|
    ensures Placeholders(t[..i + 1]) == Placeholders(t[..i]) + (if IsPlaceholder(t[i]) then 1 else 0)
  {
    assert t[..i + 1][..i] == t[..i];
  }

  /** `DrawIndex` counts the placeholders of the template before `i`. */
  lemma {:induction false} DrawIndexCounts(i: nat)
    requires i <= 36
    ensures DrawIndex(i) == Placeholders(Template()[..i])
  {
    var j := 0;
    assert Template()[..0] == [];
    while j < i
      invariant j <= i && DrawIndex(j) == Placeholders(Template()[..j])
    {
      PlaceholdersSnoc(Template(), j);
      j := j + 1;
    }
  }

  /** What position `i` of the nonce holds: its template character, or the
      hex digit made from the draw numbered by the placeholders before it. */
  function NonceChar(i: nat, draw: nat -> Nibble): char
    requires i < 36
  {
    var c := TemplateChar(i);
    if IsPlaceholder(c) then HexDigit(PlaceholderValue(c, draw(DrawIndex(i)))) else c
  }

  lemma {:induction false} NonceAt(draw: nat -> Nibble, t: string, i: nat)
    requires t == Template() && i < 36
    ensures GenerateNonce(draw)[i] ==
      if IsPlaceholder(t[i]) then HexDigit(PlaceholderValue(t[i], draw(DrawIndex(i)))) else t[i]
  {
    var p := Placeholders(t[..i]);
    FillAt(t, 0, draw, i);
    assert Fill(t, 0, draw)[i] ==
      if IsPlaceholder(t[i]) then HexDigit(PlaceholderValue(t[i], draw(p))) else t[i];
    DrawIndexCounts(i);
    assert p == DrawIndex(i);
    assert GenerateNonce(draw) == Fill(t, 0, draw);
  }

  /** The nonce is 36 characters, each as `NonceChar` says. */
  lemma {:induction false} NonceChars(draw: nat -> Nibble)
    ensures |GenerateNonce(draw)| == 36
    ensures forall i :: 0 <= i < 36 ==> GenerateNonce(draw)[i] == NonceChar(i, draw)
  {
    var t := Template();
    forall i | 0 <= i < 36 ensures GenerateNonce(draw)[i] == NonceChar(i, draw) {
      NonceAt(draw, t, i);
    }
  }

  /** The nonce is 36 characters, dashes at 8, 13, 18 and 23, the version
      digit '4' at 14, one of '8', '9', 'a', 'b' at 19, and every other
      character the lower-case hex digit of its own random draw. */
  lemma {:induction false} NonceLayout(draw: nat -> Nibble)
    ensures |GenerateNonce(draw)| == 36
    ensures forall i :: i in {8, 13, 18, 23} ==> GenerateNonce(draw)[i] == '-'
    ensures GenerateNonce(draw)[14] == '4'
    ensures GenerateNonce(draw)[19] in {'8', '9', 'a', 'b'}
    ensures forall i :: 0 <= i < 36 && TemplateChar(i) == 'x' ==>
      GenerateNonce(draw)[i] == HexDigit(draw(DrawIndex(i))) && IsLowerHex(GenerateNonce(draw)[i])
  {
    NonceChars(draw);
    var n := GenerateNonce(draw);
    forall i | i in {8, 13, 18, 23} ensures n[i] == '-' {
      assert 0 <= i < 36 && n[i] == NonceChar(i, draw);
    }
    assert n[14] == NonceChar(14, draw);
    var r := draw(DrawIndex(19));
    assert n[19] == HexDigit(PlaceholderValue('y', r)) by { assert n[19] == NonceChar(19, draw); }
    VariantDigit(r);
    forall i | 0 <= i < 36 && TemplateChar(i) == 'x'
      ensures n[i] == HexDigit(draw(DrawIndex(i)))
    {
      assert n[i] == NonceChar(i, draw);
    }
  }

  /** Different random positions of the nonce consume different draws. */
  lemma DistinctDraws(i: nat, j: nat)
    requires i < j < 36 && IsPlaceholder(TemplateChar(i)) && IsPlaceholder(TemplateChar(j))
    ensures DrawIndex(i) < DrawIndex(j)
  {
  }
}
