/**
  The signed session cookie: "<expiry>.<base64 of the mac over the expiry text>".  The mac is any
  function from text to bytes.
 */
module Session {
  import opened Types
  import opened Base64Numbers
  import opened Base64Url
  import opened Decimal

  type Mac = string -> seq<Byte>

  function Sign(mac: Mac, expiry: int): string {
    var payload := FormatInt(expiry);
    payload + "." + Encode(mac(payload))
  }

  /** The position of the last dot, or -1. */
  function LastDot(s: string): (i: int)
    ensures -1 <= i < |s|
    ensures 0 <= i ==> s[i] == '.'
    ensures forall j :: i < j < |s| ==> s[j] != '.'
  {
    if s == "" then -1
    else if s[|s| - 1] == '.' then |s| - 1
    else LastDot(s[..|s| - 1])
  }

  /** `now` is the wall clock in seconds. */
  predicate Validate(mac: Mac, value: string, now: int) {
    var idx := LastDot(value);
    if idx <= 0 then false
    else
      var payload, sig := value[..idx], value[idx + 1..];
      var got := Decode(sig);
      if got.None? || got.value != mac(payload) then false
      else
        var expiry := ParseInt(payload);
        expiry.Some? && now <= expiry.value
  }

  lemma SplitAtLastDot(payload: string, sig: string)
    requires '.' !in sig
    ensures var value := payload + "." + sig;
            LastDot(value) == |payload| && value[..|payload|] == payload && value[|payload| + 1..] == sig
  {
    var value := payload + "." + sig;
    assert value[|payload|] == '.';
    assert forall j | |payload| < j < |value| :: value[j] == sig[j - |payload| - 1];
  }

  /** A signed cookie is valid exactly until its expiry, for every 64-bit expiry and every key; an
      expiry that is no 64-bit integer would never validate. */
  lemma ValidateSigned(mac: Mac, expiry: int, now: int)
    ensures Validate(mac, Sign(mac, expiry), now) <==> IsInt64(expiry) && now <= expiry
  {
    var payload := FormatInt(expiry);
    ParseFormat(expiry);
    DecodeEncode(mac(payload));
    SplitAtLastDot(payload, Encode(mac(payload)));
  }

  /** Cookies of different expiries differ, whatever keys signed them. */
  lemma SignInjective(mac: Mac, expiry: int, mac': Mac, expiry': int)
    requires IsInt64(expiry) && IsInt64(expiry')
    requires Sign(mac, expiry) == Sign(mac', expiry')
    ensures expiry == expiry'
  {
    var payload, payload' := FormatInt(expiry), FormatInt(expiry');
    DecodeEncode(mac(payload));
    DecodeEncode(mac'(payload'));
    SplitAtLastDot(payload, Encode(mac(payload)));
    SplitAtLastDot(payload', Encode(mac'(payload')));
    ParseFormat(expiry);
    ParseFormat(expiry');
  }

  /** `value` is a text of an expiry not yet past, a dot, and a text which decodes to its mac. */
  ghost predicate Vouches(mac: Mac, value: string, payload: string, sig: string, now: int) {
    && value == payload + "." + sig
    && payload != "" && '.' !in sig
    && Decode(sig) == Some(mac(payload))
    && ParseInt(payload).Some? && now <= ParseInt(payload).value
  }

  /** Exactly which texts validate. */
  lemma ValidateExactly(mac: Mac, value: string, now: int)
    ensures Validate(mac, value, now) <==> exists payload, sig :: Vouches(mac, value, payload, sig, now)
  {
    var idx := LastDot(value);
    if Validate(mac, value, now) {
      assert value == value[..idx] + "." + value[idx + 1..];
      assert Vouches(mac, value, value[..idx], value[idx + 1..], now);
    }
    if payload, sig :| Vouches(mac, value, payload, sig, now) {
      SplitAtLastDot(payload, sig);
    }
  }

  /** What a cookie says: the expiry in decimal digits, a dot, and the mac of that text, spelled in the
      URL-safe alphabet. */
  lemma SignSpells(mac: Mac, expiry: int) returns (text: string, sig: string)
    ensures Sign(mac, expiry) == text + "." + sig
    ensures text == (if expiry < 0 then "-" else "") + FormatNat(if expiry < 0 then -expiry else expiry)
    ensures |sig| == (|mac(text)| * 8 + 5) / 6
    ensures forall i: nat | i < |sig| :: Spells(mac(text), sig, i)
  {
    text, sig := FormatInt(expiry), Encode(mac(FormatInt(expiry)));
    FormatIntSpells(expiry);
    EncodeLength(mac(text));
    forall i: nat | i < |sig| ensures Spells(mac(text), sig, i) {
      EncodeSpells(mac(text), i);
    }
  }

  /** Character `i` is that of the i-th six-bit digit of the bytes. */
  ghost predicate Spells(b: seq<Byte>, sig: string, i: nat) {
    && i < |sig| && Pow(64, |sig| - 1 - i) > 0
    && var digit := DigitAt(Filled(FromBase(b, 256), |b|), |sig|, i);
       0 <= digit < 64 == |URL_SAFE| && sig[i] == URL_SAFE[digit]
  }
}
