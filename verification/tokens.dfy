/** JSON Web Tokens as used by the JWT variant: a claim set, an abstract
    signing codec, and the two registered-claim checks that jose's decoder
    applies to the claims this service issues ("exp" and "sub"). Times are
    whole seconds since the epoch. */
module Tokens {
  import opened Basics

  /** A claim value: text, or a point in time (jose writes a datetime as its
      integer timestamp). */
  datatype Claim = Text(text: string) | Instant(seconds: int)

  type Claims = map<string, Claim>

  /** Signing and parsing with the server's key and algorithm. `parse` fails
      on a bad signature, a foreign algorithm or a malformed token; how is not
      modelled. */
  datatype Codec = Codec(encode: Claims -> string, parse: string -> Option<Claims>)

  /** A token the server signed parses back to exactly the claims it signed. */
  ghost predicate RoundTrips(k: Codec)
  {
    forall c :: k.parse(k.encode(c)) == Some(c)
  }

  predicate IsDigit(ch: char)
  {
    '0' <= ch <= '9'
  }

  predicate AllDigits(s: string)
  {
    forall i :: 0 <= i < |s| ==> IsDigit(s[i])
  }

  /** The number a string of ASCII digits denotes, most significant first. */
  function DigitsValue(s: string): nat
    requires AllDigits(s)
    decreases |s|
  {
    if |s| == 0 then 0 else DigitsValue(s[..|s| - 1]) * 10 + (s[|s| - 1] as int - '0' as int)
  }

  /** Python's `int()` on text, as jose applies it to an "exp" claim: an
      optional sign followed by one or more ASCII digits. */
  function ParseInt(s: string): (r: Option<int>)
    ensures r.Some? <==>
      || (|s| > 1 && (s[0] == '+' || s[0] == '-') && AllDigits(s[1..]))
      || (|s| > 0 && AllDigits(s))
    ensures r.Some? && |s| > 0 && s[0] == '-' ==> r.value <= 0
    ensures r.Some? && |s| > 0 && s[0] != '-' ==> r.value >= 0
  {
    if |s| > 0 && (s[0] == '+' || s[0] == '-') then
      var body := s[1..];
      if |body| > 0 && AllDigits(body) then
        var magnitude: int := DigitsValue(body);
        Some(if s[0] == '-' then -magnitude else magnitude)
      else None
    else if |s| > 0 && AllDigits(s) then Some(DigitsValue(s))
    else None
  }

  /** The decimal numeral of `n`, as `str(n)` writes it. */
  function Decimal(n: nat): (s: string)
    ensures |s| > 0 && AllDigits(s)
  {
    if n < 10 then [('0' as int + n) as char]
    else Decimal(n / 10) + [('0' as int + n % 10) as char]
  }

  lemma {:induction false} DigitsValueDecimal(n: nat)
    ensures DigitsValue(Decimal(n)) == n
  {
    if n >= 10 {
      var s := Decimal(n);
      assert s[..|s| - 1] == Decimal(n / 10);
      DigitsValueDecimal(n / 10);
    }
  }

  /** Reading back the numeral of a natural number gives that number. */
  lemma {:induction false} DecimalRoundTrip(n: nat)
    ensures ParseInt(Decimal(n)) == Some(n)
  {
    DigitsValueDecimal(n);
  }

  /** The expiry an "exp" claim stands for: a timestamp as it is, text when
      it is an integer numeral. */
  function ExpiryOf(v: Claim): Option<int>
  {
    match v
    case Instant(t) => Some(t)
    case Text(s) => ParseInt(s)
  }

  /** jose's checks: an "exp" claim must stand for an integer timestamp not
      before `now` (a token is still good in its expiry second), and a "sub"
      claim must be text. Claims without them pass. */
  predicate Accepted(c: Claims, now: int)
  {
    && ("exp" in c ==> ExpiryOf(c["exp"]).Some? && now <= ExpiryOf(c["exp"]).value)
    && ("sub" in c ==> c["sub"].Text?)
  }

  /** jwt.decode at time `now`: parse, then reject expired claims and a
      non-text subject. */
  function Decode(k: Codec, token: string, now: int): (r: Option<Claims>)
    ensures r.Some? ==> Accepted(r.value, now)
    ensures r.Some? ==> k.parse(token) == r
    ensures k.parse(token).Some? && Accepted(k.parse(token).value, now) ==> r == k.parse(token)
  {
    match k.parse(token)
    case None => None
    case Some(c) => if Accepted(c, now) then Some(c) else None
  }

  /** A token the server signed decodes to its claims exactly while they are
      accepted, and fails once they are not (after expiry, in particular). */
  lemma DecodeEncoded(k: Codec, c: Claims, now: int)
    requires RoundTrips(k)
    ensures Decode(k, k.encode(c), now) == (if Accepted(c, now) then Some(c) else None)
  {
  }

  /** An "exp" written as a decimal numeral counts like the timestamp it
      spells: the claims are accepted up to and including that second. */
  lemma TextExpiryAccepted(c: Claims, n: nat, now: int)
    requires "sub" in c ==> c["sub"].Text?
    ensures Accepted(c["exp" := Text(Decimal(n))], now) <==> now <= n
  {
    DecimalRoundTrip(n);
  }
}
