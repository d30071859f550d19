/** Prices in cents as the product form shows them (`precio.toString()`)
    and reads them back (`parseFloat`). */
module Precio {
  import opened Wrappers
  import opened Text

  /** The decimals of `r` cents, `0 < r < 100`, without trailing zeros. */
  function Decimales(r: nat): (f: string)
    requires 0 < r < 100
    ensures forall i :: 0 <= i < |f| ==> IsDigit(f[i])
    ensures Centavos(f) == r
  {
    if r % 10 == 0 then [Digit(r / 10)] else [Digit(r / 10), Digit(r % 10)]
  }

  /** `precio.toString()` for a price of `c` cents: no trailing zeros in
      the decimals and no point for a whole amount. */
  function PrecioTexto(c: nat): string
  {
    Formato(c / 100, c % 100)
  }

  /** `q` whole units and `r` cents. */
  function Formato(q: nat, r: nat): string
    requires r < 100
  {
    if r == 0 then NatToString(q)
    else NatToString(q) + (['.'] + Decimales(r))
  }

  /** The cents written by the first two decimals. */
  function Centavos(f: string): nat
    requires forall i :: 0 <= i < |f| ==> IsDigit(f[i])
  {
    if |f| == 0 then 0
    else if |f| == 1 then 10 * DigitValue(f[0])
    else 10 * DigitValue(f[0]) + DigitValue(f[1])
  }

  /** An unsigned decimal in cents: the integer digits, then an optional
      point and decimals; `None` when there are no digits at all. */
  function LeerDecimal(body: string): Option<int>
  {
    var w := DigitRun(body);
    var rest := body[|w|..];
    var f := if rest != [] && rest[0] == '.' then DigitRun(rest[1..]) else [];
    if w == [] && f == [] then None else Some(DigitsValue(w) * 100 + Centavos(f))
  }

  function Negar(v: Option<int>): Option<int>
  {
    match v
    case None => None
    case Some(x) => Some(-x)
  }

  /** An optional sign, then an unsigned decimal. */
  function ConSigno(t: string): Option<int>
  {
    if t != [] && t[0] == '-' then Negar(LeerDecimal(t[1..]))
    else if t != [] && t[0] == '+' then LeerDecimal(t[1..])
    else LeerDecimal(t)
  }

  /** `parseFloat(s)` in cents: leading white space, an optional sign, then
      an unsigned decimal. */
  function ParsePrecio(s: string): Option<int>
  {
    ConSigno(TrimStart(s))
  }

  /** An amount starting with a digit is read as it stands. */
  lemma {:induction false} ParseSinSigno(s: string)
    requires s != [] && IsDigit(s[0])
    ensures ParsePrecio(s) == LeerDecimal(s)
  {
    assert TrimStart(s) == s by {
      TrimStartOfTrimmed(s);
    }
    assert ConSigno(s) == LeerDecimal(s);
  }

  /** Reading a whole amount. */
  lemma {:induction false} LeerEntero(w: string, q: nat, c: nat)
    requires w != [] && forall i :: 0 <= i < |w| ==> IsDigit(w[i])
    requires DigitsValue(w) == q && q * 100 == c
    ensures LeerDecimal(w) == Some(c)
  {
    DigitRunStops(w, []);
    assert w + [] == w;
  }

  /** Reading an amount with decimals. */
  lemma {:induction false} LeerConDecimales(w: string, f: string, q: nat, r: nat, c: nat)
    requires w != [] && forall i :: 0 <= i < |w| ==> IsDigit(w[i])
    requires forall i :: 0 <= i < |f| ==> IsDigit(f[i])
    requires DigitsValue(w) == q && Centavos(f) == r && q * 100 + r == c
    ensures LeerDecimal(w + (['.'] + f)) == Some(c)
  {
    var rest := ['.'] + f;
    DigitRunStops(w, rest);
    assert (w + rest)[|w|..] == rest;
    DigitRunStops(f, []);
    assert rest[1..] == f + [];
  }

  /** Reading back `q` whole units and `r` cents. */
  lemma {:induction false} FormatoRoundTrip(q: nat, r: nat, c: nat)
    requires r < 100 && q * 100 + r == c
    ensures ParsePrecio(Formato(q, r)) == Some(c)
  {
    var w := NatToString(q);
    NatToStringValue(q);
    if r == 0 {
      assert Formato(q, r) == w;
      LeerTextoEntero(w, q, c);
    } else {
      var f := Decimales(r);
      assert Formato(q, r) == w + (['.'] + f);
      LeerTextoDecimal(w, f, q, r, c);
    }
  }

  lemma {:induction false} LeerTextoEntero(w: string, q: nat, c: nat)
    requires w != [] && forall i :: 0 <= i < |w| ==> IsDigit(w[i])
    requires DigitsValue(w) == q && q * 100 == c
    ensures ParsePrecio(w) == Some(c)
  {
    ParseSinSigno(w);
    LeerEntero(w, q, c);
  }

  lemma {:induction false} LeerTextoDecimal(w: string, f: string, q: nat, r: nat, c: nat)
    requires w != [] && forall i :: 0 <= i < |w| ==> IsDigit(w[i])
    requires forall i :: 0 <= i < |f| ==> IsDigit(f[i])
    requires DigitsValue(w) == q && Centavos(f) == r && q * 100 + r == c
    ensures ParsePrecio(w + (['.'] + f)) == Some(c)
  {
    var s := w + (['.'] + f);
    assert s[0] == w[0];
    ParseSinSigno(s);
    LeerConDecimales(w, f, q, r, c);
  }

  /** Reading back a rendered price gives the same number of cents. */
  lemma {:induction false} PrecioRoundTrip(c: nat)
    ensures ParsePrecio(PrecioTexto(c)) == Some(c)
  {
    var q, r := c / 100, c % 100;
    Cociente(c, q, r);
    assert PrecioTexto(c) == Formato(q, r);
    FormatoRoundTrip(q, r, c);
  }

  lemma {:induction false} Cociente(c: nat, q: nat, r: nat)
    requires q == c / 100 && r == c % 100
    ensures q * 100 + r == c
  {
  }
}
