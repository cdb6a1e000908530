/** A reading of the clock, as `Date.now()` and the local fields of `new Date()` give it. */
module Relogio {
  import opened Text

  /** `epochMs` is `Date.now()`; `mes` is `getMonth() + 1`; the rest are the local calendar fields. */
  datatype Instante = Instante(epochMs: nat, ano: nat, mes: nat, dia: nat, hora: nat, minuto: nat, segundo: nat)

  /** A reading a real clock can give, in the years that have four digits. */
  predicate Valido(t: Instante) {
    1000 <= t.ano <= 9999 && 1 <= t.mes <= 12 && 1 <= t.dia <= 31 &&
    t.hora <= 23 && t.minuto <= 59 && t.segundo <= 59
  }

  /** `n.toString().padStart(2, '0')`. */
  function Dois(n: nat): string
  {
    PadStart(NatToString(n), 2, '0')
  }

  /** `n.toString().padStart(k, '0')`. */
  function ComZeros(n: nat, k: nat): string
  {
    PadStart(NatToString(n), k, '0')
  }

  /** A number below `10^k` padded to `k` is exactly `k` decimal digits that read back as the number. */
  lemma ComZerosDigitos(n: nat, k: nat)
    requires k >= 1 && n < Pow10(k)
    ensures |ComZeros(n, k)| == k && AllDigits(ComZeros(n, k)) && DigitsValue(ComZeros(n, k)) == n
  {
    NatToStringLength(n, k);
    ZerosAEsquerda(n, k);
    var s := NatToString(n);
    var r := ComZeros(n, k);
    forall i | 0 <= i < |r| ensures IsDigit(r[i]) {
      if i >= |r| - |s| {
        assert r[i] == r[|r| - |s|..][i - (|r| - |s|)];
      }
    }
  }

  /** A string of zeros has the value 0, and prefixing zeros keeps a numeral's value. */
  lemma {:induction false} ValorComZeros(z: nat, s: string)
    requires AllDigits(s)
    ensures AllDigits(Repeat('0', z) + s) && DigitsValue(Repeat('0', z) + s) == DigitsValue(s)
    decreases |s|
  {
    var t := Repeat('0', z) + s;
    assert AllDigits(t) by {
      forall i | 0 <= i < |t| ensures IsDigit(t[i]) {
        if i >= z { assert t[i] == s[i - z]; }
      }
    }
    if s == [] {
      assert t == Repeat('0', z);
      ZerosValemZero(z);
    } else {
      var init := s[..|s| - 1];
      assert t[..|t| - 1] == Repeat('0', z) + init;
      ValorComZeros(z, init);
    }
  }

  lemma {:induction false} ZerosValemZero(z: nat)
    ensures AllDigits(Repeat('0', z)) && DigitsValue(Repeat('0', z)) == 0
  {
    if z > 0 {
      assert Repeat('0', z)[..z - 1] == Repeat('0', z - 1);
      ZerosValemZero(z - 1);
    }
  }

  /** Padding with zeros on the left does not change the number a numeral reads as. */
  lemma ZerosAEsquerda(n: nat, k: nat)
    ensures AllDigits(ComZeros(n, k)) && DigitsValue(ComZeros(n, k)) == n
  {
    var s := NatToString(n);
    NatToStringRoundTrip(n);
    if |s| < k {
      ValorComZeros(k - |s|, s);
    }
  }

  lemma DoisDigitos(n: nat)
    requires n < 100
    ensures |Dois(n)| == 2 && AllDigits(Dois(n))
  {
    ComZerosDigitos(n, 2);
  }
}
