/**
 * `getNossoNumero`: the bank's reference number for a boleto, recovered from
 * segment T's raw field by one rule per bank.
 *
 * The codes of Santander, CEF and Sicoob come from the bank catalogue, which
 * is not part of this model; they are the parameter `bancos`. Banco do Brasil
 * is the literal 1.
 */
module NossoNumero {
  import opened Wrappers
  import opened Decimal
  import opened Php

  const BancoDoBrasil: int := 1

  /** The catalogue codes `Banco::SANTANDER`, `Banco::CEF` and `Banco::SICOOB`. */
  datatype Bancos = Bancos(santander: int, cef: int, sicoob: int) {
    /** Four different banks. */
    predicate Valid() {
      santander != cef && santander != sicoob && cef != sicoob
      && BancoDoBrasil !in {santander, cef, sicoob}
    }
  }

  /** The getter returns text, except for the CEF rule, which yields a PHP integer. */
  datatype Numero = Texto(texto: string) | Inteiro(valor: int)

  /**
   * The caller's obligations: Banco do Brasil's convênio is spliced into a
   * regular expression and must match only itself; the CEF rule compares the
   * raw field with a number, so it must be a digit string.
   */
  predicate Admissivel(bancos: Bancos, codigoBanco: int, convenio: string, bruto: string) {
    (codigoBanco == BancoDoBrasil ==> IsRegexLiteral(convenio))
    && (codigoBanco == bancos.cef ==> IsDigits(bruto))
  }

  /**
   * The if/elseif chain of `getNossoNumero`, in its order. Only the CEF
   * branch produces a number, and it has at most seven digits.
   */
  function Normaliza(bancos: Bancos, codigoBanco: int, convenio: string, bruto: string): (r: Numero)
    requires Admissivel(bancos, codigoBanco, convenio, bruto)
    ensures r.Inteiro? ==> codigoBanco == bancos.cef && 0 <= r.valor < 10000000
  {
    if codigoBanco == BancoDoBrasil then
      Texto(PregStripPrefix(convenio, bruto))
    else if InArray(codigoBanco, [bancos.santander]) then
      // the check digit goes
      Texto(Substr(bruto, 0, Some(-1)))
    else if InArray(codigoBanco, [bancos.cef]) then
      assert IsDigits(bruto);
      if Value(bruto) > 9999999 then
        SubstrLast(bruto, 7);
        ValueBound(bruto);
        Pow10Table();
        ValueSuffix(bruto, 7);
        Inteiro(Value(Substr(bruto, -7, None)))
      else Texto(bruto)
    else if InArray(codigoBanco, [bancos.sicoob]) then
      // parcel, modality, form type and blank padding go
      Texto(Substr(bruto, 0, Some(-6)))
    else
      Texto(bruto)
  }

  // ---------------------------------------------------------------------------
  // One lemma per rule

  /** Banco do Brasil: a leading convênio is cut off, and putting it back restores the field. */
  lemma RegraBancoDoBrasil(bancos: Bancos, convenio: string, bruto: string)
    requires IsRegexLiteral(convenio) && Admissivel(bancos, BancoDoBrasil, convenio, bruto)
    ensures var r := Normaliza(bancos, BancoDoBrasil, convenio, bruto);
            r.Texto?
            && (if |convenio| <= |bruto| && bruto[..|convenio|] == convenio
                then convenio + r.texto == bruto && |r.texto| == |bruto| - |convenio|
                else r.texto == bruto)
  {
  }

  /** Santander: exactly the last character (the check digit) is dropped. */
  lemma RegraSantander(bancos: Bancos, convenio: string, bruto: string)
    requires bancos.Valid() && Admissivel(bancos, bancos.santander, convenio, bruto)
    ensures var r := Normaliza(bancos, bancos.santander, convenio, bruto);
            r.Texto?
            && (if bruto == [] then r.texto == []
                else r.texto + [bruto[|bruto| - 1]] == bruto && |r.texto| == |bruto| - 1)
  {
    SubstrDropLast(bruto, 1);
  }

  /**
   * CEF: a value above 9 999 999 keeps only its last seven digits, read as an
   * integer, so the result is that value modulo 10^7 and below 10^7; a smaller
   * value is returned as it stands.
   */
  lemma RegraCef(bancos: Bancos, convenio: string, bruto: string)
    requires bancos.Valid() && Admissivel(bancos, bancos.cef, convenio, bruto)
    ensures IsDigits(bruto)
    ensures var r := Normaliza(bancos, bancos.cef, convenio, bruto);
            if Value(bruto) > 9999999
            then r == Inteiro(Value(bruto) % 10000000) && 0 <= r.valor < 10000000
            else r == Texto(bruto)
  {
    if Value(bruto) > 9999999 {
      Pow10Table();
      ValueBound(bruto);
      SubstrLast(bruto, 7);
      ValueSuffix(bruto, 7);
    }
  }

  /** Sicoob: the last six characters go (a shorter field gives ""). */
  lemma RegraSicoob(bancos: Bancos, convenio: string, bruto: string)
    requires bancos.Valid() && Admissivel(bancos, bancos.sicoob, convenio, bruto)
    ensures var r := Normaliza(bancos, bancos.sicoob, convenio, bruto);
            r.Texto?
            && (if |bruto| < 6 then r.texto == []
                else r.texto + bruto[|bruto| - 6..] == bruto && |r.texto| == |bruto| - 6)
  {
    SubstrDropLast(bruto, 6);
  }

  /** Any other bank: the field is returned untouched. */
  lemma RegraOutros(bancos: Bancos, codigoBanco: int, convenio: string, bruto: string)
    requires codigoBanco !in {BancoDoBrasil, bancos.santander, bancos.cef, bancos.sicoob}
    requires Admissivel(bancos, codigoBanco, convenio, bruto)
    ensures Normaliza(bancos, codigoBanco, convenio, bruto) == Texto(bruto)
  {
  }

  /**
   * Whatever the bank, text never grows, and a number comes only from the CEF
   * rule and is below 10^7.
   */
  lemma NuncaCresce(bancos: Bancos, codigoBanco: int, convenio: string, bruto: string)
    requires bancos.Valid() && Admissivel(bancos, codigoBanco, convenio, bruto)
    ensures var r := Normaliza(bancos, codigoBanco, convenio, bruto);
            (r.Texto? ==> |r.texto| <= |bruto|)
            && (r.Inteiro? ==> codigoBanco == bancos.cef && 0 <= r.valor < 10000000)
  {
    if codigoBanco == BancoDoBrasil {
      RegraBancoDoBrasil(bancos, convenio, bruto);
    } else if codigoBanco == bancos.santander {
      RegraSantander(bancos, convenio, bruto);
    } else if codigoBanco == bancos.cef {
      RegraCef(bancos, convenio, bruto);
    } else if codigoBanco == bancos.sicoob {
      RegraSicoob(bancos, convenio, bruto);
    } else {
      RegraOutros(bancos, codigoBanco, convenio, bruto);
    }
  }

  /** Worked values for Banco do Brasil. */
  lemma ExemplosBancoDoBrasil(bancos: Bancos)
    ensures Normaliza(bancos, BancoDoBrasil, "1234", "12345678") == Texto("5678")
    ensures Normaliza(bancos, BancoDoBrasil, "1234", "99345678") == Texto("99345678")
  {
    RegraBancoDoBrasil(bancos, "1234", "12345678");
    assert "12345678"[..4] == "1234";
    assert "12345678"[4..] == "5678";
    RegraBancoDoBrasil(bancos, "1234", "99345678");
    assert "99345678"[..4] != "1234" by { assert "99345678"[0] != "1234"[0]; }
  }

  /** Worked values for CEF: above 9 999 999 the last seven digits, as an integer. */
  lemma ExemplosCef(bancos: Bancos)
    requires bancos.Valid()
    ensures Normaliza(bancos, bancos.cef, "", "100000001") == Inteiro(1)
    ensures Normaliza(bancos, bancos.cef, "", "12345") == Texto("12345")
  {
    ValorLiteral9();
    RegraCef(bancos, "", "100000001");
    ValorLiteral5();
    RegraCef(bancos, "", "12345");
  }

  lemma ValorLiteral9()
    ensures IsDigits("100000001") && Value("100000001") == 100000001
  {
    var s := "100000001";
    ValueAppend("1", s[1..]);
    assert "1" + s[1..] == s;
    ValueAppend(Zeros(7), "1");
    assert Zeros(7) + "1" == s[1..];
    ValueZeros(7);
    Pow10Table();
  }

  lemma ValorLiteral5()
    ensures IsDigits("12345") && Value("12345") == 12345
  {
    ValueToDecimal(12345);
    assert ToDecimal(12345) == "12345";
  }

  /** Worked values for Santander (check digit dropped) and Sicoob (six-character suffix dropped). */
  lemma ExemplosSantanderSicoob(bancos: Bancos)
    requires bancos.Valid()
    ensures Normaliza(bancos, bancos.santander, "", "123456789") == Texto("12345678")
    ensures Normaliza(bancos, bancos.sicoob, "", "1234567890123456789012") == Texto("1234567890123456")
  {
    RegraSantander(bancos, "", "123456789");
    SubstrDropLast("123456789", 1);
    assert "123456789"[..8] == "12345678";
    RegraSicoob(bancos, "", "1234567890123456789012");
    SubstrDropLast("1234567890123456789012", 6);
    assert "1234567890123456789012"[..16] == "1234567890123456";
  }
}
