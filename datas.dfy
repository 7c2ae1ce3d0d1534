/**
 * The date rule shared by the three date getters of a CNAB240 return detail:
 * a raw value of 0 means "no date"; any other value is printed with
 * `sprintf('%08d', ...)`, parsed by `DateTime::createFromFormat('dmY', ...)`
 * and set to midnight with `setTime(0, 0, 0)`.
 *
 * `createFromFormat` reads two digits of day, two of month and four of year,
 * fails on anything left over, and does not reject an out-of-range day or
 * month: it carries the excess into the following months and years (months
 * first, then days). Unparsed fields (the time of day) come from the clock,
 * which is a parameter here.
 */
module Datas {
  import opened Wrappers
  import opened Decimal

  datatype Data = Data(ano: int, mes: int, dia: int)

  datatype Hora = Hora(hora: nat, minuto: nat, segundo: nat, microssegundo: nat)

  /** A PHP `\DateTime` (its time zone is left out). */
  datatype DataHora = DataHora(data: Data, hora: Hora)

  const MeiaNoite: Hora := Hora(0, 0, 0, 0)

  /** Gregorian leap years, as timelib computes them (the year 0 is one). */
  predicate Bissexto(ano: int) {
    ano % 4 == 0 && (ano % 100 != 0 || ano % 400 == 0)
  }

  function DiasNoMes(ano: int, mes: int): (n: int)
    requires 1 <= mes <= 12
    ensures 28 <= n <= 31
  {
    if mes == 2 then (if Bissexto(ano) then 29 else 28)
    else if mes in {4, 6, 9, 11} then 30
    else 31
  }

  predicate DataValida(d: Data) {
    1 <= d.mes <= 12 && 1 <= d.dia <= DiasNoMes(d.ano, d.mes)
  }

  /** Carry a day number past the end of its month into the following months. */
  function AvancaDias(ano: int, mes: int, dia: int): (r: Data)
    requires 1 <= mes <= 12 && dia >= 1
    ensures DataValida(r)
    ensures r.ano > ano || (r.ano == ano && r.mes >= mes)
    decreases dia
  {
    if dia <= DiasNoMes(ano, mes) then Data(ano, mes, dia)
    else if mes == 12 then AvancaDias(ano + 1, 1, dia - 31)
    else AvancaDias(ano, mes + 1, dia - DiasNoMes(ano, mes))
  }

  /**
   * timelib's normalisation of a parsed date with a non-negative day: the
   * month is brought into 1..12 by moving whole years, then day 0 becomes
   * the last day of the previous month and days past the end of the month
   * move into the next ones.
   */
  function Normaliza(ano: int, mes: int, dia: int): (r: Data)
    requires dia >= 0
    ensures DataValida(r)
    ensures DataValida(Data(ano, mes, dia)) ==> r == Data(ano, mes, dia)
  {
    var a := ano + (mes - 1) / 12;
    var m := (mes - 1) % 12 + 1;
    if dia == 0 then
      if m == 1 then Data(a - 1, 12, 31) else Data(a, m - 1, DiasNoMes(a, m - 1))
    else AvancaDias(a, m, dia)
  }

  /**
   * `DateTime::createFromFormat('dmY', texto)` on a digit string of at least
   * eight characters, with `agora` the time of day of the clock.
   */
  function CriaDeFormato(texto: string, agora: Hora): (r: Option<DataHora>)
    requires IsDigits(texto) && |texto| >= 8
    ensures r.Some? ==> DataValida(r.value.data) && r.value.hora == agora
    ensures r.Some? <==> |texto| == 8
  {
    var dia := Value(texto[0..2]);
    var mes := Value(texto[2..4]);
    var ano := Value(texto[4..8]);
    if |texto| > 8 then None
    else Some(DataHora(Normaliza(ano, mes, dia), agora))
  }

  /** `$data->setTime(0, 0, 0)`. */
  function ParaMeiaNoite(d: DataHora): (r: DataHora)
    ensures r.data == d.data && r.hora == MeiaNoite
  {
    DataHora(d.data, MeiaNoite)
  }

  /**
   * The shared body of `getDataVencimento`, `getDataCredito` and
   * `getDataOcorrencia`: `None` stands for the `false` they return. Every
   * date it yields is a real calendar date at midnight.
   */
  function DecodificaData(bruto: nat, agora: Hora): (r: Option<DataHora>)
    ensures r.Some? ==> DataValida(r.value.data) && r.value.hora == MeiaNoite
  {
    if bruto == 0 then None
    else
      match CriaDeFormato(Sprintf08(bruto), agora)
      case None => None
      case Some(d) => Some(ParaMeiaNoite(d))
  }

  // ---------------------------------------------------------------------------
  // Properties

  /** The value 0 is the "no date" sentinel, whatever the clock says. */
  lemma ZeroSemData(agora: Hora)
    ensures DecodificaData(0, agora) == None
  {
  }

  /** A value of nine digits or more leaves data after the year, and parsing fails. */
  lemma LongoSemData(bruto: nat, agora: Hora)
    requires bruto >= 100000000
    ensures DecodificaData(bruto, agora) == None
  {
    Sprintf08Long(bruto);
  }

  /** An eight-digit text DDMMYYYY splits into its day, month and year digits by arithmetic. */
  lemma DivisaoTexto(s: string)
    requires IsDigits(s) && |s| == 8
    ensures Value(s[0..2]) == Value(s) / 1000000
    ensures Value(s[2..4]) == Value(s) / 10000 % 100
    ensures Value(s[4..8]) == Value(s) % 10000
  {
    Pow10Table();
    ValuePrefix(s, 6);
    assert s[..|s| - 6] == s[0..2];
    var p := s[..|s| - 4];
    ValuePrefix(s, 4);
    ValueSuffix(p, 2);
    assert p[|p| - 2..] == s[2..4];
    ValueSuffix(s, 4);
    assert s[|s| - 4..] == s[4..8];
  }

  /** The zero-padded text splits into DD, MM and YYYY exactly as the number does. */
  lemma Divisao(bruto: nat)
    requires bruto < 100000000
    ensures |Sprintf08(bruto)| == 8
    ensures Value(Sprintf08(bruto)[0..2]) == bruto / 1000000
    ensures Value(Sprintf08(bruto)[2..4]) == bruto / 10000 % 100
    ensures Value(Sprintf08(bruto)[4..8]) == bruto % 10000
  {
    Sprintf08Value(bruto);
    DivisaoTexto(Sprintf08(bruto));
  }

  /**
   * A non-zero value of at most eight digits decodes to the normalised date
   * whose day, month and year are its digits 1-2, 3-4 and 5-8 once padded
   * to eight, at midnight, independently of the clock.
   */
  lemma DecodificaDigitos(bruto: nat, agora: Hora)
    requires 0 < bruto < 100000000
    ensures DecodificaData(bruto, agora)
         == Some(DataHora(Normaliza(bruto % 10000, bruto / 10000 % 100, bruto / 1000000), MeiaNoite))
  {
    var s := Sprintf08(bruto);
    Divisao(bruto);
    var d, m, a := Value(s[0..2]), Value(s[2..4]), Value(s[4..8]);
    assert CriaDeFormato(s, agora) == Some(DataHora(Normaliza(a, m, d), agora));
  }

  /** The result never depends on the clock. */
  lemma DecodificaSemRelogio(bruto: nat, agora1: Hora, agora2: Hora)
    ensures DecodificaData(bruto, agora1) == DecodificaData(bruto, agora2)
  {
  }

  /** Day, month and year fields read back from the number they form. */
  lemma DecodificaCampos(dia: nat, mes: nat, ano: nat, agora: Hora)
    requires dia < 100 && mes < 100 && ano < 10000
    requires dia * 1000000 + mes * 10000 + ano > 0
    ensures DecodificaData(dia * 1000000 + mes * 10000 + ano, agora)
         == Some(DataHora(Normaliza(ano, mes, dia), MeiaNoite))
  {
    var bruto := dia * 1000000 + mes * 10000 + ano;
    DecodificaDigitos(bruto, agora);
    DivModUnique(bruto, 10000, dia * 100 + mes, ano);
    DivModUnique(bruto / 10000, 100, dia, mes);
    DivModUnique(bruto, 1000000, dia, mes * 10000 + ano);
  }

  /** When the digits already form a calendar date, that date is the result, unchanged. */
  lemma DecodificaDataCorreta(dia: nat, mes: nat, ano: nat, agora: Hora)
    requires ano < 10000 && DataValida(Data(ano, mes, dia))
    ensures DecodificaData(dia * 1000000 + mes * 10000 + ano, agora)
         == Some(DataHora(Data(ano, mes, dia), MeiaNoite))
  {
    DecodificaCampos(dia, mes, ano, agora);
  }

  /** 01/01/2023 stored as the number 1012023, its leading zero lost; and a leap day. */
  lemma ExemploLayout(agora: Hora)
    ensures DecodificaData(1012023, agora) == Some(DataHora(Data(2023, 1, 1), MeiaNoite))
    ensures DecodificaData(29022024, agora) == Some(DataHora(Data(2024, 2, 29), MeiaNoite))
  {
    DecodificaDataCorreta(1, 1, 2023, agora);
    DecodificaDataCorreta(29, 2, 2024, agora);
  }

  /** PHP rolls an impossible day over into the next month instead of failing. */
  lemma ExemploRolagem(agora: Hora)
    ensures DecodificaData(32012023, agora) == Some(DataHora(Data(2023, 2, 1), MeiaNoite))
  {
    DecodificaCampos(32, 1, 2023, agora);
    assert AvancaDias(2023, 1, 32) == AvancaDias(2023, 2, 1) == Data(2023, 2, 1);
  }

  /** How out-of-range fields are carried: past the month's end, day 0, month 13. */
  lemma ExemplosNormaliza()
    ensures Normaliza(2023, 2, 29) == Data(2023, 3, 1)
    ensures Normaliza(2024, 3, 0) == Data(2024, 2, 29)
    ensures Normaliza(2023, 1, 0) == Data(2022, 12, 31)
    ensures Normaliza(2023, 13, 1) == Data(2024, 1, 1)
    ensures Normaliza(2023, 0, 15) == Data(2022, 12, 15)
    ensures Normaliza(2023, 12, 40) == Data(2024, 1, 9)
  {
    assert !Bissexto(2023) && DiasNoMes(2023, 2) == 28;
    assert AvancaDias(2023, 2, 29) == AvancaDias(2023, 3, 1) == Data(2023, 3, 1);
    assert Bissexto(2024) && DiasNoMes(2024, 2) == 29;
    assert AvancaDias(2023, 12, 40) == AvancaDias(2024, 1, 9) == Data(2024, 1, 9);
  }
}
