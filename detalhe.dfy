/**
 * One detail record of a CNAB240 return file: the parsed segments T and U of
 * one boleto, and the file it came from (bank code and convênio). Every
 * getter is a function of these values; none changes them.
 *
 * Segment W is only printed by the diagnostic dump and is not part of this
 * model; segment fields are the values the line parser hands over, with the
 * optional `carteira` as an `Option` (its `existField` test).
 */
module Detalhe {
  import opened Wrappers
  import opened Decimal
  import opened Php
  import Movimento
  import NossoNumero
  import Datas

  /** What the record reads from its return file. */
  datatype Arquivo = Arquivo(codigoBanco: int, codigoConvenio: string)

  datatype SegmentoT = SegmentoT(
    codigoMovimento: string,
    valorTitulo: real,
    valorTarifa: real,
    numeroDocumento: string,
    nossoNumero: string,
    dataVencimento: nat,
    carteira: Option<string>,
    agenciaMantenedora: string,
    agenciaDv: string,
    agenciaCobradora: string,
    agenciaCobradoraDac: string,
    numeroSequencialLote: nat)

  datatype SegmentoU = SegmentoU(
    valorLiquido: real,
    valorPago: real,
    valorIof: real,
    valorDesconto: real,
    valorAbatimento: real,
    valorOutrasDespesas: real,
    valorOutrosCreditos: real,
    valorAcrescimos: real,
    dataCredito: nat,
    dataOcorrencia: nat)

  /** The bank whose carteira field is never reported. */
  const BancoSemCarteira: int := 104

  datatype Detalhe = Detalhe(arquivo: Arquivo, segmentoT: SegmentoT, segmentoU: SegmentoU) {

    /** `$this->codigo_banco`, copied from the file when the record is built. */
    function CodigoBanco(): int {
      arquivo.codigoBanco
    }

    // -------------------------------------------------------------------------
    // Movement code

    /** `getCodigo`: the movement code cast to an integer. */
    function GetCodigo(): (r: int)
      ensures IsDigits(segmentoT.codigoMovimento) ==> r == Value(segmentoT.codigoMovimento)
    {
      var bruto := segmentoT.codigoMovimento;
      // both arms are the cast; the first only brings in the lemma the ensures needs
      if IsDigits(bruto) then IntCastDigits(bruto); IntCast(bruto) else IntCast(bruto)
    }

    /** `isBaixa($forcadaBanco)`: settled by payment (6, 17) or, when forced by the bank, by write-off (9, 25). */
    function IsBaixa(forcadaBanco: bool): (r: bool)
      ensures r <==> GetCodigo() in (if forcadaBanco then {9, 25} else {6, 17})
    {
      Movimento.IsBaixaStatic(segmentoT.codigoMovimento, forcadaBanco)
    }

    /** `isBaixaRejeitada`: the movement reports a rejection (3, 26, 30). */
    function IsBaixaRejeitada(): (r: bool)
      ensures r <==> GetCodigo() in {3, 26, 30}
    {
      Movimento.IsBaixaRejeitadaCodigo(segmentoT.codigoMovimento)
    }

    /**
     * `getCodigoNome`: the catalogue's description of the code, "Desconhecido"
     * exactly for codes outside it; a code that classifies the record always
     * has a description.
     */
    function GetCodigoNome(): (r: string)
      ensures r == Movimento.Desconhecido <==> Movimento.Tabela(GetCodigo()).None?
      ensures Movimento.Tabela(GetCodigo()).Some? ==> r == Movimento.Tabela(GetCodigo()).value
      ensures IsBaixa(false) || IsBaixa(true) || IsBaixaRejeitada() ==> r != Movimento.Desconhecido
    {
      // `(int)` of an integer is the integer itself
      Movimento.Catalogado(GetCodigo());
      Movimento.CodigoNome(GetCodigo())
    }

    // -------------------------------------------------------------------------
    // Amounts: the segments' values, unchanged

    function GetValorRecebido(): real { segmentoU.valorLiquido }
    function GetValorTitulo(): real { segmentoT.valorTitulo }
    function GetValorPago(): real { segmentoU.valorPago }
    function GetValorTarifa(): real { segmentoT.valorTarifa }
    function GetValorIOF(): real { segmentoU.valorIof }
    function GetValorDesconto(): real { segmentoU.valorDesconto }
    function GetValorAbatimento(): real { segmentoU.valorAbatimento }
    function GetValorOutrasDespesas(): real { segmentoU.valorOutrasDespesas }
    function GetValorOutrosCreditos(): real { segmentoU.valorOutrosCreditos }
    function GetValorMoraMulta(): real { segmentoU.valorAcrescimos }

    // -------------------------------------------------------------------------
    // Document and reference numbers

    /**
     * `getNumeroDocumento`: absent exactly when the field is nothing but
     * zeros (or empty); otherwise the field as it stands, leading zeros kept.
     */
    function GetNumeroDocumento(): (r: Option<string>)
      ensures r.None? <==> forall i | 0 <= i < |segmentoT.numeroDocumento| :: segmentoT.numeroDocumento[i] == '0'
      ensures r.Some? ==> r.value == segmentoT.numeroDocumento
    {
      var numeroDocumento := segmentoT.numeroDocumento;
      TrimEmpty(numeroDocumento, '0');
      if Trim(numeroDocumento, '0') == "" then None else Some(numeroDocumento)
    }

    /**
     * `getNossoNumero`: the bank's rule applied to segment T's field; the
     * result is never longer than the field, and only CEF turns it into a
     * number, always below 10^7.
     */
    function GetNossoNumero(bancos: NossoNumero.Bancos): (r: NossoNumero.Numero)
      requires bancos.Valid()
      requires NossoNumero.Admissivel(bancos, CodigoBanco(), arquivo.codigoConvenio, segmentoT.nossoNumero)
      ensures r.Texto? ==> |r.texto| <= |segmentoT.nossoNumero|
      ensures r.Inteiro? ==> CodigoBanco() == bancos.cef && 0 <= r.valor < 10000000
    {
      NossoNumero.NuncaCresce(bancos, CodigoBanco(), arquivo.codigoConvenio, segmentoT.nossoNumero);
      NossoNumero.Normaliza(bancos, CodigoBanco(), arquivo.codigoConvenio, segmentoT.nossoNumero)
    }

    // -------------------------------------------------------------------------
    // Dates

    /** `getDataVencimento`: segment T's due date by the shared date rule. */
    function GetDataVencimento(agora: Datas.Hora): (r: Option<Datas.DataHora>)
      ensures r.None? <==> segmentoT.dataVencimento == 0 || segmentoT.dataVencimento >= 100000000
      ensures r.Some? ==> r.value == DataDeDigitos(segmentoT.dataVencimento)
    {
      RegraDaData(segmentoT.dataVencimento, agora);
      Datas.DecodificaData(segmentoT.dataVencimento, agora)
    }

    /** `getDataCredito`: segment U's credit date by the shared date rule. */
    function GetDataCredito(agora: Datas.Hora): (r: Option<Datas.DataHora>)
      ensures r.None? <==> segmentoU.dataCredito == 0 || segmentoU.dataCredito >= 100000000
      ensures r.Some? ==> r.value == DataDeDigitos(segmentoU.dataCredito)
    {
      RegraDaData(segmentoU.dataCredito, agora);
      Datas.DecodificaData(segmentoU.dataCredito, agora)
    }

    /** `getDataOcorrencia`: segment U's occurrence date by the shared date rule. */
    function GetDataOcorrencia(agora: Datas.Hora): (r: Option<Datas.DataHora>)
      ensures r.None? <==> segmentoU.dataOcorrencia == 0 || segmentoU.dataOcorrencia >= 100000000
      ensures r.Some? ==> r.value == DataDeDigitos(segmentoU.dataOcorrencia)
    {
      RegraDaData(segmentoU.dataOcorrencia, agora);
      Datas.DecodificaData(segmentoU.dataOcorrencia, agora)
    }

    // -------------------------------------------------------------------------
    // Carteira and agencies

    /**
     * `getCarteira`: never reported for bank 104, whatever segment T holds;
     * for any other bank the field when segment T has it, absent otherwise.
     */
    function GetCarteira(): (r: Option<string>)
      ensures CodigoBanco() == BancoSemCarteira ==> r.None?
      ensures CodigoBanco() != BancoSemCarteira ==> r == segmentoT.carteira
    {
      if CodigoBanco() == BancoSemCarteira then None
      else if segmentoT.carteira.Some? then Some(segmentoT.carteira.value)
      else None
    }

    function GetAgencia(): string { segmentoT.agenciaMantenedora }
    function GetAgenciaDv(): string { segmentoT.agenciaDv }
    function GetAgenciaCobradora(): string { segmentoT.agenciaCobradora }
    function GetAgenciaCobradoraDac(): string { segmentoT.agenciaCobradoraDac }
    function GetNumeroSequencial(): nat { segmentoT.numeroSequencialLote }
  }

  /**
   * The date a non-zero raw value of at most eight digits stands for: day,
   * month and year from its digits 1-2, 3-4 and 5-8 once zero-padded to eight,
   * carried over as PHP does, at midnight.
   */
  function DataDeDigitos(bruto: nat): (r: Datas.DataHora)
    ensures Datas.DataValida(r.data) && r.hora == Datas.MeiaNoite
  {
    Datas.DataHora(Datas.Normaliza(bruto % 10000, bruto / 10000 % 100, bruto / 1000000), Datas.MeiaNoite)
  }

  /** The shared date rule, case by case. */
  lemma RegraDaData(bruto: nat, agora: Datas.Hora)
    ensures Datas.DecodificaData(bruto, agora)
         == if bruto == 0 || bruto >= 100000000 then None else Some(DataDeDigitos(bruto))
  {
    if bruto == 0 {
      Datas.ZeroSemData(agora);
    } else if bruto >= 100000000 {
      Datas.LongoSemData(bruto, agora);
    } else {
      Datas.DecodificaDigitos(bruto, agora);
    }
  }

  /** A record is at most one of: settled by payment, settled by write-off, rejected. */
  lemma ClassificacaoExclusiva(d: Detalhe)
    ensures !(d.IsBaixa(false) && d.IsBaixa(true))
    ensures !(d.IsBaixa(false) && d.IsBaixaRejeitada())
    ensures !(d.IsBaixa(true) && d.IsBaixaRejeitada())
  {
  }
}
