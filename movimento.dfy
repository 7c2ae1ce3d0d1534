/**
 * Movement codes of a CNAB240 return detail (segment T, "código de
 * movimento"): which codes settle a boleto ("baixa"), which report a rejected
 * settlement, and the Portuguese description of each known code.
 */
module Movimento {
  import opened Wrappers
  import opened Php

  /** Codes that settle a boleto by payment: 6 Liquidação, 17 Liquidação Após Baixa. */
  const TiposBaixa: seq<int> := [6, 17]

  /** Codes that settle a boleto by the bank's own write-off: 9 Baixa, 25 Protestado e Baixado. */
  const TiposBaixaForcada: seq<int> := [9, 25]

  /** Codes of a rejected instruction: 3, 26 and 30. */
  const TiposBaixaRejeitada: seq<int> := [3, 26, 30]

  const Desconhecido: string := "Desconhecido"

  /**
   * `isBaixaStatic($codigo_movimento, $forcadaBanco)`: the raw code is cast
   * to an integer and looked up in the list chosen by `forcadaBanco`.
   */
  function IsBaixaStatic(codigoMovimento: string, forcadaBanco: bool): (r: bool)
    ensures r <==> IntCast(codigoMovimento) in (if forcadaBanco then {9, 25} else {6, 17})
  {
    var tipoBaixa := if forcadaBanco then TiposBaixaForcada else TiposBaixa;
    var codigo := IntCast(codigoMovimento);
    InArray(codigo, tipoBaixa)
  }

  /** The test `isBaixaRejeitada` applies to segment T's raw code. */
  function IsBaixaRejeitadaCodigo(codigoMovimento: string): (r: bool)
    ensures r <==> IntCast(codigoMovimento) in {3, 26, 30}
  {
    var codigo := IntCast(codigoMovimento);
    InArray(codigo, TiposBaixaRejeitada)
  }

  /**
   * No code is at once a settlement by payment, a settlement by write-off and
   * a rejected settlement: the three classifications exclude each other.
   */
  lemma ClassesDisjoint(codigoMovimento: string)
    ensures !(IsBaixaStatic(codigoMovimento, false) && IsBaixaStatic(codigoMovimento, true))
    ensures !(IsBaixaStatic(codigoMovimento, false) && IsBaixaRejeitadaCodigo(codigoMovimento))
    ensures !(IsBaixaStatic(codigoMovimento, true) && IsBaixaRejeitadaCodigo(codigoMovimento))
  {
  }

  /** A two-digit code as it stands in the fixed-width field classifies by its value. */
  lemma IsBaixaStaticDigits(codigoMovimento: string)
    requires Decimal.IsDigits(codigoMovimento)
    ensures IsBaixaStatic(codigoMovimento, false) <==> Decimal.Value(codigoMovimento) in {6, 17}
    ensures IsBaixaStatic(codigoMovimento, true) <==> Decimal.Value(codigoMovimento) in {9, 25}
    ensures IsBaixaRejeitadaCodigo(codigoMovimento) <==> Decimal.Value(codigoMovimento) in {3, 26, 30}
  {
    IntCastDigits(codigoMovimento);
  }

  // ---------------------------------------------------------------------------
  // Catalogue

  /**
   * The table of `getCodigoNome`, looked up with `array_key_exists`. It is
   * written as five ranges of codes so that a proof about one code unfolds
   * one range only; the entries are the table's, in its order.
   */
  function Tabela(codigo: int): (r: Option<string>)
    ensures r.Some? ==> 2 <= codigo <= 86
  {
    if codigo <= 15 then TabelaEntradas(codigo)
    else if codigo <= 30 then TabelaLiquidacoes(codigo)
    else if codigo <= 43 then TabelaConfirmacoes(codigo)
    else if codigo <= 53 then TabelaCheques(codigo)
    else TabelaPedidos(codigo)
  }

  /** Entries for registration and instruction confirmations, codes 2 to 15. */
  function TabelaEntradas(codigo: int): (r: Option<string>)
    ensures r.Some? ==> 2 <= codigo <= 15
  {
    match codigo
    case 2 => Some("Entrada Confirmada")
    case 3 => Some("Entrada Rejeitada")
    case 4 => Some("Transferência de Carteira/Entrada")
    case 5 => Some("Transferência de Carteira/Baixa")
    case 6 => Some("Liquidação")
    case 7 => Some("Confirmação do Recebimento da Instrução de Desconto")
    case 8 => Some("Confirmação do Recebimento do Cancelamento do Desconto")
    case 9 => Some("Baixa")
    case 11 => Some("Títulos em Carteira (Em Ser)")
    case 12 => Some("Confirmação Recebimento Instrução de Abatimento")
    case 13 => Some("Confirmação Recebimento Instrução de Cancelamento Abatimento")
    case 14 => Some("Confirmação Recebimento Instrução Alteração de Vencimento")
    case 15 => Some("Franco de Pagamento")
    case _ => None
  }

  /** Entries for settlements, protest and rejections, codes 17 to 30. */
  function TabelaLiquidacoes(codigo: int): (r: Option<string>)
    ensures r.Some? ==> 17 <= codigo <= 30
  {
    match codigo
    case 17 => Some("Liquidação Após Baixa ou Liquidação Título Não Registrado")
    case 19 => Some("Confirmação Recebimento Instrução de Protesto")
    case 20 => Some("Confirmação Recebimento Instrução de Sustação/Cancelamento de Protesto")
    case 23 => Some("Remessa a Cartório (Aponte em Cartório)")
    case 24 => Some("Retirada de Cartório e Manutenção em Carteira")
    case 25 => Some("Protestado e Baixado (Baixa por Ter Sido Protestado)")
    case 26 => Some("Instrução Rejeitada")
    case 27 => Some("Confirmação do Pedido de Alteração de Outros Dados")
    case 28 => Some("Débito de Tarifas/Custas")
    case 29 => Some("Ocorrências do Pagador")
    case 30 => Some("Alteração de Dados Rejeitada")
    case _ => None
  }

  /** Entries for confirmations of data changes, codes 33 to 43. */
  function TabelaConfirmacoes(codigo: int): (r: Option<string>)
    ensures r.Some? ==> 33 <= codigo <= 43
  {
    match codigo
    case 33 => Some("Confirmação da Alteração dos Dados do Rateio de Crédito")
    case 34 => Some("Confirmação do Cancelamento dos Dados do Rateio de Crédito")
    case 35 => Some("Confirmação do Desagendamento do Débito Automático")
    case 36 => Some("Confirmação de envio de e-mail/SMS")
    case 37 => Some("Envio de e-mail/SMS rejeitado")
    case 38 => Some("Confirmação de alteração do Prazo Limite de Recebimento (a data deve ser")
    case 39 => Some("Confirmação de Dispensa de Prazo Limite de Recebimento")
    case 40 => Some("Confirmação da alteração do número do título dado pelo Beneficiário")
    case 41 => Some("Confirmação da alteração do número controle do Participante")
    case 42 => Some("Confirmação da alteração dos dados do Pagador")
    case 43 => Some("Confirmação da alteração dos dados do Pagadorr/Avalista")
    case _ => None
  }

  /** Entries for cheques, contracts and DDA, codes 44 to 53. */
  function TabelaCheques(codigo: int): (r: Option<string>)
    ensures r.Some? ==> 44 <= codigo <= 53
  {
    match codigo
    case 44 => Some("Título pago com cheque devolvido")
    case 45 => Some("Título pago com cheque compensado")
    case 46 => Some("Instrução para cancelar protesto confirmada")
    case 47 => Some("Instrução para protesto para fins falimentares confirmada")
    case 48 => Some("Confirmação de instrução de transferência de carteira/modalidade de cobrança")
    case 49 => Some("Alteração de contrato de cobrança")
    case 50 => Some("Título pago com cheque pendente de liquidação")
    case 51 => Some("Título DDA reconhecido pelo Pagador")
    case 52 => Some("Título DDA não reconhecido pelo Pagador")
    case 53 => Some("Título DDA recusado pela CIP")
    case _ => None
  }

  /** Entries for confirmations of requests and protest withdrawal, codes 54 to 86. */
  function TabelaPedidos(codigo: int): (r: Option<string>)
    ensures r.Some? ==> 54 <= codigo <= 86
  {
    match codigo
    case 54 => Some("Confirmação da Instrução de Baixa de Título Negativado sem Protesto")
    case 55 => Some("Confirmação de Pedido de Dispensa de Multa")
    case 56 => Some("Confirmação do Pedido de Cobrança de Multa")
    case 57 => Some("Confirmação do Pedido de Alteração de Cobrança de Juros")
    case 58 => Some("Confirmação do Pedido de Alteração do Valor/Data de Desconto")
    case 59 => Some("Confirmação do Pedido de Alteração do Beneficiário do Título")
    case 60 => Some("Confirmação do Pedido de Dispensa de Juros de Mora")
    case 85 => Some("Confirmação de Desistência de Protesto")
    case 86 => Some("Confirmação de cancelamento do Protesto")
    case _ => None
  }

  /** `getCodigoNome` on an already cast code: the table entry, or "Desconhecido". */
  function CodigoNome(codigo: int): (r: string)
    ensures r != Desconhecido <==> Tabela(codigo).Some?
    ensures Tabela(codigo).Some? ==> r == Tabela(codigo).value
  {
    match Tabela(codigo)
    case Some(descricao) =>
      SemDesconhecido(codigo);
      descricao
    case None => Desconhecido
  }

  /**
   * No entry of the table reads "Desconhecido", so that text always means
   * "not in the table". The five range lemmas below assert each entry on its
   * literal code: the verifier needs no more, but one case split over a whole
   * range costs it far less that way.
   */
  lemma SemDesconhecido(codigo: int)
    requires Tabela(codigo).Some?
    ensures Tabela(codigo).value != Desconhecido
  {
    if codigo <= 15 {
      SemDesconhecidoEntradas(codigo);
    } else if codigo <= 30 {
      SemDesconhecidoLiquidacoes(codigo);
    } else if codigo <= 43 {
      SemDesconhecidoConfirmacoes(codigo);
    } else if codigo <= 53 {
      SemDesconhecidoCheques(codigo);
    } else {
      SemDesconhecidoPedidos(codigo);
    }
  }

  lemma SemDesconhecidoEntradas(codigo: int)
    requires TabelaEntradas(codigo).Some?
    ensures TabelaEntradas(codigo).value != Desconhecido
  {
    match codigo
    case 2 => assert TabelaEntradas(2).value != Desconhecido;
    case 3 => assert TabelaEntradas(3).value != Desconhecido;
    case 4 => assert TabelaEntradas(4).value != Desconhecido;
    case 5 => assert TabelaEntradas(5).value != Desconhecido;
    case 6 => assert TabelaEntradas(6).value != Desconhecido;
    case 7 => assert TabelaEntradas(7).value != Desconhecido;
    case 8 => assert TabelaEntradas(8).value != Desconhecido;
    case 9 => assert TabelaEntradas(9).value != Desconhecido;
    case 11 => assert TabelaEntradas(11).value != Desconhecido;
    case 12 => assert TabelaEntradas(12).value != Desconhecido;
    case 13 => assert TabelaEntradas(13).value != Desconhecido;
    case 14 => assert TabelaEntradas(14).value != Desconhecido;
    case 15 => assert TabelaEntradas(15).value != Desconhecido;
    case _ =>
  }

  lemma SemDesconhecidoLiquidacoes(codigo: int)
    requires TabelaLiquidacoes(codigo).Some?
    ensures TabelaLiquidacoes(codigo).value != Desconhecido
  {
    match codigo
    case 17 => assert TabelaLiquidacoes(17).value != Desconhecido;
    case 19 => assert TabelaLiquidacoes(19).value != Desconhecido;
    case 20 => assert TabelaLiquidacoes(20).value != Desconhecido;
    case 23 => assert TabelaLiquidacoes(23).value != Desconhecido;
    case 24 => assert TabelaLiquidacoes(24).value != Desconhecido;
    case 25 => assert TabelaLiquidacoes(25).value != Desconhecido;
    case 26 => assert TabelaLiquidacoes(26).value != Desconhecido;
    case 27 => assert TabelaLiquidacoes(27).value != Desconhecido;
    case 28 => assert TabelaLiquidacoes(28).value != Desconhecido;
    case 29 => assert TabelaLiquidacoes(29).value != Desconhecido;
    case 30 => assert TabelaLiquidacoes(30).value != Desconhecido;
    case _ =>
  }

  lemma SemDesconhecidoConfirmacoes(codigo: int)
    requires TabelaConfirmacoes(codigo).Some?
    ensures TabelaConfirmacoes(codigo).value != Desconhecido
  {
    match codigo
    case 33 => assert TabelaConfirmacoes(33).value != Desconhecido;
    case 34 => assert TabelaConfirmacoes(34).value != Desconhecido;
    case 35 => assert TabelaConfirmacoes(35).value != Desconhecido;
    case 36 => assert TabelaConfirmacoes(36).value != Desconhecido;
    case 37 => assert TabelaConfirmacoes(37).value != Desconhecido;
    case 38 => assert TabelaConfirmacoes(38).value != Desconhecido;
    case 39 => assert TabelaConfirmacoes(39).value != Desconhecido;
    case 40 => assert TabelaConfirmacoes(40).value != Desconhecido;
    case 41 => assert TabelaConfirmacoes(41).value != Desconhecido;
    case 42 => assert TabelaConfirmacoes(42).value != Desconhecido;
    case 43 => assert TabelaConfirmacoes(43).value != Desconhecido;
    case _ =>
  }

  lemma SemDesconhecidoCheques(codigo: int)
    requires TabelaCheques(codigo).Some?
    ensures TabelaCheques(codigo).value != Desconhecido
  {
    match codigo
    case 44 => assert TabelaCheques(44).value != Desconhecido;
    case 45 => assert TabelaCheques(45).value != Desconhecido;
    case 46 => assert TabelaCheques(46).value != Desconhecido;
    case 47 => assert TabelaCheques(47).value != Desconhecido;
    case 48 => assert TabelaCheques(48).value != Desconhecido;
    case 49 => assert TabelaCheques(49).value != Desconhecido;
    case 50 => assert TabelaCheques(50).value != Desconhecido;
    case 51 => assert TabelaCheques(51).value != Desconhecido;
    case 52 => assert TabelaCheques(52).value != Desconhecido;
    case 53 => assert TabelaCheques(53).value != Desconhecido;
    case _ =>
  }

  lemma SemDesconhecidoPedidos(codigo: int)
    requires TabelaPedidos(codigo).Some?
    ensures TabelaPedidos(codigo).value != Desconhecido
  {
    match codigo
    case 54 => assert TabelaPedidos(54).value != Desconhecido;
    case 55 => assert TabelaPedidos(55).value != Desconhecido;
    case 56 => assert TabelaPedidos(56).value != Desconhecido;
    case 57 => assert TabelaPedidos(57).value != Desconhecido;
    case 58 => assert TabelaPedidos(58).value != Desconhecido;
    case 59 => assert TabelaPedidos(59).value != Desconhecido;
    case 60 => assert TabelaPedidos(60).value != Desconhecido;
    case 85 => assert TabelaPedidos(85).value != Desconhecido;
    case 86 => assert TabelaPedidos(86).value != Desconhecido;
    case _ =>
  }

  /** The entries of the codes the record classifies. */
  lemma CodigoNomeExemplos()
    ensures CodigoNome(6) == "Liquidação"
    ensures CodigoNome(17) == "Liquidação Após Baixa ou Liquidação Título Não Registrado"
    ensures CodigoNome(9) == "Baixa"
    ensures CodigoNome(25) == "Protestado e Baixado (Baixa por Ter Sido Protestado)"
    ensures CodigoNome(3) == "Entrada Rejeitada"
    ensures CodigoNome(26) == "Instrução Rejeitada"
    ensures CodigoNome(30) == "Alteração de Dados Rejeitada"
  {
  }

  /** Codes between and beyond the listed ones are unknown. */
  lemma CodigoNomeDesconhecidos()
    ensures CodigoNome(0) == Desconhecido && CodigoNome(1) == Desconhecido
    ensures CodigoNome(10) == Desconhecido && CodigoNome(61) == Desconhecido
    ensures CodigoNome(87) == Desconhecido && CodigoNome(-6) == Desconhecido
  {
  }

  /** Every code the record classifies has a description of its own. */
  lemma ClassesCatalogadas(codigoMovimento: string)
    requires IsBaixaStatic(codigoMovimento, false) || IsBaixaStatic(codigoMovimento, true)
             || IsBaixaRejeitadaCodigo(codigoMovimento)
    ensures CodigoNome(IntCast(codigoMovimento)) != Desconhecido
  {
    Catalogado(IntCast(codigoMovimento));
  }

  /** The seven codes the record classifies are all in the table. */
  lemma Catalogado(codigo: int)
    ensures codigo in {3, 6, 9, 17, 25, 26, 30} ==> Tabela(codigo).Some?
  {
    if codigo == 3 {
      assert TabelaEntradas(3).Some?;
    } else if codigo == 6 {
      assert TabelaEntradas(6).Some?;
    } else if codigo == 9 {
      assert TabelaEntradas(9).Some?;
    } else if codigo == 17 {
      assert TabelaLiquidacoes(17).Some?;
    } else if codigo == 25 {
      assert TabelaLiquidacoes(25).Some?;
    } else if codigo == 26 {
      assert TabelaLiquidacoes(26).Some?;
    } else if codigo == 30 {
      assert TabelaLiquidacoes(30).Some?;
    }
  }
}
