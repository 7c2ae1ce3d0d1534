# CNAB240 return detail, modelled in Dafny

This project models the decoding layer of one detail record of a CNAB240
bank-return file (the FEBRABAN fixed-width layout), as the class
`Cnab\Retorno\Cnab240\Detalhe` of CnabPHP implements it. The record holds the
parsed segments T and U of one boleto and the bank code and convênio of the
file. Its getters turn raw field values into business values:

- the movement code ("código de movimento"): whether it settles the boleto by
  payment (6, 17), by the bank's write-off (9, 25), or reports a rejection
  (3, 26, 30), and its Portuguese description from a fixed table, with
  "Desconhecido" for codes outside it;
- the "nosso número": one rule per bank (Banco do Brasil strips a leading
  convênio, Santander drops the check digit, CEF keeps the last seven digits
  of a value above 9 999 999 as an integer, Sicoob drops a six-character
  suffix, any other bank keeps the field);
- the document number, absent when it is made only of zeros;
- the carteira, never reported for bank 104;
- the due, credit and occurrence dates: 0 means "no date"; any other value
  is printed as eight zero-padded digits, read as DDMMYYYY, carried over the
  way PHP's `DateTime::createFromFormat` carries an impossible day or month,
  and set to midnight.

Every getter is a pure function of the record, so the record is a datatype
and the getters are its member functions. The PHP built-ins they rely on
(`substr`, `trim`, `(int)`, `in_array`, `preg_replace` with an anchored
pattern, `sprintf('%08d')`) are modelled in modules `Php` and `Decimal`, and
the date rule in `Datas`. The codes of `Banco::SANTANDER`, `Banco::CEF` and
`Banco::SICOOB` come from a bank catalogue that is not part of this model:
they are the parameter `NossoNumero.Bancos`, required to be four different
banks together with Banco do Brasil (1). The carteira rule keeps its own
literal 104 and nothing here assumes it equals the CEF code. The clock that
`createFromFormat` reads for the time of day is a parameter of the date
getters; the results are proved not to depend on it.

Three behaviours of the code worth knowing:

- an impossible date such as 32/01/2023 is not an error: PHP carries it over
  into 01/02/2023 (`Datas.ExemploRolagem`);
- the four unfinished getters return `null` (or nothing), not a distinct
  "not implemented" outcome;
- amount getters return the segment value with no missing-field error of
  their own.

## Model

| member | source | states |
|---|---|---|
| Movimento.IsBaixaStatic | src/Cnab/Retorno/Cnab240/Detalhe.php:29-47 | true exactly when the code, cast to an integer, is 9 or 25 for a write-off forced by the bank, 6 or 17 otherwise |
| Movimento.IsBaixaRejeitadaCodigo | src/Cnab/Retorno/Cnab240/Detalhe.php:53-61 | true exactly when the code, cast to an integer, is 3, 26 or 30 |
| Movimento.ClassesDisjoint | src/Cnab/Retorno/Cnab240/Detalhe.php:29-61 | no code is both kinds of settlement, or a settlement and a rejection |
| Movimento.IsBaixaStaticDigits | src/Cnab/Retorno/Cnab240/Detalhe.php:42-43 | a digit-string code classifies by its decimal value, leading zeros ignored |
| Movimento.CodigoNome | src/Cnab/Retorno/Cnab240/Detalhe.php:327-392 | total: the table entry for a listed code, and "Desconhecido" exactly for codes the table does not list |
| Movimento.Tabela | src/Cnab/Retorno/Cnab240/Detalhe.php:331-386 | the 54-entry table; only codes from 2 to 86 have an entry |
| Movimento.TabelaEntradas | src/Cnab/Retorno/Cnab240/Detalhe.php:332-344 | entries of codes 2 to 15; no key outside that range |
| Movimento.TabelaLiquidacoes | src/Cnab/Retorno/Cnab240/Detalhe.php:345-355 | entries of codes 17 to 30; no key outside that range |
| Movimento.TabelaConfirmacoes | src/Cnab/Retorno/Cnab240/Detalhe.php:356-366 | entries of codes 33 to 43; no key outside that range |
| Movimento.TabelaCheques | src/Cnab/Retorno/Cnab240/Detalhe.php:367-376 | entries of codes 44 to 53; no key outside that range |
| Movimento.TabelaPedidos | src/Cnab/Retorno/Cnab240/Detalhe.php:377-385 | entries of codes 54 to 86; no key outside that range |
| Movimento.SemDesconhecido | src/Cnab/Retorno/Cnab240/Detalhe.php:331-386 | no table entry reads "Desconhecido", so that text is an unambiguous "unknown" |
| Movimento.Catalogado | src/Cnab/Retorno/Cnab240/Detalhe.php:333-355 | the seven codes used for classification (3, 6, 9, 17, 25, 26, 30) are all keys of the table |
| Movimento.CodigoNomeExemplos | src/Cnab/Retorno/Cnab240/Detalhe.php:333-355 | the descriptions of the settlement and rejection codes (6 Liquidação, 9 Baixa, ...) |
| Movimento.CodigoNomeDesconhecidos | src/Cnab/Retorno/Cnab240/Detalhe.php:388-391 | codes between and beyond the listed ones (0, 1, 10, 61, 87, -6) are unknown |
| Movimento.ClassesCatalogadas | src/Cnab/Retorno/Cnab240/Detalhe.php:327-391 | every code that classifies as a settlement or rejection has a description |
| NossoNumero.Normaliza | src/Cnab/Retorno/Cnab240/Detalhe.php:171-203 | the per-bank chain; a number comes only from the CEF branch and is below 10^7 (per-bank results in the Regra lemmas) |
| NossoNumero.RegraBancoDoBrasil | src/Cnab/Retorno/Cnab240/Detalhe.php:173-178 | bank 1: a leading convênio is removed and prefixing it again restores the field; otherwise the field is unchanged |
| NossoNumero.RegraSantander | src/Cnab/Retorno/Cnab240/Detalhe.php:179-181 | Santander: the result is the field minus its last character, one shorter; "" stays "" |
| NossoNumero.RegraCef | src/Cnab/Retorno/Cnab240/Detalhe.php:182-185 | CEF: above 9 999 999 the result is the integer value modulo 10^7, hence below 10^7; otherwise the field unchanged |
| NossoNumero.RegraSicoob | src/Cnab/Retorno/Cnab240/Detalhe.php:186-200 | Sicoob: the field minus its last six characters, "" when shorter |
| NossoNumero.RegraOutros | src/Cnab/Retorno/Cnab240/Detalhe.php:169-203 | any other bank: the field unchanged |
| NossoNumero.NuncaCresce | src/Cnab/Retorno/Cnab240/Detalhe.php:169-203 | for every bank the text result is no longer than the field, and an integer result comes only from CEF and is below 10^7 |
| NossoNumero.ExemplosBancoDoBrasil | src/Cnab/Retorno/Cnab240/Detalhe.php:173-178 | convênio 1234: 12345678 gives 5678, 99345678 is kept |
| NossoNumero.ExemplosCef | src/Cnab/Retorno/Cnab240/Detalhe.php:182-185 | 100000001 gives the integer 1; 12345 is kept as text |
| NossoNumero.ExemplosSantanderSicoob | src/Cnab/Retorno/Cnab240/Detalhe.php:179-200 | Santander 123456789 gives 12345678; Sicoob keeps the first 16 of 22 characters |
| Datas.AvancaDias | src/Cnab/Retorno/Cnab240/Detalhe.php:212 | carrying days past a month's end always lands on a valid calendar date, never earlier than the starting month |
| Datas.Normaliza | src/Cnab/Retorno/Cnab240/Detalhe.php:212 | PHP's carry of an out-of-range month and day yields a valid calendar date and leaves a valid date unchanged |
| Datas.CriaDeFormato | src/Cnab/Retorno/Cnab240/Detalhe.php:212 | `createFromFormat('dmY')` on digits succeeds exactly on eight characters, with a valid date and the clock's time |
| Datas.ParaMeiaNoite | src/Cnab/Retorno/Cnab240/Detalhe.php:213-214 | `setTime(0,0,0)` keeps the date and sets the time to midnight |
| Datas.DecodificaData | src/Cnab/Retorno/Cnab240/Detalhe.php:212-215 | 0 or a failed parse gives no date; every date it gives is a valid calendar date at midnight |
| Datas.ZeroSemData | src/Cnab/Retorno/Cnab240/Detalhe.php:212 | the raw value 0 decodes to "no date" |
| Datas.LongoSemData | src/Cnab/Retorno/Cnab240/Detalhe.php:212 | a raw value of nine or more digits fails to parse (trailing data) and decodes to "no date" |
| Datas.DivisaoTexto | src/Cnab/Retorno/Cnab240/Detalhe.php:212 | characters 1-2, 3-4 and 5-8 of an eight-digit text are its value divided by 10^6, by 10^4 modulo 100, and modulo 10^4 |
| Datas.Divisao | src/Cnab/Retorno/Cnab240/Detalhe.php:212 | the same split holds for the `%08d` text of any value below 10^8 |
| Datas.DecodificaDigitos | src/Cnab/Retorno/Cnab240/Detalhe.php:210-216 | a non-zero value below 10^8 decodes to the carried-over date of its DD, MM and YYYY digits, at midnight |
| Datas.DecodificaCampos | src/Cnab/Retorno/Cnab240/Detalhe.php:212 | day, month and year fields written as DDMMYYYY decode to the carried-over date of those fields |
| Datas.DecodificaDataCorreta | src/Cnab/Retorno/Cnab240/Detalhe.php:212-214 | when DDMMYYYY is a real calendar date, exactly that date is decoded |
| Datas.DecodificaSemRelogio | src/Cnab/Retorno/Cnab240/Detalhe.php:212-214 | the decoded date does not depend on the clock |
| Datas.ExemploLayout | src/Cnab/Retorno/Cnab240/Detalhe.php:212 | 1012023 decodes to 2023-01-01 and 29022024 to 2024-02-29 |
| Datas.ExemploRolagem | src/Cnab/Retorno/Cnab240/Detalhe.php:212 | 32012023 decodes to 2023-02-01 |
| Datas.ExemplosNormaliza | src/Cnab/Retorno/Cnab240/Detalhe.php:212 | worked carries: 29/02/2023, day 0, month 0, month 13, 40/12 |
| Detalhe.Detalhe.GetCodigo | src/Cnab/Retorno/Cnab240/Detalhe.php:67-70 | a digit-string movement code gives its decimal value |
| Detalhe.Detalhe.IsBaixa | src/Cnab/Retorno/Cnab240/Detalhe.php:23-27 | the record settles exactly when its code is in {6, 17}, or {9, 25} when forced by the bank |
| Detalhe.Detalhe.IsBaixaRejeitada | src/Cnab/Retorno/Cnab240/Detalhe.php:53-61 | the record is a rejection exactly when its code is in {3, 26, 30} |
| Detalhe.Detalhe.GetCodigoNome | src/Cnab/Retorno/Cnab240/Detalhe.php:327-392 | "Desconhecido" exactly for codes outside the table, the table entry otherwise; never "Desconhecido" for a classified record |
| Detalhe.Detalhe.GetNumeroDocumento | src/Cnab/Retorno/Cnab240/Detalhe.php:157-163 | absent exactly when the field is only '0' characters (or empty), otherwise the field verbatim |
| Detalhe.Detalhe.GetNossoNumero | src/Cnab/Retorno/Cnab240/Detalhe.php:169-204 | never longer than the field; an integer only for CEF and below 10^7 |
| Detalhe.Detalhe.GetDataVencimento | src/Cnab/Retorno/Cnab240/Detalhe.php:210-216 | absent exactly for 0 or nine or more digits, otherwise the DDMMYYYY date at midnight |
| Detalhe.Detalhe.GetDataCredito | src/Cnab/Retorno/Cnab240/Detalhe.php:222-228 | the same rule on segment U's credit date |
| Detalhe.Detalhe.GetDataOcorrencia | src/Cnab/Retorno/Cnab240/Detalhe.php:242-248 | the same rule on segment U's occurrence date |
| Detalhe.Detalhe.GetCarteira | src/Cnab/Retorno/Cnab240/Detalhe.php:254-276 | absent for bank 104 whatever the segment holds; otherwise the field when present, absent when not |
| Detalhe.DataDeDigitos | src/Cnab/Retorno/Cnab240/Detalhe.php:212-214 | the date a DDMMYYYY value stands for is a valid calendar date at midnight |
| Detalhe.RegraDaData | src/Cnab/Retorno/Cnab240/Detalhe.php:210-248 | the shared date rule of the three date getters, case by case |
| Detalhe.ClassificacaoExclusiva | src/Cnab/Retorno/Cnab240/Detalhe.php:23-61 | a record is at most one of: settled by payment, settled by write-off, rejected |
| Php.SubstrDropLast | src/Cnab/Retorno/Cnab240/Detalhe.php:181 | `substr($s, 0, -k)` is all but the last k characters, "" when there are fewer |
| Php.SubstrLast | src/Cnab/Retorno/Cnab240/Detalhe.php:184 | `substr($s, -k)` is the last k characters, the whole text when shorter |
| Php.Substr | src/Cnab/Retorno/Cnab240/Detalhe.php:181-200 | PHP 8 `substr`: never longer than its input (the two call shapes used are given by SubstrDropLast and SubstrLast) |
| Php.Trim | src/Cnab/Retorno/Cnab240/Detalhe.php:160 | `trim($s, c)`: no longer than its input, and what is left neither starts nor ends with `c` |
| Php.TrimEmpty | src/Cnab/Retorno/Cnab240/Detalhe.php:160 | `trim($s, '0')` is empty exactly when the text is only '0' characters |
| Php.IntCastDigits | src/Cnab/Retorno/Cnab240/Detalhe.php:42 | `(int)` of a digit string is its decimal value |
| Php.IntCast | src/Cnab/Retorno/Cnab240/Detalhe.php:42 | PHP `(int)` of a string: negative only when a minus sign follows the leading white space |
| Php.InArray | src/Cnab/Retorno/Cnab240/Detalhe.php:43 | the `in_array` scan finds an integer exactly when it is an element of the list |
| Php.PregStripPrefix | src/Cnab/Retorno/Cnab240/Detalhe.php:174-178 | the anchored replacement removes the convênio only at the start: the field is unchanged or is convênio + result |
| Decimal.Sprintf08Value | src/Cnab/Retorno/Cnab240/Detalhe.php:212 | `sprintf('%08d')` of a value below 10^8 is eight digits that read back as the value |
| Decimal.Sprintf08Long | src/Cnab/Retorno/Cnab240/Detalhe.php:212 | `sprintf('%08d')` of 10^8 or more is longer than eight characters |
| Decimal.Sprintf08 | src/Cnab/Retorno/Cnab240/Detalhe.php:212 | `sprintf('%08d')` of a non-negative integer: at least eight characters, all digits |
| Decimal.ValueSuffix | src/Cnab/Retorno/Cnab240/Detalhe.php:184 | the last k digits of a digit string denote its value modulo 10^k |

## Left out

- `dump()` (lines 414-432): diagnostic text built from the segments' own `dump()` methods, which are not part of this model; segment W is read only there, so it is not modelled either.
- `getCodigoLiquidacao`, `getDescricaoLiquidacao`, `isDDA`, `getAlegacaoPagador` (lines 399-442): unfinished stubs with no behaviour (`null` or no return value).
- The amount getters (`getValorRecebido`, `getValorTitulo`, `getValorPago`, `getValorTarifa`, `getValorIOF`, `getValorDesconto`, `getValorAbatimento`, `getValorOutrasDespesas`, `getValorOutrosCreditos`, `getValorMoraMulta`) and the agency and sequence getters (`getAgencia`, `getAgenciaDv`, `getAgenciaCobradora`, `getAgenciaCobradoraDac`, `getNumeroSequencial`) are member functions of `Detalhe.Detalhe` without a contract: each returns one segment field unchanged, which is its whole definition.
- The line parser `\Cnab\Format\Linha` and the segments' magic properties: the segments are datatypes of already-parsed values; `existField('carteira')` is the `Option` of that field, and a missing mandatory field cannot occur.
- The bank catalogue `\Cnab\Banco`: its codes are the parameter `NossoNumero.Bancos`.
- NossoNumero.Normaliza: the convênio must contain no regular-expression metacharacter (`preg_replace` is modelled as a literal prefix match), and for CEF the field must be a digit string (PHP's loose comparison of other text with 9999999 is not modelled).
- Php.IntCast: reads leading white space, a sign and a run of digits; exponent and decimal-point forms of numeric strings and integer overflow are not modelled.
- Php.Substr, Php.Trim: a string is a sequence of characters, while PHP counts bytes; the two agree on the ASCII content of CNAB fields, but on a UTF-8 multibyte character `substr` would cut a byte where the model drops a character, so the lengths in NossoNumero.RegraSantander and NossoNumero.NuncaCresce count characters.
- Php.Substr: PHP 8 semantics, where PHP 7 returned `false` instead of "" for an empty result.
- Datas.DataHora, Datas.ParaMeiaNoite: the time zone of the PHP `DateTime` is not modelled; in a zone whose daylight-saving change skips midnight (America/Sao_Paulo before 2019), PHP's `setTime(0,0,0)` gives 01:00 on that day, where the model gives midnight.
- Getters return `None` where PHP returns `null` or `false`; PHP's loose typing of the raw values (a numeric field arriving as text) is not modelled.
