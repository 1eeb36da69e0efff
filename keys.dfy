/**
 * The cache keys of all the dashboard widgets. A key is a fixed prefix
 * (its tag) followed by an interpolated argument: a date in "Y-m-d" form,
 * an integer, "{year}_{month}", or a day count followed by "_dias".
 * Render gives the exact string the widgets pass to the cache, and
 * RenderInjective shows that two different keys never render to the same
 * string, so a cache indexed by Key behaves as the string-indexed one.
 */
module Keys {
  import opened Calendar
  import opened Text

  datatype Tag =
    // CaixaStatsOverview
    | FluxoSaldoTotal | FluxoDebitosTotal | FluxoCreditosTotal
    | FluxoHojeEntradas | FluxoHojeSaidas | FluxoHojePorHora
    | FluxoHistorico | FluxoEntradas | FluxoSaidas
    // ComprasMesChart and TotalCompraStatsOverview
    | ComprasTotalGeral | ComprasTotalMes | ComprasTotalHoje
    | ComprasDadosHoje | ComprasDadosMes | ComprasDadosGeral | ComprasMediaDiaria
    | ComprasTrend | CompraStatsId
    // PagarHojeStatsOverview
    | PagarTotalHoje | PagarTotalMes | PagarTotalGeral
    | PagarDadosHoje | PagarDadosMes | PagarDadosGeral
    // TotalVendaStatsOverview and VendaStatsOverview
    | VendasTotalGeral | VendasHoje | VendasMes | VendasTrend | VendaStatsOverview

  /** What follows the prefix. */
  datatype Arg =
    | NoArg
    | DateArg(date: Date)
    | IntArg(n: int)
    | DiasArg(dias: int)
    | MonthArg(ym: YearMonth)

  datatype Key = Key(tag: Tag, arg: Arg)

  function TagText(t: Tag): string {
    match t
    case FluxoSaldoTotal => "fluxo_caixa_saldo_total"
    case FluxoDebitosTotal => "fluxo_caixa_debitos_total"
    case FluxoCreditosTotal => "fluxo_caixa_creditos_total"
    case FluxoHojeEntradas => "fluxo_caixa_hoje_entradas_"
    case FluxoHojeSaidas => "fluxo_caixa_hoje_saidas_"
    case FluxoHojePorHora => "fluxo_caixa_hoje_por_hora"
    case FluxoHistorico => "fluxo_caixa_historico_"
    case FluxoEntradas => "fluxo_caixa_entradas_"
    case FluxoSaidas => "fluxo_caixa_saidas_"
    case ComprasTotalGeral => "compras_total_geral"
    case ComprasTotalMes => "compras_total_mes_"
    case ComprasTotalHoje => "compras_total_hoje_"
    case ComprasDadosHoje => "compras_dados_hoje_"
    case ComprasDadosMes => "compras_dados_mes_"
    case ComprasDadosGeral => "compras_dados_geral_12_meses"
    case ComprasMediaDiaria => "compras_media_diaria_"
    case ComprasTrend => "compras_trend_7d"
    case CompraStatsId => "compra_stats_id_"
    case PagarTotalHoje => "contas_pagar_total_hoje_"
    case PagarTotalMes => "contas_pagar_total_mes_"
    case PagarTotalGeral => "contas_pagar_total_geral"
    case PagarDadosHoje => "contas_pagar_dados_hoje_7_dias"
    case PagarDadosMes => "contas_pagar_dados_mes_"
    case PagarDadosGeral => "contas_pagar_dados_geral_12_meses"
    case VendasTotalGeral => "vendas_total_geral"
    case VendasHoje => "vendas_hoje_"
    case VendasMes => "vendas_mes_"
    case VendasTrend => "vendas_trend_7d_dash"
    case VendaStatsOverview => "venda_stats_overview_"
  }

  /** Only a date argument has a validity condition: it must be a calendar date. */
  predicate ValidArg(x: Arg) {
    x.DateArg? ==> ValidDate(x.date)
  }

  predicate ValidKey(k: Key) {
    ValidArg(k.arg)
  }

  function ArgText(x: Arg): string
    requires ValidArg(x)
  {
    match x
    case NoArg => ""
    case DateArg(d) => DateString(d)
    case IntArg(n) => IntToString(n)
    case DiasArg(n) => IntToString(n) + "_dias"
    case MonthArg(ym) => YearMonthText(ym)
  }

  /** The string handed to `Cache::remember` / `Cache::forget`. */
  function Render(k: Key): string
    requires ValidKey(k)
  {
    TagText(k.tag) + ArgText(k.arg)
  }

  // ---- reading the tag back ----

  predicate At(s: string, i: nat, c: char) {
    i < |s| && s[i] == c
  }

  /** Recovers the tag from a key string by inspecting characters inside the prefix only. */
  function DecodeTag(s: string): Tag {
    if At(s, 0, 'f') then
      if At(s, 12, 's') then (if At(s, 14, 'l') then FluxoSaldoTotal else FluxoSaidas)
      else if At(s, 12, 'd') then FluxoDebitosTotal
      else if At(s, 12, 'c') then FluxoCreditosTotal
      else if At(s, 12, 'e') then FluxoEntradas
      else if At(s, 13, 'i') then FluxoHistorico
      else if At(s, 17, 'e') then FluxoHojeEntradas
      else if At(s, 17, 's') then FluxoHojeSaidas
      else FluxoHojePorHora
    else if At(s, 0, 'v') then
      if At(s, 5, '_') then VendaStatsOverview
      else if At(s, 7, 'h') then VendasHoje
      else if At(s, 7, 'm') then VendasMes
      else if At(s, 8, 'o') then VendasTotalGeral
      else VendasTrend
    else if At(s, 2, 'n') then
      if At(s, 13, 't') then
        if At(s, 19, 'h') then PagarTotalHoje
        else if At(s, 19, 'm') then PagarTotalMes
        else PagarTotalGeral
      else
        if At(s, 19, 'h') then PagarDadosHoje
        else if At(s, 19, 'm') then PagarDadosMes
        else PagarDadosGeral
    else if At(s, 6, '_') then CompraStatsId
    else if At(s, 8, 'm') then ComprasMediaDiaria
    else if At(s, 8, 'd') then
      if At(s, 14, 'h') then ComprasDadosHoje
      else if At(s, 14, 'm') then ComprasDadosMes
      else ComprasDadosGeral
    else if At(s, 9, 'r') then ComprasTrend
    else if At(s, 14, 'g') then ComprasTotalGeral
    else if At(s, 14, 'h') then ComprasTotalHoje
    else ComprasTotalMes
  }

  // One lemma per tag keeps each proof obligation small.

  lemma DecodeFluxoSaldoTotal(rest: string)
    ensures DecodeTag(TagText(FluxoSaldoTotal) + rest) == FluxoSaldoTotal
  {
  }

  lemma DecodeFluxoDebitosTotal(rest: string)
    ensures DecodeTag(TagText(FluxoDebitosTotal) + rest) == FluxoDebitosTotal
  {
  }

  lemma DecodeFluxoCreditosTotal(rest: string)
    ensures DecodeTag(TagText(FluxoCreditosTotal) + rest) == FluxoCreditosTotal
  {
  }

  lemma DecodeFluxoHojeEntradas(rest: string)
    ensures DecodeTag(TagText(FluxoHojeEntradas) + rest) == FluxoHojeEntradas
  {
  }

  lemma DecodeFluxoHojeSaidas(rest: string)
    ensures DecodeTag(TagText(FluxoHojeSaidas) + rest) == FluxoHojeSaidas
  {
  }

  lemma DecodeFluxoHojePorHora(rest: string)
    ensures DecodeTag(TagText(FluxoHojePorHora) + rest) == FluxoHojePorHora
  {
  }

  lemma DecodeFluxoHistorico(rest: string)
    ensures DecodeTag(TagText(FluxoHistorico) + rest) == FluxoHistorico
  {
  }

  lemma DecodeFluxoEntradas(rest: string)
    ensures DecodeTag(TagText(FluxoEntradas) + rest) == FluxoEntradas
  {
  }

  lemma DecodeFluxoSaidas(rest: string)
    ensures DecodeTag(TagText(FluxoSaidas) + rest) == FluxoSaidas
  {
  }

  lemma DecodeComprasTotalGeral(rest: string)
    ensures DecodeTag(TagText(ComprasTotalGeral) + rest) == ComprasTotalGeral
  {
  }

  lemma DecodeComprasTotalMes(rest: string)
    ensures DecodeTag(TagText(ComprasTotalMes) + rest) == ComprasTotalMes
  {
  }

  lemma DecodeComprasTotalHoje(rest: string)
    ensures DecodeTag(TagText(ComprasTotalHoje) + rest) == ComprasTotalHoje
  {
  }

  lemma DecodeComprasDadosHoje(rest: string)
    ensures DecodeTag(TagText(ComprasDadosHoje) + rest) == ComprasDadosHoje
  {
  }

  lemma DecodeComprasDadosMes(rest: string)
    ensures DecodeTag(TagText(ComprasDadosMes) + rest) == ComprasDadosMes
  {
  }

  lemma DecodeComprasDadosGeral(rest: string)
    ensures DecodeTag(TagText(ComprasDadosGeral) + rest) == ComprasDadosGeral
  {
  }

  lemma DecodeComprasMediaDiaria(rest: string)
    ensures DecodeTag(TagText(ComprasMediaDiaria) + rest) == ComprasMediaDiaria
  {
  }

  lemma DecodeComprasTrend(rest: string)
    ensures DecodeTag(TagText(ComprasTrend) + rest) == ComprasTrend
  {
  }

  lemma DecodeCompraStatsId(rest: string)
    ensures DecodeTag(TagText(CompraStatsId) + rest) == CompraStatsId
  {
  }

  lemma DecodePagarTotalHoje(rest: string)
    ensures DecodeTag(TagText(PagarTotalHoje) + rest) == PagarTotalHoje
  {
  }

  lemma DecodePagarTotalMes(rest: string)
    ensures DecodeTag(TagText(PagarTotalMes) + rest) == PagarTotalMes
  {
  }

  lemma DecodePagarTotalGeral(rest: string)
    ensures DecodeTag(TagText(PagarTotalGeral) + rest) == PagarTotalGeral
  {
  }

  lemma DecodePagarDadosHoje(rest: string)
    ensures DecodeTag(TagText(PagarDadosHoje) + rest) == PagarDadosHoje
  {
  }

  lemma DecodePagarDadosMes(rest: string)
    ensures DecodeTag(TagText(PagarDadosMes) + rest) == PagarDadosMes
  {
  }

  lemma DecodePagarDadosGeral(rest: string)
    ensures DecodeTag(TagText(PagarDadosGeral) + rest) == PagarDadosGeral
  {
  }

  lemma DecodeVendasTotalGeral(rest: string)
    ensures DecodeTag(TagText(VendasTotalGeral) + rest) == VendasTotalGeral
  {
  }

  lemma DecodeVendasHoje(rest: string)
    ensures DecodeTag(TagText(VendasHoje) + rest) == VendasHoje
  {
  }

  lemma DecodeVendasMes(rest: string)
    ensures DecodeTag(TagText(VendasMes) + rest) == VendasMes
  {
  }

  lemma DecodeVendasTrend(rest: string)
    ensures DecodeTag(TagText(VendasTrend) + rest) == VendasTrend
  {
  }

  lemma DecodeVendaStatsOverview(rest: string)
    ensures DecodeTag(TagText(VendaStatsOverview) + rest) == VendaStatsOverview
  {
  }

  /** The prefix of every key string can be read back, whatever argument follows it. */
  lemma DecodeTagText(t: Tag, rest: string)
    ensures DecodeTag(TagText(t) + rest) == t
  {
    match t
    case FluxoSaldoTotal => DecodeFluxoSaldoTotal(rest);
    case FluxoDebitosTotal => DecodeFluxoDebitosTotal(rest);
    case FluxoCreditosTotal => DecodeFluxoCreditosTotal(rest);
    case FluxoHojeEntradas => DecodeFluxoHojeEntradas(rest);
    case FluxoHojeSaidas => DecodeFluxoHojeSaidas(rest);
    case FluxoHojePorHora => DecodeFluxoHojePorHora(rest);
    case FluxoHistorico => DecodeFluxoHistorico(rest);
    case FluxoEntradas => DecodeFluxoEntradas(rest);
    case FluxoSaidas => DecodeFluxoSaidas(rest);
    case ComprasTotalGeral => DecodeComprasTotalGeral(rest);
    case ComprasTotalMes => DecodeComprasTotalMes(rest);
    case ComprasTotalHoje => DecodeComprasTotalHoje(rest);
    case ComprasDadosHoje => DecodeComprasDadosHoje(rest);
    case ComprasDadosMes => DecodeComprasDadosMes(rest);
    case ComprasDadosGeral => DecodeComprasDadosGeral(rest);
    case ComprasMediaDiaria => DecodeComprasMediaDiaria(rest);
    case ComprasTrend => DecodeComprasTrend(rest);
    case CompraStatsId => DecodeCompraStatsId(rest);
    case PagarTotalHoje => DecodePagarTotalHoje(rest);
    case PagarTotalMes => DecodePagarTotalMes(rest);
    case PagarTotalGeral => DecodePagarTotalGeral(rest);
    case PagarDadosHoje => DecodePagarDadosHoje(rest);
    case PagarDadosMes => DecodePagarDadosMes(rest);
    case PagarDadosGeral => DecodePagarDadosGeral(rest);
    case VendasTotalGeral => DecodeVendasTotalGeral(rest);
    case VendasHoje => DecodeVendasHoje(rest);
    case VendasMes => DecodeVendasMes(rest);
    case VendasTrend => DecodeVendasTrend(rest);
    case VendaStatsOverview => DecodeVendaStatsOverview(rest);
  }

  // ---- the argument is read back too ----

  /** In an integer's rendering every character after the first is a digit. */
  lemma IntToStringDigits(n: int, i: nat)
    requires 0 < i < |IntToString(n)|
    ensures IsDigit(IntToString(n)[i])
  {
    var s := IntToString(n);
    if n < 0 {
      assert s[i] == s[1..][i - 1];
    }
  }

  /** A string without '_' is not of the form a + "_" + b. */
  lemma NoUnderscoreSplit(s: string, a: string, b: string)
    requires NoUnderscore(s)
    ensures s != a + "_" + b
  {
    assert (a + "_" + b)[|a|] == '_';
  }

  lemma DiasText(n: int)
    ensures IntToString(n) + "_dias" == IntToString(n) + "_" + "dias"
    ensures var s := IntToString(n) + "_dias"; s[|s| - 1] == 's'
  {
  }

  /** A date argument renders like no other argument. */
  lemma DateArgInjective(d: Date, y: Arg)
    requires ValidDate(d) && ValidArg(y)
    requires DateString(d) == ArgText(y)
    ensures y == DateArg(d)
  {
    var s := DateString(d);
    DateStringShape(d);
    match y {
      case DateArg(e) => DateStringInjective(d, e);
      case IntArg(n) => IntToStringDigits(n, |s| - 3);
      case DiasArg(n) => DiasText(n);
      case MonthArg(ym) => NoUnderscoreSplit(s, IntToString(ym.year), IntToString(ym.month));
      case NoArg =>
    }
  }

  /** An integer argument renders like no other argument. */
  lemma IntArgInjective(n: int, y: Arg)
    requires ValidArg(y)
    requires IntToString(n) == ArgText(y)
    ensures y == IntArg(n)
  {
    var s := IntToString(n);
    match y {
      case IntArg(m) => IntToStringInjective(n, m);
      case DateArg(e) => DateArgInjective(e, IntArg(n));
      case DiasArg(m) => DiasText(m); NoUnderscoreSplit(s, IntToString(m), "dias");
      case MonthArg(ym) => NoUnderscoreSplit(s, IntToString(ym.year), IntToString(ym.month));
      case NoArg =>
    }
  }

  /** "{year}_{month}" is never "{n}_dias": after the '_' comes a number, not "dias". */
  lemma MonthNotDias(ym: YearMonth, n: int)
    ensures YearMonthText(ym) != IntToString(n) + "_dias"
  {
    DiasText(n);
    var t := IntToString(ym.month);
    assert t[0] != 'd' by {
      assert IsDigit(t[0]) || t[0] == '-';
    }
    if YearMonthText(ym) == IntToString(n) + "_dias" {
      UnderscoreSplit(IntToString(n), "dias", IntToString(ym.year), t);
    }
  }

  /** A day-count argument renders like no other argument. */
  lemma DiasArgInjective(n: int, y: Arg)
    requires ValidArg(y)
    requires IntToString(n) + "_dias" == ArgText(y)
    ensures y == DiasArg(n)
  {
    var s := IntToString(n) + "_dias";
    DiasText(n);
    match y {
      case DiasArg(m) =>
        assert IntToString(n) == s[..|s| - 5] == IntToString(m);
        IntToStringInjective(n, m);
      case DateArg(e) => DateArgInjective(e, DiasArg(n));
      case IntArg(m) => IntArgInjective(m, DiasArg(n));
      case MonthArg(ym) => MonthNotDias(ym, n);
      case NoArg =>
    }
  }

  /** Different arguments render differently, whatever their kinds. */
  lemma ArgTextInjective(x: Arg, y: Arg)
    requires ValidArg(x) && ValidArg(y)
    requires ArgText(x) == ArgText(y)
    ensures x == y
  {
    match x {
      case NoArg =>
      case DateArg(d) => DateArgInjective(d, y);
      case IntArg(n) => IntArgInjective(n, y);
      case DiasArg(n) => DiasArgInjective(n, y);
      case MonthArg(ym) =>
        match y {
          case MonthArg(zm) => YearMonthTextInjective(ym, zm);
          case DateArg(e) => DateArgInjective(e, x);
          case IntArg(m) => IntArgInjective(m, x);
          case DiasArg(m) => DiasArgInjective(m, x);
          case NoArg =>
        }
    }
  }

  /** Two different keys never share a cache string. */
  lemma RenderInjective(a: Key, b: Key)
    requires ValidKey(a) && ValidKey(b)
    requires Render(a) == Render(b)
    ensures a == b
  {
    DecodeTagText(a.tag, ArgText(a.arg));
    DecodeTagText(b.tag, ArgText(b.arg));
    PrefixCancel(TagText(a.tag), ArgText(a.arg), ArgText(b.arg));
    ArgTextInjective(a.arg, b.arg);
  }

  /** Two different keys render to different strings. */
  lemma RenderDistinct(a: Key, b: Key)
    requires ValidKey(a) && ValidKey(b) && a != b
    ensures Render(a) != Render(b)
  {
    if Render(a) == Render(b) {
      RenderInjective(a, b);
    }
  }
}
